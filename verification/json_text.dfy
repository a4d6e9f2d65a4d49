/**
  JSON text: `JSON.stringify(v)` and `JSON.stringify(v, null, gap)` as
  `Print`, and `JSON.parse` as `Parse`, for the integer-valued documents of
  module JsonValues. Storage (localStorage, the export file) and every HTTP
  body hold text in this form.
 */
module JsonText {
  import opened JsonValues
  import Text

  /** The four characters JSON allows between tokens. */
  predicate IsSpace(c: char) {
    c == ' ' || c == '\t' || c == '\n' || c == '\r'
  }

  predicate AllSpace(s: string) {
    forall i :: 0 <= i < |s| ==> IsSpace(s[i])
  }

  // ---------------------------------------------------------------------
  // Printing
  // ---------------------------------------------------------------------

  function HexDigit(d: nat): char
    requires d < 16
  {
    "0123456789abcdef"[d]
  }

  /** How JSON.stringify writes one character of a string. */
  function EscapeChar(c: char): string {
    if c == '"' then "\\\""
    else if c == '\\' then "\\\\"
    else if c == '\U{0008}' then "\\b"
    else if c == '\U{000C}' then "\\f"
    else if c == '\n' then "\\n"
    else if c == '\r' then "\\r"
    else if c == '\t' then "\\t"
    else if c < ' ' then "\\u00" + [HexDigit(c as int / 16), HexDigit(c as int % 16)]
    else [c]
  }

  function Escape(s: string): string {
    if s == [] then "" else EscapeChar(s[0]) + Escape(s[1..])
  }

  function Quote(s: string): string {
    "\"" + Escape(s) + "\""
  }

  /** The line break and indentation JSON.stringify puts between the
      members of a non-empty array or object; nothing when `gap` is empty. */
  function Break(gap: string, indent: string): string {
    if gap == [] then [] else "\n" + indent
  }

  /** JSON.stringify(v, null, gap) for a value nested at indentation
      `indent`; JSON.stringify(v) is `Print(v, "", "")`. */
  function Print(v: Json, gap: string, indent: string): string {
    match v
    case JNull => "null"
    case JBool(b) => if b then "true" else "false"
    case JNum(n) => Text.IntToString(n)
    case JStr(s) => Quote(s)
    case JArr(items) =>
      if items == [] then "[]"
      else "[" + Break(gap, indent + gap) + PrintItems(items, gap, indent + gap) + Break(gap, indent) + "]"
    case JObj(fields) =>
      if fields == [] then "{}"
      else "{" + Break(gap, indent + gap) + PrintFields(fields, gap, indent + gap) + Break(gap, indent) + "}"
  }

  function PrintItems(items: seq<Json>, gap: string, indent: string): string
    requires items != []
  {
    if |items| == 1 then Print(items[0], gap, indent)
    else Print(items[0], gap, indent) + "," + Break(gap, indent) + PrintItems(items[1..], gap, indent)
  }

  function PrintField(f: Field, gap: string, indent: string): string {
    Quote(f.key) + ":" + (if gap == [] then "" else " ") + Print(f.value, gap, indent)
  }

  function PrintFields(fields: seq<Field>, gap: string, indent: string): string
    requires fields != []
  {
    if |fields| == 1 then PrintField(fields[0], gap, indent)
    else PrintField(fields[0], gap, indent) + "," + Break(gap, indent) + PrintFields(fields[1..], gap, indent)
  }

  /** JSON.stringify(v). */
  function Stringify(v: Json): string {
    Print(v, "", "")
  }

  // ---------------------------------------------------------------------
  // Parsing
  // ---------------------------------------------------------------------

  function SkipSpace(s: string): (r: string)
    ensures |r| <= |s|
  {
    if s != [] && IsSpace(s[0]) then SkipSpace(s[1..]) else s
  }

  function HexValue(c: char): Option<nat> {
    if '0' <= c <= '9' then Some(c as int - '0' as int)
    else if 'a' <= c <= 'f' then Some(c as int - 'a' as int + 10)
    else if 'A' <= c <= 'F' then Some(c as int - 'A' as int + 10)
    else None
  }

  /** The character written as `\uXXXX` by the four digits `h`, unless it
      is half of a surrogate pair. */
  function UnicodeEscape(h: string): Option<char>
    requires |h| == 4
  {
    match (HexValue(h[0]), HexValue(h[1]), HexValue(h[2]), HexValue(h[3]))
    case (Some(a), Some(b), Some(c), Some(d)) =>
      var code := ((a * 16 + b) * 16 + c) * 16 + d;
      if code < 0xD800 || 0xE000 <= code < 0x1_0000 then Some(code as char) else None
    case _ => None
  }

  /** The body of a string literal up to its closing quote, decoded onto `acc`. */
  function ParseString(s: string, acc: string): (r: Option<(string, string)>)
    ensures r.Some? ==> |r.value.1| < |s|
    decreases |s|
  {
    if s == [] then None
    else if s[0] == '"' then Some((acc, s[1..]))
    else if s[0] == '\\' then
      if |s| < 2 then None
      else if s[1] == '"' then ParseString(s[2..], acc + ['"'])
      else if s[1] == '\\' then ParseString(s[2..], acc + ['\\'])
      else if s[1] == '/' then ParseString(s[2..], acc + ['/'])
      else if s[1] == 'b' then ParseString(s[2..], acc + ['\U{0008}'])
      else if s[1] == 'f' then ParseString(s[2..], acc + ['\U{000C}'])
      else if s[1] == 'n' then ParseString(s[2..], acc + ['\n'])
      else if s[1] == 'r' then ParseString(s[2..], acc + ['\r'])
      else if s[1] == 't' then ParseString(s[2..], acc + ['\t'])
      else if s[1] == 'u' && |s| >= 6 then
        match UnicodeEscape(s[2..6])
        case Some(c) => ParseString(s[6..], acc + [c])
        case None => None
      else None
    else if s[0] < ' ' then None
    else ParseString(s[1..], acc + [s[0]])
  }

  /** The number of leading decimal digits. */
  function DigitRun(s: string): (k: nat)
    ensures k <= |s| && Text.AllDigits(s[..k])
    ensures k < |s| ==> !Text.IsDigit(s[k])
  {
    if s == [] || !Text.IsDigit(s[0]) then 0
    else
      var k := 1 + DigitRun(s[1..]);
      assert s[..k] == [s[0]] + s[1..][..k - 1];
      k
  }

  /** Digits of an integer literal: `0`, or digits not starting with `0`. */
  function ParseDigits(u: string): (r: Option<(nat, string)>)
    ensures r.Some? ==> |r.value.1| < |u|
  {
    var k := DigitRun(u);
    if k == 0 || (u[0] == '0' && k > 1) then None
    else Some((Text.DigitsValue(u[..k]), u[k..]))
  }

  /** An integer literal with an optional minus sign. */
  function ParseNumber(t: string): (r: Option<(Json, string)>)
    ensures r.Some? ==> |r.value.1| < |t|
  {
    if t != [] && t[0] == '-' then
      match ParseDigits(t[1..])
      case Some((m, rest)) => Some((JNum(-(m as int)), rest))
      case None => None
    else
      match ParseDigits(t)
      case Some((m, rest)) => Some((JNum(m), rest))
      case None => None
  }

  predicate StartsWith(t: string, lit: string) {
    |t| >= |lit| && t[..|lit|] == lit
  }

  /** One value after optional white space, and the text after it. */
  function ParseValue(s: string): (r: Option<(Json, string)>)
    ensures r.Some? ==> |r.value.1| < |s|
    decreases |s|, 2
  {
    ParseToken(SkipSpace(s))
  }

  /** One value starting at the first character of `t`. */
  function ParseToken(t: string): (r: Option<(Json, string)>)
    ensures r.Some? ==> |r.value.1| < |t|
    decreases |t|, 1
  {
    if t == [] then None
    else if t[0] == 'n' then
      if StartsWith(t, "null") then Some((JNull, t[4..])) else None
    else if t[0] == 't' then
      if StartsWith(t, "true") then Some((JBool(true), t[4..])) else None
    else if t[0] == 'f' then
      if StartsWith(t, "false") then Some((JBool(false), t[5..])) else None
    else if t[0] == '"' then
      match ParseString(t[1..], [])
      case Some((str, rest)) => Some((JStr(str), rest))
      case None => None
    else if t[0] == '[' then ParseArray(t[1..])
    else if t[0] == '{' then ParseObject(t[1..])
    else ParseNumber(t)
  }

  /** An array after its `[`. */
  function ParseArray(s: string): (r: Option<(Json, string)>)
    ensures r.Some? ==> |r.value.1| < |s|
    decreases |s|, 4
  {
    var u := SkipSpace(s);
    if u != [] && u[0] == ']' then Some((JArr([]), u[1..])) else ParseElements(u, [])
  }

  /** An object after its `{`. */
  function ParseObject(s: string): (r: Option<(Json, string)>)
    ensures r.Some? ==> |r.value.1| < |s|
    decreases |s|, 4
  {
    var u := SkipSpace(s);
    if u != [] && u[0] == '}' then Some((JObj([]), u[1..])) else ParseMembers(u, [])
  }

  /** The elements of an array after its `[`, appended to `acc`, through the closing `]`. */
  function ParseElements(s: string, acc: seq<Json>): (r: Option<(Json, string)>)
    ensures r.Some? ==> |r.value.1| < |s|
    decreases |s|, 3
  {
    match ParseValue(s)
    case None => None
    case Some((v, rest)) =>
      var u := SkipSpace(rest);
      if u == [] then None
      else if u[0] == ',' then ParseElements(u[1..], acc + [v])
      else if u[0] == ']' then Some((JArr(acc + [v]), u[1..]))
      else None
  }

  /** The members of an object after its `{`, added to `acc` (a repeated
      name keeps its first position and takes the later value), through
      the closing `}`. */
  function ParseMembers(s: string, acc: seq<Field>): (r: Option<(Json, string)>)
    ensures r.Some? ==> |r.value.1| < |s|
    decreases |s|, 3
  {
    var t := SkipSpace(s);
    if t == [] || t[0] != '"' then None
    else
      match ParseString(t[1..], [])
      case None => None
      case Some((key, rest)) =>
        var c := SkipSpace(rest);
        if c == [] || c[0] != ':' then None
        else
          match ParseValue(c[1..])
          case None => None
          case Some((v, rest')) =>
            var u := SkipSpace(rest');
            var fields := Assign(acc, key, v);
            if u == [] then None
            else if u[0] == ',' then ParseMembers(u[1..], fields)
            else if u[0] == '}' then Some((JObj(fields), u[1..]))
            else None
  }

  /** JSON.parse: one value, surrounded by nothing but white space. */
  function Parse(s: string): Option<Json> {
    match ParseValue(s)
    case Some((v, rest)) => if SkipSpace(rest) == [] then Some(v) else None
    case None => None
  }

  /** JSON.parse only builds well-formed documents: an object that names a
      member twice keeps one member, with the later value. */
  lemma ParseWellFormed(s: string)
    ensures Parse(s).Some? ==> WellFormed(Parse(s).value)
  {
    ValueWellFormed(s);
  }

  lemma {:induction false} ValueWellFormed(s: string)
    ensures ParseValue(s).Some? ==> WellFormed(ParseValue(s).value.0)
    decreases |s|, 2
  {
    TokenWellFormed(SkipSpace(s));
  }

  lemma {:induction false} TokenWellFormed(t: string)
    ensures ParseToken(t).Some? ==> WellFormed(ParseToken(t).value.0)
    decreases |t|, 1
  {
    if t != [] && t[0] == '[' {
      ArrayWellFormed(t[1..]);
    } else if t != [] && t[0] == '{' {
      ObjectWellFormed(t[1..]);
    }
  }

  lemma {:induction false} ArrayWellFormed(s: string)
    ensures ParseArray(s).Some? ==> WellFormed(ParseArray(s).value.0)
    decreases |s|, 4
  {
    var u := SkipSpace(s);
    if !(u != [] && u[0] == ']') {
      ElementsWellFormed(u, []);
    }
  }

  lemma {:induction false} ObjectWellFormed(s: string)
    ensures ParseObject(s).Some? ==> WellFormed(ParseObject(s).value.0)
    decreases |s|, 4
  {
    var u := SkipSpace(s);
    if !(u != [] && u[0] == '}') {
      MembersWellFormed(u, []);
    }
  }

  lemma {:induction false} ElementsWellFormed(s: string, acc: seq<Json>)
    requires forall i :: 0 <= i < |acc| ==> WellFormed(acc[i])
    ensures ParseElements(s, acc).Some? ==> WellFormed(ParseElements(s, acc).value.0)
    decreases |s|, 3
  {
    ValueWellFormed(s);
    match ParseValue(s)
    case None =>
    case Some((v, rest)) =>
      var u := SkipSpace(rest);
      var more := acc + [v];
      assert forall i :: 0 <= i < |more| ==> WellFormed(more[i]);
      if u != [] && u[0] == ',' {
        ElementsWellFormed(u[1..], more);
      }
  }

  lemma {:induction false} MembersWellFormed(s: string, acc: seq<Field>)
    requires DistinctKeys(acc) && forall i :: 0 <= i < |acc| ==> WellFormed(acc[i].value)
    ensures ParseMembers(s, acc).Some? ==> WellFormed(ParseMembers(s, acc).value.0)
    decreases |s|, 3
  {
    var t := SkipSpace(s);
    if t == [] || t[0] != '"' {
    } else {
      match ParseString(t[1..], [])
      case None =>
      case Some((key, rest)) =>
        var c := SkipSpace(rest);
        if c != [] && c[0] == ':' {
          ValueWellFormed(c[1..]);
          match ParseValue(c[1..])
          case None =>
          case Some((v, rest')) =>
            var u := SkipSpace(rest');
            var fields := Assign(acc, key, v);
            AssignThenLookup(acc, key, v, key);
            assert forall i :: 0 <= i < |fields| ==> WellFormed(fields[i].value) by {
              forall i | 0 <= i < |fields|
                ensures WellFormed(fields[i].value)
              {
                if i < |acc| && acc[i].key != key {
                  assert fields[i] == acc[i];
                } else {
                  assert fields[i].value == v;
                }
              }
            }
            if u != [] && u[0] == ',' {
              MembersWellFormed(u[1..], fields);
            }
        }
    }
  }

  // ---------------------------------------------------------------------
  // Round trip
  // ---------------------------------------------------------------------

  /** What JSON.stringify writes, JSON.parse reads back: compact or indented. */
  lemma ParsePrint(v: Json, gap: string)
    requires WellFormed(v) && AllSpace(gap)
    ensures Parse(Print(v, gap, "")) == Some(v)
  {
    var p := Print(v, gap, "");
    assert "" + p + "" == p;
    PrintThenParse(v, gap, "", "", "");
    assert SkipSpace("") == "";
  }

  lemma ParseStringify(v: Json)
    requires WellFormed(v)
    ensures Parse(Stringify(v)) == Some(v)
  {
    ParsePrint(v, "");
  }

  lemma {:induction false} SkipSpaces(w: string, x: string)
    requires AllSpace(w)
    requires x == [] || !IsSpace(x[0])
    ensures SkipSpace(w + x) == x
    decreases |w|
  {
    if w == [] {
      assert w + x == x;
    } else {
      assert (w + x)[1..] == w[1..] + x;
      SkipSpaces(w[1..], x);
    }
  }

  lemma BreakIsSpace(gap: string, indent: string)
    requires AllSpace(gap) && AllSpace(indent)
    ensures AllSpace(Break(gap, indent))
    ensures AllSpace(indent + gap)
  {
  }

  /** JSON.stringify never starts a value with white space. */
  lemma PrintStart(v: Json, gap: string, indent: string)
    ensures Print(v, gap, indent) != []
    ensures !IsSpace(Print(v, gap, indent)[0])
  {
    if v.JNum? && v.n >= 0 {
      assert Text.AllDigits(Text.NatToString(v.n));
    }
  }

  lemma EscapedChar(c: char, x: string, acc: string)
    ensures ParseString(EscapeChar(c) + x, acc) == ParseString(x, acc + [c])
  {
    if c == '"' || c == '\\' || c == '\U{0008}' || c == '\U{000C}' || c == '\n' || c == '\r' || c == '\t' {
      ShortEscaped(c, x, acc);
    } else if c < ' ' {
      UnicodeEscaped(c, x, acc);
    } else {
      var s := EscapeChar(c) + x;
      assert s[0] == c && s[1..] == x;
    }
  }

  /** The characters with a two-character escape. */
  lemma ShortEscaped(c: char, x: string, acc: string)
    requires c == '"' || c == '\\' || c == '\U{0008}' || c == '\U{000C}' || c == '\n' || c == '\r' || c == '\t'
    ensures ParseString(EscapeChar(c) + x, acc) == ParseString(x, acc + [c])
  {
    var e := EscapeChar(c);
    var s := e + x;
    assert |e| == 2 && s[0] == '\\' && s[1] == e[1] && s[2..] == x;
  }

  /** The other control characters, escaped as four hex digits. */
  lemma UnicodeEscaped(c: char, x: string, acc: string)
    requires c < ' '
    requires !(c == '"' || c == '\\' || c == '\U{0008}' || c == '\U{000C}' || c == '\n' || c == '\r' || c == '\t')
    ensures ParseString(EscapeChar(c) + x, acc) == ParseString(x, acc + [c])
  {
    var e := EscapeChar(c);
    var s := e + x;
    var h := [HexDigit(c as int / 16), HexDigit(c as int % 16)];
    assert e == "\\u00" + h;
    assert s[0] == '\\' && s[1] == 'u' && s[6..] == x;
    assert s[2..6] == ['0', '0'] + h;
    assert UnicodeEscape(s[2..6]) == Some(c);
  }

  lemma {:induction false} EscapedString(str: string, x: string, acc: string)
    ensures ParseString(Escape(str) + "\"" + x, acc) == Some((acc + str, x))
    decreases |str|
  {
    if str == [] {
      QuoteEnds(x, acc);
    } else {
      var tail := Escape(str[1..]) + "\"" + x;
      EscapeFirst(str, x);
      EscapedChar(str[0], tail, acc);
      EscapedString(str[1..], x, acc + [str[0]]);
      Text.Associate(acc, [str[0]], str[1..]);
      assert [str[0]] + str[1..] == str;
    }
  }

  /** The escaped text of a non-empty string starts with its first character's escape. */
  lemma EscapeFirst(str: string, x: string)
    requires str != []
    ensures Escape(str) + "\"" + x == EscapeChar(str[0]) + (Escape(str[1..]) + "\"" + x)
  {
    Text.Associate(EscapeChar(str[0]), Escape(str[1..]), "\"");
    Text.Associate(EscapeChar(str[0]), Escape(str[1..]) + "\"", x);
  }

  /** The closing quote ends the string. */
  lemma QuoteEnds(x: string, acc: string)
    ensures ParseString(Escape([]) + "\"" + x, acc) == Some((acc + [], x))
  {
    assert Escape([]) + "\"" + x == "\"" + x;
    assert acc + [] == acc;
    assert ("\"" + x)[0] == '"' && ("\"" + x)[1..] == x;
  }

  /** The digit run of a numeral followed by a non-digit is the numeral. */
  lemma {:induction false} DigitRunOf(d: string, x: string)
    requires Text.AllDigits(d)
    requires x == [] || !Text.IsDigit(x[0])
    ensures DigitRun(d + x) == |d|
    decreases |d|
  {
    if d == [] {
      assert d + x == x;
    } else {
      assert (d + x)[0] == d[0] && (d + x)[1..] == d[1..] + x;
      DigitRunOf(d[1..], x);
    }
  }

  lemma DigitsLiteral(m: nat, x: string)
    requires x == [] || !Text.IsDigit(x[0])
    ensures ParseDigits(Text.NatToString(m) + x) == Some((m, x))
  {
    var d := Text.NatToString(m);
    var u := d + x;
    DigitRunOf(d, x);
    assert u[..|d|] == d;
    assert u[|d|..] == x;
    assert u[0] == '0' ==> |d| == 1 by {
      if u[0] == '0' {
        assert m == 0;
      }
    }
  }

  /** A token that starts with a minus sign or a digit is a number. */
  lemma NumberDispatch(t: string)
    requires t != [] && (t[0] == '-' || Text.IsDigit(t[0]))
    ensures ParseToken(t) == ParseNumber(t)
  {
    assert t[0] != 'n' && t[0] != 't' && t[0] != 'f' && t[0] != '"' && t[0] != '[' && t[0] != '{';
  }

  lemma ArrayDispatch(t: string)
    requires t != [] && t[0] == '['
    ensures ParseToken(t) == ParseArray(t[1..])
  {
  }

  lemma ObjectDispatch(t: string)
    requires t != [] && t[0] == '{'
    ensures ParseToken(t) == ParseObject(t[1..])
  {
  }

  lemma NumberToken(n: int, x: string)
    requires x == [] || !Text.IsDigit(x[0])
    ensures ParseToken(Text.IntToString(n) + x) == Some((JNum(n), x))
  {
    var m: nat := if n < 0 then -n else n;
    var d := Text.NatToString(m);
    assert Text.IsDigit(d[0]);
    DigitsLiteral(m, x);
    if n < 0 {
      NegativeToken(d, m, x);
    } else {
      UnsignedToken(d, m, x);
    }
  }

  lemma UnsignedToken(d: string, m: nat, x: string)
    requires d != [] && Text.IsDigit(d[0])
    requires ParseDigits(d + x) == Some((m, x))
    ensures ParseToken(d + x) == Some((JNum(m), x))
  {
    NumberDispatch(d + x);
  }

  lemma NegativeToken(d: string, m: nat, x: string)
    requires ParseDigits(d + x) == Some((m, x))
    ensures ParseToken("-" + d + x) == Some((JNum(-(m as int)), x))
  {
    var t := "-" + d + x;
    assert t[0] == '-' && t[1..] == d + x;
    NumberDispatch(t);
  }

  lemma StringToken(str: string, x: string)
    ensures ParseToken(Quote(str) + x) == Some((JStr(str), x))
  {
    var t := Quote(str) + x;
    var e := Escape(str) + "\"";
    assert Quote(str) == "\"" + e;
    Text.Associate("\"", e, x);
    assert t[0] == '"' && t[1..] == e + x;
    EscapedString(str, x, []);
    assert [] + str == str;
    StringDispatch(t);
  }

  /** A token that starts with a quote is a string. */
  lemma StringDispatch(t: string)
    requires t != [] && t[0] == '"' && ParseString(t[1..], []).Some?
    ensures ParseToken(t) == Some((JStr(ParseString(t[1..], []).value.0), ParseString(t[1..], []).value.1))
  {
  }

  lemma LiteralToken(v: Json, x: string)
    requires v.JNull? || v.JBool?
    ensures ParseToken(Print(v, "", "") + x) == Some((v, x))
  {
    var lit := Print(v, "", "");
    var t := lit + x;
    assert t[..|lit|] == lit && t[|lit|..] == x;
  }

  /** Parsing `lead + Print(v) + rest` yields `v` and leaves `rest`, for
      white space `lead` and any `rest` that cannot extend a number. */
  lemma PrintThenParse(v: Json, gap: string, indent: string, lead: string, rest: string)
    requires WellFormed(v) && AllSpace(gap) && AllSpace(indent) && AllSpace(lead)
    requires rest == [] || !Text.IsDigit(rest[0])
    ensures ParseValue(lead + Print(v, gap, indent) + rest) == Some((v, rest))
    decreases v, 2
  {
    var p := Print(v, gap, indent);
    PrintStart(v, gap, indent);
    assert lead + p + rest == lead + (p + rest);
    SkipSpaces(lead, p + rest);
    TokenThenParse(v, gap, indent, rest);
  }

  lemma TokenThenParse(v: Json, gap: string, indent: string, rest: string)
    requires WellFormed(v) && AllSpace(gap) && AllSpace(indent)
    requires rest == [] || !Text.IsDigit(rest[0])
    ensures ParseToken(Print(v, gap, indent) + rest) == Some((v, rest))
    decreases v, 1
  {
    match v
    case JNull => LiteralToken(v, rest);
    case JBool(_) => LiteralToken(v, rest);
    case JNum(n) => NumberToken(n, rest);
    case JStr(str) => StringToken(str, rest);
    case JArr(items) => ArrayToken(items, gap, indent, rest);
    case JObj(fields) => ObjectToken(fields, gap, indent, rest);
  }

  lemma ArrayToken(items: seq<Json>, gap: string, indent: string, rest: string)
    requires WellFormed(JArr(items)) && AllSpace(gap) && AllSpace(indent)
    ensures ParseToken(Print(JArr(items), gap, indent) + rest) == Some((JArr(items), rest))
    decreases items, 2
  {
    var t := Print(JArr(items), gap, indent) + rest;
    if items == [] {
      Bracketed(t, '[', "", "", "", ']', rest);
      ArrayDispatch(t);
      SkipSpaces("", "]" + rest);
    } else {
      var inner := indent + gap;
      BreakIsSpace(gap, indent);
      BreakIsSpace(gap, inner);
      var body := PrintItems(items, gap, inner);
      var open, close := Break(gap, inner), Break(gap, indent);
      PrintItemsStart(items, gap, inner);
      Bracketed(t, '[', open, body, close, ']', rest);
      ArrayDispatch(t);
      SkipSpaces(open, body + (close + ("]" + rest)));
      ArrayBody(items, gap, inner, close, rest);
    }
  }

  /** Regrouping the text of a bracketed array or object. */
  lemma Bracketed(t: string, o: char, open: string, body: string, close: string, c: char, rest: string)
    requires t == [o] + open + body + close + [c] + rest
    ensures t != [] && t[0] == o
    ensures t[1..] == open + (body + (close + ([c] + rest)))
    ensures open == [] && body == [] && close == [] ==> t[1..] == "" + ([c] + rest)
  {
  }

  lemma ArrayBody(items: seq<Json>, gap: string, inner: string, close: string, rest: string)
    requires items != [] && WellFormed(JArr(items)) && AllSpace(gap) && AllSpace(inner) && AllSpace(close)
    requires PrintItems(items, gap, inner) != [] && PrintItems(items, gap, inner)[0] != ']'
    requires !IsSpace(PrintItems(items, gap, inner)[0])
    ensures ParseArray(PrintItems(items, gap, inner) + (close + ("]" + rest))) == Some((JArr(items), rest))
    decreases items, 1
  {
    var body := PrintItems(items, gap, inner);
    var tail := close + ("]" + rest);
    var u := body + tail;
    assert u[0] == body[0];
    assert "" + body + tail == u;
    ElementsThenParse(items, gap, inner, "", [], close, rest);
    assert [] + items == items;
    ListOpen(u);
  }

  /** An array whose first element starts right after the `[`. */
  lemma ListOpen(u: string)
    requires u != [] && !IsSpace(u[0]) && u[0] != ']'
    ensures ParseArray(u) == ParseElements(u, [])
  {
  }

  lemma ObjectToken(fields: seq<Field>, gap: string, indent: string, rest: string)
    requires WellFormed(JObj(fields)) && AllSpace(gap) && AllSpace(indent)
    ensures ParseToken(Print(JObj(fields), gap, indent) + rest) == Some((JObj(fields), rest))
    decreases fields, 2
  {
    var t := Print(JObj(fields), gap, indent) + rest;
    if fields == [] {
      Bracketed(t, '{', "", "", "", '}', rest);
      ObjectDispatch(t);
      SkipSpaces("", "}" + rest);
    } else {
      var inner := indent + gap;
      BreakIsSpace(gap, indent);
      BreakIsSpace(gap, inner);
      var body := PrintFields(fields, gap, inner);
      var open, close := Break(gap, inner), Break(gap, indent);
      PrintFieldsStart(fields, gap, inner);
      Bracketed(t, '{', open, body, close, '}', rest);
      ObjectDispatch(t);
      SkipSpaces(open, body + (close + ("}" + rest)));
      ObjectBody(fields, gap, inner, close, rest);
    }
  }

  lemma ObjectBody(fields: seq<Field>, gap: string, inner: string, close: string, rest: string)
    requires fields != [] && WellFormed(JObj(fields)) && AllSpace(gap) && AllSpace(inner) && AllSpace(close)
    requires PrintFields(fields, gap, inner) != [] && PrintFields(fields, gap, inner)[0] == '"'
    ensures ParseObject(PrintFields(fields, gap, inner) + (close + ("}" + rest))) == Some((JObj(fields), rest))
    decreases fields, 1
  {
    var body := PrintFields(fields, gap, inner);
    var tail := close + ("}" + rest);
    var u := body + tail;
    assert u[0] == '"';
    assert "" + body + tail == u;
    MembersThenParse(fields, gap, inner, "", [], close, rest);
    assert [] + fields == fields;
    RecordOpen(u);
  }

  /** An object whose first member starts right after the `{`. */
  lemma RecordOpen(u: string)
    requires u != [] && u[0] == '"'
    ensures ParseObject(u) == ParseMembers(u, [])
  {
  }

  lemma PrintItemsStart(items: seq<Json>, gap: string, indent: string)
    requires items != []
    ensures PrintItems(items, gap, indent) != []
    ensures PrintItems(items, gap, indent)[0] == Print(items[0], gap, indent)[0]
    ensures !IsSpace(PrintItems(items, gap, indent)[0])
    ensures PrintItems(items, gap, indent)[0] != ']'
  {
    PrintStart(items[0], gap, indent);
    PrintNotClose(items[0], gap, indent);
  }

  lemma PrintNotClose(v: Json, gap: string, indent: string)
    ensures Print(v, gap, indent) != [] && Print(v, gap, indent)[0] != ']'
  {
    PrintStart(v, gap, indent);
    if v.JNum? && v.n >= 0 {
      assert Text.AllDigits(Text.NatToString(v.n));
    }
  }

  lemma PrintFieldsStart(fields: seq<Field>, gap: string, indent: string)
    requires fields != []
    ensures PrintFields(fields, gap, indent) != []
    ensures PrintFields(fields, gap, indent)[0] == '"'
  {
  }

  /** The elements of an array, printed and followed by white space `w`
      and `]`, are read back onto `acc`. */
  lemma {:induction false} ElementsThenParse(items: seq<Json>, gap: string, indent: string,
                                             lead: string, acc: seq<Json>, w: string, r: string)
    requires items != []
    requires forall i :: 0 <= i < |items| ==> WellFormed(items[i])
    requires AllSpace(gap) && AllSpace(indent) && AllSpace(lead) && AllSpace(w)
    ensures ParseElements(lead + PrintItems(items, gap, indent) + (w + ("]" + r)), acc)
         == Some((JArr(acc + items), r))
    decreases items, 0, 2
  {
    var tail := w + ("]" + r);
    var s := lead + PrintItems(items, gap, indent) + tail;
    CloseStart(w, ']', r);
    if |items| == 1 {
      PrintThenParse(items[0], gap, indent, lead, tail);
      SkipSpaces(w, "]" + r);
      ElementsStep(s, acc, items[0], tail);
      assert acc + [items[0]] == acc + items;
    } else {
      ElementsMore(items, gap, indent, lead, acc, w, r);
    }
  }

  /** The case of `ElementsThenParse` with at least two elements. */
  lemma {:induction false} ElementsMore(items: seq<Json>, gap: string, indent: string,
                                        lead: string, acc: seq<Json>, w: string, r: string)
    requires |items| >= 2
    requires forall i :: 0 <= i < |items| ==> WellFormed(items[i])
    requires AllSpace(gap) && AllSpace(indent) && AllSpace(lead) && AllSpace(w)
    ensures ParseElements(lead + PrintItems(items, gap, indent) + (w + ("]" + r)), acc)
         == Some((JArr(acc + items), r))
    decreases items, 0, 1
  {
    ElementsFirst(items, gap, indent, lead, acc, w + ("]" + r));
    BreakIsSpace(gap, indent);
    ElementsThenParse(items[1..], gap, indent, Break(gap, indent), acc + [items[0]], w, r);
    assert acc + [items[0]] + items[1..] == acc + items;
  }

  /** Reading the first of several elements and the comma after it. */
  lemma ElementsFirst(items: seq<Json>, gap: string, indent: string, lead: string, acc: seq<Json>, tail: string)
    requires |items| >= 2 && WellFormed(items[0])
    requires AllSpace(gap) && AllSpace(indent) && AllSpace(lead)
    ensures ParseElements(lead + PrintItems(items, gap, indent) + tail, acc)
         == ParseElements(Break(gap, indent) + PrintItems(items[1..], gap, indent) + tail, acc + [items[0]])
    decreases items, 0, 0
  {
    var s := lead + PrintItems(items, gap, indent) + tail;
    var first := Print(items[0], gap, indent);
    var b := Break(gap, indent);
    var more := PrintItems(items[1..], gap, indent);
    var after := "," + (b + more + tail);
    BreakIsSpace(gap, indent);
    Separated(lead, first, b, more, tail);
    CommaStart(b + more + tail);
    PrintThenParse(items[0], gap, indent, lead, after);
    SkipSpaces("", after);
    ElementsStep(s, acc, items[0], after);
  }

  /** A comma neither is white space nor extends a number. */
  lemma CommaStart(x: string)
    ensures ("," + x)[0] == ',' && !IsSpace(("," + x)[0]) && !Text.IsDigit(("," + x)[0])
  {
  }

  /** One step of reading array elements, after the value `v`. */
  lemma ElementsStep(s: string, acc: seq<Json>, v: Json, after: string)
    requires ParseValue(s) == Some((v, after))
    ensures var u := SkipSpace(after);
      && (u != [] && u[0] == ',' ==> ParseElements(s, acc) == ParseElements(u[1..], acc + [v]))
      && (u != [] && u[0] == ']' ==> ParseElements(s, acc) == Some((JArr(acc + [v]), u[1..])))
  {
  }

  /** What follows the last element or member starts with white space or
      the closing bracket, so it cannot extend a number. */
  lemma CloseStart(w: string, c: char, r: string)
    requires AllSpace(w) && !Text.IsDigit(c)
    ensures w + ([c] + r) != [] && !Text.IsDigit((w + ([c] + r))[0])
  {
    if w != [] {
      assert (w + ([c] + r))[0] == w[0];
    } else {
      assert w + ([c] + r) == [c] + r;
    }
  }

  /** Regrouping `first`, a comma, a break and the rest of a list. */
  lemma Separated(lead: string, first: string, b: string, more: string, tail: string)
    ensures lead + (first + "," + b + more) + tail == lead + first + ("," + (b + more + tail))
    ensures ("," + (b + more + tail))[0] == ','
    ensures ("," + (b + more + tail))[1..] == b + more + tail
    ensures "" + ("," + (b + more + tail)) == "," + (b + more + tail)
  {
    var q := "," + (b + more);
    Text.Associate(first, ",", b);
    Text.Associate(first, "," + b, more);
    Text.Associate(",", b, more);
    assert first + "," + b + more == first + q;
    Text.Associate(lead, first, q);
    Text.Associate(lead + first, q, tail);
    Text.Associate(",", b + more, tail);
    Text.Associate("", ",", b + more + tail);
  }

  /** The members of an object, printed and followed by white space `w`
      and `}`, are read back onto `acc`. */
  lemma {:induction false} MembersThenParse(fields: seq<Field>, gap: string, indent: string,
                                            lead: string, acc: seq<Field>, w: string, r: string)
    requires fields != []
    requires forall i :: 0 <= i < |fields| ==> WellFormed(fields[i].value)
    requires DistinctKeys(acc + fields)
    requires AllSpace(gap) && AllSpace(indent) && AllSpace(lead) && AllSpace(w)
    ensures ParseMembers(lead + PrintFields(fields, gap, indent) + (w + ("}" + r)), acc)
         == Some((JObj(acc + fields), r))
    decreases fields, 0, 2
  {
    var tail := w + ("}" + r);
    var s := lead + PrintFields(fields, gap, indent) + tail;
    var f := fields[0];
    CloseStart(w, '}', r);
    NewKey(acc, fields);
    if |fields| == 1 {
      MemberThenParse(f, gap, indent, lead, tail);
      SkipSpaces(w, "}" + r);
      MembersStep(s, acc, f, gap, indent, tail);
      assert acc + [f] == acc + fields;
    } else {
      MembersMore(fields, gap, indent, lead, acc, w, r);
    }
  }

  /** The case of `MembersThenParse` with at least two members. */
  lemma {:induction false} MembersMore(fields: seq<Field>, gap: string, indent: string,
                                       lead: string, acc: seq<Field>, w: string, r: string)
    requires |fields| >= 2
    requires forall i :: 0 <= i < |fields| ==> WellFormed(fields[i].value)
    requires DistinctKeys(acc + fields)
    requires AllSpace(gap) && AllSpace(indent) && AllSpace(lead) && AllSpace(w)
    ensures ParseMembers(lead + PrintFields(fields, gap, indent) + (w + ("}" + r)), acc)
         == Some((JObj(acc + fields), r))
    decreases fields, 0, 1
  {
    NewKey(acc, fields);
    MembersFirst(fields, gap, indent, lead, acc, w + ("}" + r));
    BreakIsSpace(gap, indent);
    MembersThenParse(fields[1..], gap, indent, Break(gap, indent), acc + [fields[0]], w, r);
  }

  /** Reading the first of several members and the comma after it. */
  lemma MembersFirst(fields: seq<Field>, gap: string, indent: string, lead: string, acc: seq<Field>, tail: string)
    requires |fields| >= 2 && WellFormed(fields[0].value)
    requires AllSpace(gap) && AllSpace(indent) && AllSpace(lead)
    ensures ParseMembers(lead + PrintFields(fields, gap, indent) + tail, acc)
         == ParseMembers(Break(gap, indent) + PrintFields(fields[1..], gap, indent) + tail,
                         Assign(acc, fields[0].key, fields[0].value))
    decreases fields, 0, 0
  {
    var s := lead + PrintFields(fields, gap, indent) + tail;
    var f := fields[0];
    var b := Break(gap, indent);
    var more := PrintFields(fields[1..], gap, indent);
    var after := "," + (b + more + tail);
    BreakIsSpace(gap, indent);
    Separated(lead, PrintField(f, gap, indent), b, more, tail);
    CommaStart(b + more + tail);
    MemberThenParse(f, gap, indent, lead, after);
    SkipSpaces("", after);
    MembersStep(s, acc, f, gap, indent, after);
  }

  /** One step of reading object members, once the member `f` has been read
      from `s` with `after` left over. */
  lemma MembersStep(s: string, acc: seq<Field>, f: Field, gap: string, indent: string, after: string)
    requires
      var t := SkipSpace(s);
      var afterKey := ":" + ((if gap == [] then "" else " ") + Print(f.value, gap, indent) + after);
      && t != [] && t[0] == '"'
      && ParseString(t[1..], []) == Some((f.key, afterKey))
      && SkipSpace(afterKey) == afterKey
      && ParseValue(afterKey[1..]) == Some((f.value, after))
    ensures var u := SkipSpace(after);
      && (u != [] && u[0] == ',' ==> ParseMembers(s, acc) == ParseMembers(u[1..], Assign(acc, f.key, f.value)))
      && (u != [] && u[0] == '}' ==> ParseMembers(s, acc) == Some((JObj(Assign(acc, f.key, f.value)), u[1..])))
  {
  }

  /** The first member is not yet among those read before it. */
  lemma NewKey(acc: seq<Field>, fields: seq<Field>)
    requires fields != [] && DistinctKeys(acc + fields)
    ensures Assign(acc, fields[0].key, fields[0].value) == acc + [fields[0]]
    ensures DistinctKeys(acc + [fields[0]] + fields[1..])
    ensures acc + [fields[0]] + fields[1..] == acc + fields
  {
    assert acc + [fields[0]] + fields[1..] == acc + fields;
    assert forall i :: 0 <= i < |acc| ==> (acc + fields)[i] == acc[i];
    assert (acc + fields)[|acc|] == fields[0];
  }

  /** One printed member: its name, the colon and its value are read back,
      and the text after the value is what is left. */
  lemma MemberThenParse(f: Field, gap: string, indent: string, lead: string, after: string)
    requires WellFormed(f.value) && AllSpace(gap) && AllSpace(indent) && AllSpace(lead)
    requires after == [] || !Text.IsDigit(after[0])
    ensures
      var t := SkipSpace(lead + PrintField(f, gap, indent) + after);
      var afterKey := ":" + ((if gap == [] then "" else " ") + Print(f.value, gap, indent) + after);
      && t != [] && t[0] == '"'
      && ParseString(t[1..], []) == Some((f.key, afterKey))
      && SkipSpace(afterKey) == afterKey
      && ParseValue(afterKey[1..]) == Some((f.value, after))
    decreases f.value, 3
  {
    var colon := if gap == [] then "" else " ";
    var value := Print(f.value, gap, indent);
    var afterKey := ":" + (colon + value + after);
    var e := Escape(f.key);
    KeyShape(lead, Quote(f.key), e, colon, value, after);
    SkipSpaces(lead, "\"" + (e + "\"" + afterKey));
    EscapedString(f.key, afterKey, []);
    assert [] + f.key == f.key;
    SkipSpaces("", afterKey);
    PrintThenParse(f.value, gap, indent, colon, after);
  }

  lemma KeyShape(lead: string, q: string, e: string, colon: string, value: string, after: string)
    requires q == "\"" + e + "\""
    ensures lead + (q + ":" + colon + value) + after
         == lead + ("\"" + (e + "\"" + (":" + (colon + value + after))))
    ensures ("\"" + (e + "\"" + (":" + (colon + value + after))))[0] == '"'
    ensures ("\"" + (e + "\"" + (":" + (colon + value + after))))[1..]
         == e + "\"" + (":" + (colon + value + after))
    ensures "" + (":" + (colon + value + after)) == ":" + (colon + value + after)
    ensures (":" + (colon + value + after))[1..] == colon + value + after
  {
  }
}
