/**
  String helpers that the portfolio code takes from JavaScript's String
  methods: decimal numerals (`${n}`), the `\s` whitespace class, `trim`,
  `split(/\s+/)`, `replace(/\s+/g, "_")`, `toUpperCase` and `join`.
 */
module Text {

  // ---------------------------------------------------------------------
  // Decimal numerals
  // ---------------------------------------------------------------------

  predicate IsDigit(c: char) {
    '0' <= c <= '9'
  }

  function DigitChar(d: nat): (c: char)
    requires d < 10
    ensures IsDigit(c)
  {
    ['0', '1', '2', '3', '4', '5', '6', '7', '8', '9'][d]
  }

  function DigitValue(c: char): (d: nat)
    requires IsDigit(c)
    ensures d < 10 && DigitChar(d) == c
  {
    (c as int - '0' as int) as nat
  }

  predicate AllDigits(s: string) {
    forall i :: 0 <= i < |s| ==> IsDigit(s[i])
  }

  /** The value of a string of decimal digits, read most significant first. */
  function DigitsValue(s: string): nat
    requires AllDigits(s)
  {
    if s == [] then 0 else DigitsValue(s[..|s| - 1]) * 10 + DigitValue(s[|s| - 1])
  }

  /** `${n}` for a non-negative integer: its shortest decimal numeral. */
  function NatToString(n: nat): (r: string)
    ensures r != [] && AllDigits(r)
    ensures DigitsValue(r) == n
    ensures r[0] == '0' ==> r == "0"
  {
    if n < 10 then [DigitChar(n)]
    else
      var prefix := NatToString(n / 10);
      var r := prefix + [DigitChar(n % 10)];
      assert r[..|r| - 1] == prefix;
      r
  }

  /** `${n}` for any integer. */
  function IntToString(n: int): (r: string)
    ensures r != []
    ensures n >= 0 ==> r == NatToString(n)
    ensures n < 0 ==> r == "-" + NatToString(-n)
  {
    if n < 0 then "-" + NatToString(-n) else NatToString(n)
  }

  // ---------------------------------------------------------------------
  // Whitespace: the characters matched by `\s` and removed by `trim`
  // ---------------------------------------------------------------------

  predicate IsWhitespace(c: char) {
    || c == '\t' || c == '\n' || c == '\U{000B}' || c == '\U{000C}' || c == '\r' || c == ' '
    || c == '\U{00A0}' || c == '\U{1680}' || ('\U{2000}' <= c <= '\U{200A}')
    || c == '\U{2028}' || c == '\U{2029}' || c == '\U{202F}' || c == '\U{205F}'
    || c == '\U{3000}' || c == '\U{FEFF}'
  }

  predicate NoWhitespace(s: string) {
    forall i :: 0 <= i < |s| ==> !IsWhitespace(s[i])
  }

  predicate AllWhitespace(s: string) {
    forall i :: 0 <= i < |s| ==> IsWhitespace(s[i])
  }

  /** The string without its leading run of whitespace. */
  function DropWhitespace(s: string): (r: string)
    ensures |r| <= |s| && r == s[|s| - |r|..]
    ensures AllWhitespace(s[..|s| - |r|])
    ensures r == [] || !IsWhitespace(r[0])
  {
    if s != [] && IsWhitespace(s[0]) then
      var r := DropWhitespace(s[1..]);
      assert s[..|s| - |r|] == [s[0]] + s[1..][..|s| - 1 - |r|];
      r
    else s
  }

  /** The length of the longest prefix without whitespace. */
  function WordLength(s: string): (k: nat)
    ensures k <= |s| && NoWhitespace(s[..k])
    ensures k < |s| ==> IsWhitespace(s[k])
  {
    if s == [] || IsWhitespace(s[0]) then 0
    else
      var k := 1 + WordLength(s[1..]);
      assert s[..k] == [s[0]] + s[1..][..k - 1];
      k
  }

  /** `s.replace(/\s+/g, "_")`: every maximal run of whitespace becomes one underscore. */
  function ReplaceWhitespaceRuns(s: string): (r: string)
    ensures |r| <= |s|
    ensures NoWhitespace(r)
  {
    ReplaceRunsFrom(s, false)
  }

  /** The replacement scanning left to right; `inRun` says whether the
      previous character was whitespace (its underscore is already out). */
  function ReplaceRunsFrom(s: string, inRun: bool): (r: string)
    ensures |r| <= |s|
    ensures NoWhitespace(r)
  {
    if s == [] then []
    else if IsWhitespace(s[0]) then
      (if inRun then [] else "_") + ReplaceRunsFrom(s[1..], true)
    else [s[0]] + ReplaceRunsFrom(s[1..], false)
  }

  /** `s.trim()`: the middle of `s` left once the whitespace at both of
      its ends is cut off. */
  function Trim(s: string): (r: string)
    ensures r == [] || (!IsWhitespace(r[0]) && !IsWhitespace(r[|r| - 1]))
    ensures exists i, j :: 0 <= i <= j <= |s| && r == s[i..j] && AllWhitespace(s[..i]) && AllWhitespace(s[j..])
  {
    var d := DropWhitespace(s);
    var r := TrimEnd(d);
    Middle(s, d, r);
    r
  }

  /** A prefix `r` of a suffix `d` of `s`, with only whitespace cut off at
      each end, is a slice of `s` with only whitespace around it. */
  lemma Middle(s: string, d: string, r: string)
    requires |d| <= |s| && d == s[|s| - |d|..] && AllWhitespace(s[..|s| - |d|])
    requires |r| <= |d| && r == d[..|r|] && AllWhitespace(d[|r|..])
    ensures exists i, j :: 0 <= i <= j <= |s| && r == s[i..j] && AllWhitespace(s[..i]) && AllWhitespace(s[j..])
  {
    var i := |s| - |d|;
    assert s[i..i + |r|] == r;
    assert s[i + |r|..] == d[|r|..];
  }

  /** `s` without its trailing run of whitespace (the second half of `trim`). */
  function TrimEnd(s: string): (r: string)
    ensures |r| <= |s| && r == s[..|r|]
    ensures AllWhitespace(s[|r|..])
    ensures r == [] || !IsWhitespace(r[|r| - 1])
    ensures s != [] && !IsWhitespace(s[0]) ==> r != [] && r[0] == s[0]
  {
    if s != [] && IsWhitespace(s[|s| - 1]) then
      var r := TrimEnd(s[..|s| - 1]);
      assert s[|r|..] == s[..|s| - 1][|r|..] + [s[|s| - 1]];
      r
    else s
  }

  /** `s.split(/\s+/)`. */
  function Words(s: string): (ws: seq<string>)
    ensures ws != []
    decreases |s|
  {
    var k := WordLength(s);
    if k == |s| then [s]
    else [s[..k]] + Words(DropWhitespace(s[k + 1..]))
  }

  /** `toUpperCase` on one character (letters a-z only). */
  function UpperChar(c: char): (u: char)
    ensures IsWhitespace(u) <==> IsWhitespace(c)
  {
    if 'a' <= c <= 'z' then (c as int - 32) as char else c
  }

  /** `s.toUpperCase()` (letters a-z only). */
  function ToUpper(s: string): (r: string)
    ensures |r| == |s| && forall i :: 0 <= i < |s| ==> r[i] == UpperChar(s[i])
  {
    if s == [] then [] else [UpperChar(s[0])] + ToUpper(s[1..])
  }

  /** `xs.join(sep)`. */
  function Join(xs: seq<string>, sep: string): string {
    if xs == [] then ""
    else if |xs| == 1 then xs[0]
    else xs[0] + sep + Join(xs[1..], sep)
  }

  // ---------------------------------------------------------------------
  // Properties
  // ---------------------------------------------------------------------

  /** A string without whitespace is left alone by the replacement. */
  lemma ReplaceKeepsPlainText(s: string)
    requires NoWhitespace(s)
    ensures ReplaceWhitespaceRuns(s) == s
  {
    PlainTextUnchanged(s);
  }

  lemma {:induction false} PlainTextUnchanged(s: string)
    requires NoWhitespace(s)
    ensures ReplaceRunsFrom(s, false) == s
  {
    if s != [] {
      assert !IsWhitespace(s[0]);
      PlainTextUnchanged(s[1..]);
      assert s == [s[0]] + s[1..];
    }
  }

  /** Only the empty string is replaced by the empty string. */
  lemma ReplaceNonEmpty(s: string)
    requires s != []
    ensures ReplaceWhitespaceRuns(s) != []
  {
    ScanStep(s, false);
  }

  /** Replacing twice is replacing once. */
  lemma ReplaceIsIdempotent(s: string)
    ensures ReplaceWhitespaceRuns(ReplaceWhitespaceRuns(s)) == ReplaceWhitespaceRuns(s)
  {
    ReplaceKeepsPlainText(ReplaceWhitespaceRuns(s));
  }

  /** A run of whitespace between two pieces of text becomes exactly one
      underscore, and the text on either side is replaced independently. */
  lemma ReplaceSplitsAtRun(a: string, w: string, b: string)
    requires w != [] && AllWhitespace(w)
    requires a == [] || !IsWhitespace(a[|a| - 1])
    requires b == [] || !IsWhitespace(b[0])
    ensures ReplaceWhitespaceRuns(a + w + b)
         == ReplaceWhitespaceRuns(a) + "_" + ReplaceWhitespaceRuns(b)
  {
    var rest := w + b;
    assert a + w + b == a + rest;
    RunStart(w, b);
    if a != [] {
      ReplaceAfterText(a, rest, false);
    } else {
      assert a + rest == rest;
    }
    Associate(ReplaceWhitespaceRuns(a), "_", ReplaceWhitespaceRuns(b));
  }

  /** A run of whitespace at the start becomes one underscore. */
  lemma RunStart(w: string, b: string)
    requires w != [] && AllWhitespace(w)
    requires b == [] || !IsWhitespace(b[0])
    ensures ReplaceRunsFrom(w + b, false) == "_" + ReplaceRunsFrom(b, false)
  {
    assert (w + b)[0] == w[0] && (w + b)[1..] == w[1..] + b;
    ReplaceInsideRun(w[1..], b);
    ReplaceAfterRunStart(b);
  }

  lemma Associate(x: string, y: string, z: string)
    ensures x + (y + z) == x + y + z
  {
  }

  /** Two words separated by one space are joined by an underscore. */
  lemma JoinWords(first: string, last: string)
    requires first != [] && NoWhitespace(first)
    requires last != [] && NoWhitespace(last)
    ensures ReplaceWhitespaceRuns(first + " " + last) == first + "_" + last
  {
    assert AllWhitespace(" ");
    ReplaceSplitsAtRun(first, " ", last);
    ReplaceKeepsPlainText(first);
    ReplaceKeepsPlainText(last);
  }

  /** Text that ends with a non-whitespace character leaves the scan outside
      a run, so what follows it is replaced on its own. */
  lemma {:induction false} ReplaceAfterText(a: string, c: string, inRun: bool)
    requires a != [] && !IsWhitespace(a[|a| - 1])
    ensures ReplaceRunsFrom(a + c, inRun) == ReplaceRunsFrom(a, inRun) + ReplaceRunsFrom(c, false)
    decreases |a|
  {
    var ws := IsWhitespace(a[0]);
    var head := if ws then (if inRun then [] else "_") else [a[0]];
    assert (a + c)[0] == a[0] && (a + c)[1..] == a[1..] + c;
    ScanStep(a + c, inRun);
    ScanStep(a, inRun);
    if |a| == 1 {
      assert a[1..] + c == c && a[1..] == [];
    } else {
      ReplaceAfterText(a[1..], c, ws);
      Associate(head, ReplaceRunsFrom(a[1..], ws), ReplaceRunsFrom(c, false));
    }
  }

  /** One step of the scan: the first character's output, then the rest. */
  lemma ScanStep(s: string, inRun: bool)
    requires s != []
    ensures ReplaceRunsFrom(s, inRun)
         == (if IsWhitespace(s[0]) then (if inRun then [] else "_") else [s[0]]) + ReplaceRunsFrom(s[1..], IsWhitespace(s[0]))
  {
  }

  /** Inside a run, further whitespace adds nothing. */
  lemma {:induction false} ReplaceInsideRun(w: string, b: string)
    requires AllWhitespace(w)
    ensures ReplaceRunsFrom(w + b, true) == ReplaceRunsFrom(b, true)
    decreases |w|
  {
    if w == [] {
      assert w + b == b;
    } else {
      assert (w + b)[0] == w[0] && (w + b)[1..] == w[1..] + b;
      ReplaceInsideRun(w[1..], b);
    }
  }

  /** A run ends where the text starts, so the flag no longer matters. */
  lemma ReplaceAfterRunStart(b: string)
    requires b == [] || !IsWhitespace(b[0])
    ensures ReplaceRunsFrom(b, true) == ReplaceRunsFrom(b, false)
  {
  }

  /** Dropping a whitespace run in front of a string that starts with a
      non-whitespace character yields that string. */
  lemma {:induction false} DropRun(w: string, b: string)
    requires AllWhitespace(w)
    requires b == [] || !IsWhitespace(b[0])
    ensures DropWhitespace(w + b) == b
    decreases |w|
  {
    if w != [] {
      assert (w + b)[1..] == w[1..] + b;
      DropRun(w[1..], b);
    } else {
      assert w + b == b;
    }
  }

  /** A word, a run of whitespace and another word split into the two words. */
  lemma {:induction false} TwoWords(first: string, w: string, last: string)
    requires first != [] && NoWhitespace(first)
    requires w != [] && AllWhitespace(w)
    requires last != [] && NoWhitespace(last)
    ensures Words(first + w + last) == [first, last]
  {
    var s := first + w + last;
    WordOf(first, w + last);
    assert s == first + (w + last);
    var k := |first|;
    assert s[k + 1..] == w[1..] + last;
    DropRun(w[1..], last);
    WordOf(last, []);
    assert last + [] == last;
  }

  /** The first word of `a + c`, where `c` is empty or starts with whitespace. */
  lemma {:induction false} WordOf(a: string, c: string)
    requires NoWhitespace(a)
    requires c == [] || IsWhitespace(c[0])
    ensures WordLength(a + c) == |a|
    ensures (a + c)[..|a|] == a
    decreases |a|
  {
    if a == [] {
      assert a + c == c;
    } else {
      assert (a + c)[1..] == a[1..] + c;
      WordOf(a[1..], c);
    }
  }

  /** Upper-casing leaves no lower-case ASCII letter. */
  lemma UpperNoLower(s: string)
    ensures forall i :: 0 <= i < |ToUpper(s)| ==> !('a' <= ToUpper(s)[i] <= 'z')
  {
    forall i | 0 <= i < |s|
      ensures !('a' <= ToUpper(s)[i] <= 'z')
    {
      assert ToUpper(s)[i] == UpperChar(s[i]);
    }
  }

  /** Trimming a string that neither starts nor ends with whitespace keeps it. */
  lemma TrimKeeps(s: string)
    requires s == [] || (!IsWhitespace(s[0]) && !IsWhitespace(s[|s| - 1]))
    ensures Trim(s) == s
  {
  }
}
