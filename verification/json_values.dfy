/**
  JSON documents as the portfolio code sees them once parsed, together with
  the few JavaScript and Python operations the code applies to them:
  property reads (`v.key`, `v?.key`), property assignment, truthiness,
  `String(v)`, and `Array.isArray`.

  Numbers are integers (the documents the site handles carry only integer
  levels); objects keep their members in insertion order, as JavaScript
  and Python both do.
 */
module JsonValues {
  import Text

  datatype Option<T> = None | Some(value: T)

  datatype Json =
    | JNull
    | JBool(b: bool)
    | JNum(n: int)
    | JStr(s: string)
    | JArr(items: seq<Json>)
    | JObj(fields: seq<Field>)

  datatype Field = Field(key: string, value: Json)

  /** An exception. The JavaScript engine's own errors (a TypeError from
      reading a property of null, a SyntaxError from JSON.parse) carry a
      message the engine chooses; errors the code throws carry its text. */
  datatype Failure = EngineError | Raised(message: string)

  datatype Result<T> = Ok(value: T) | Err(failure: Failure)

  /** `err.message`, where the engine's text is supplied by the caller. */
  function MessageOf(f: Failure, engineMessage: string): string {
    match f
    case EngineError => engineMessage
    case Raised(m) => m
  }

  // ---------------------------------------------------------------------
  // Objects
  // ---------------------------------------------------------------------

  predicate DistinctKeys(fields: seq<Field>) {
    forall i, j :: 0 <= i < j < |fields| ==> fields[i].key != fields[j].key
  }

  predicate HasKey(fields: seq<Field>, key: string) {
    exists i :: 0 <= i < |fields| && fields[i].key == key
  }

  /** Every object inside the document has distinct member names, as every
      value produced by JSON.parse or built by an object literal does. */
  predicate WellFormed(j: Json) {
    match j
    case JArr(items) => forall i :: 0 <= i < |items| ==> WellFormed(items[i])
    case JObj(fields) =>
      DistinctKeys(fields) && forall i :: 0 <= i < |fields| ==> WellFormed(fields[i].value)
    case _ => true
  }

  /** The value of member `key`; with repeated names the last one wins. */
  function Lookup(fields: seq<Field>, key: string): (r: Option<Json>)
    ensures r.None? <==> !HasKey(fields, key)
    ensures r.Some? ==> exists i :: 0 <= i < |fields| && fields[i] == Field(key, r.value)
  {
    if fields == [] then None
    else if fields[|fields| - 1].key == key then Some(fields[|fields| - 1].value)
    else
      var r := Lookup(fields[..|fields| - 1], key);
      assert HasKey(fields, key) ==> HasKey(fields[..|fields| - 1], key) by {
        if HasKey(fields, key) {
          var i :| 0 <= i < |fields| && fields[i].key == key;
          assert i < |fields| - 1 && fields[..|fields| - 1][i].key == key;
        }
      }
      r
  }

  /** Member `key` of an object in which it occurs exactly at position `i`. */
  lemma {:induction false} LookupDistinct(fields: seq<Field>, i: nat)
    requires DistinctKeys(fields) && i < |fields|
    ensures Lookup(fields, fields[i].key) == Some(fields[i].value)
  {
    if i < |fields| - 1 {
      assert fields[..|fields| - 1][i] == fields[i];
      LookupDistinct(fields[..|fields| - 1], i);
    }
  }

  /** Every member named `key` given the value `value`. */
  function Replace(fields: seq<Field>, key: string, value: Json): (r: seq<Field>)
    ensures |r| == |fields|
    ensures forall i :: 0 <= i < |fields| ==> r[i] == if fields[i].key == key then Field(key, value) else fields[i]
  {
    seq(|fields|, i requires 0 <= i < |fields| =>
      if fields[i].key == key then Field(key, value) else fields[i])
  }

  /** `obj.key = value`: the member keeps its position when it exists and
      is added at the end otherwise. */
  function Assign(fields: seq<Field>, key: string, value: Json): (r: seq<Field>)
    ensures HasKey(fields, key) ==> |r| == |fields|
    ensures !HasKey(fields, key) ==> r == fields + [Field(key, value)]
    ensures forall i :: 0 <= i < |fields| && fields[i].key != key ==> r[i] == fields[i]
    ensures forall i :: 0 <= i < |fields| && fields[i].key == key ==> r[i] == Field(key, value)
  {
    if HasKey(fields, key) then Replace(fields, key, value)
    else fields + [Field(key, value)]
  }

  lemma {:induction false} ReplaceThenLookup(fields: seq<Field>, key: string, value: Json, other: string)
    ensures HasKey(fields, key) ==> Lookup(Replace(fields, key, value), key) == Some(value)
    ensures other != key ==> Lookup(Replace(fields, key, value), other) == Lookup(fields, other)
  {
    if fields != [] {
      var n := |fields|;
      var r := Replace(fields, key, value);
      var front := fields[..n - 1];
      assert r[..n - 1] == Replace(front, key, value);
      ReplaceThenLookup(front, key, value, other);
      if fields[n - 1].key != key && HasKey(fields, key) {
        var i :| 0 <= i < n && fields[i].key == key;
        assert front[i].key == key;
      }
    }
  }

  /** After `obj.key = value`, `obj.key` is `value` and every other member
      reads as before; distinct names stay distinct. */
  lemma AssignThenLookup(fields: seq<Field>, key: string, value: Json, other: string)
    ensures DistinctKeys(fields) ==> DistinctKeys(Assign(fields, key, value))
    ensures Lookup(Assign(fields, key, value), key) == Some(value)
    ensures other != key ==> Lookup(Assign(fields, key, value), other) == Lookup(fields, other)
  {
    var r := Assign(fields, key, value);
    if HasKey(fields, key) {
      ReplaceThenLookup(fields, key, value, other);
    } else {
      assert r[..|fields|] == fields;
    }
    if DistinctKeys(fields) {
      assert forall i :: 0 <= i < |r| ==> r[i].key == if i < |fields| then fields[i].key else key;
    }
  }

  // ---------------------------------------------------------------------
  // Property access
  // ---------------------------------------------------------------------

  /** The own data member `key` of a value: objects have members; strings,
      numbers, booleans and arrays have none of the names the site reads. */
  function Member(v: Json, key: string): Option<Json> {
    if v.JObj? then Lookup(v.fields, key) else None
  }

  /** JavaScript's `v.key`, where `v` may be `undefined` (None):
      reading a property of `undefined` or `null` throws a TypeError. */
  function Get(v: Option<Json>, key: string): (r: Result<Option<Json>>)
    ensures r.Err? <==> (v == None || v == Some(JNull))
  {
    if v == None || v == Some(JNull) then Err(EngineError) else Ok(Member(v.value, key))
  }

  /** JavaScript's `v?.key`: `undefined` when `v` is `undefined` or `null`. */
  function OptGet(v: Option<Json>, key: string): (r: Option<Json>)
    ensures Get(v, key).Ok? ==> r == Get(v, key).value
    ensures Get(v, key).Err? ==> r == None
  {
    if v == None || v == Some(JNull) then None else Member(v.value, key)
  }

  // ---------------------------------------------------------------------
  // Truthiness and text
  // ---------------------------------------------------------------------

  /** JavaScript truthiness (`undefined` is None): only null, false, 0 and
      the empty string are falsy among JSON values. */
  predicate Truthy(v: Option<Json>) {
    match v
    case None => false
    case Some(j) =>
      match j
      case JNull => false
      case JBool(b) => b
      case JNum(n) => n != 0
      case JStr(s) => s != []
      case _ => true
  }

  /** Python truthiness: empty lists and dicts are falsy too. */
  predicate PyTruthy(v: Json) {
    match v
    case JNull => false
    case JBool(b) => b
    case JNum(n) => n != 0
    case JStr(s) => s != []
    case JArr(items) => items != []
    case JObj(fields) => fields != []
  }

  predicate IsArray(v: Option<Json>) {
    v.Some? && v.value.JArr?
  }

  /** JavaScript's `String(v)`, which template literals and `join` apply:
      an array joins its elements with commas, writing null as nothing. */
  function Display(v: Json): string {
    match v
    case JNull => "null"
    case JBool(b) => if b then "true" else "false"
    case JNum(n) => Text.IntToString(n)
    case JStr(s) => s
    case JArr(items) => DisplayItems(items, ",")
    case JObj(_) => "[object Object]"
  }

  /** `items.join(sep)`. */
  function DisplayItems(items: seq<Json>, sep: string): string {
    if items == [] then ""
    else
      var first := if items[0] == JNull then "" else Display(items[0]);
      if |items| == 1 then first else first + sep + DisplayItems(items[1..], sep)
  }

  /** `String(v)` where `v` may be `undefined`. */
  function DisplayOpt(v: Option<Json>): string {
    if v.None? then "undefined" else Display(v.value)
  }

  /** `a || b` on values, where `b` is a string. */
  function OrText(v: Option<Json>, fallback: string): (r: string)
    ensures Truthy(v) ==> r == Display(v.value)
    ensures !Truthy(v) ==> r == fallback
  {
    if Truthy(v) then Display(v.value) else fallback
  }

  /** A JavaScript string array as a JSON array. */
  function Strings(xs: seq<string>): (r: Json)
    ensures r.JArr? && |r.items| == |xs|
    ensures forall i :: 0 <= i < |xs| ==> r.items[i] == JStr(xs[i])
  {
    JArr(seq(|xs|, i requires 0 <= i < |xs| => JStr(xs[i])))
  }

  /** Joining an array of strings is joining the strings. */
  lemma {:induction false} DisplayStringItems(xs: seq<string>, sep: string)
    ensures DisplayItems(Strings(xs).items, sep) == Text.Join(xs, sep)
  {
    var items := Strings(xs).items;
    if |xs| > 1 {
      DisplayStringItems(xs[1..], sep);
      assert items[1..] == Strings(xs[1..]).items;
    }
  }
}
