/**
 * Upstream payloads as untyped JSON values, together with the handful of
 * JavaScript operations the adapters apply to them: property access (plain
 * and optional-chained), truthiness, `||`, `Object.values`, `String(v)`,
 * `parseFloat(v)` and strict equality with a literal.
 *
 * `JUndefined` stands for a property that is absent.  An object is the value
 * `JSON.parse` produced: its members are listed in the object's own property
 * order (integer-like keys first, ascending, then the others in insertion
 * order) with each key once, so `Object.values` lists them in that order and a
 * lookup finds the one member with the key.
 */
module JsonValues {
  import opened Wrappers
  import opened JsStrings
  import opened JsNumbers

  datatype Json =
    | JUndefined
    | JNull
    | JBool(b: bool)
    | JNum(n: Decimal)
    | JStr(s: string)
    | JArr(items: seq<Json>)
    | JObj(fields: seq<(string, Json)>)

  /** `v == null`: the values on which a plain property access throws a TypeError. */
  predicate Nullish(v: Json) {
    v.JUndefined? || v.JNull?
  }

  /** JavaScript truthiness. */
  predicate Truthy(v: Json) {
    match v
    case JUndefined => false
    case JNull => false
    case JBool(b) => b
    case JNum(n) => n.mantissa != 0
    case JStr(s) => |s| > 0
    case JArr(_) => true
    case JObj(_) => true
  }

  /** The value of the first member named `key`, or `undefined`. */
  function Lookup(fields: seq<(string, Json)>, key: string): (r: Json)
    ensures r == JUndefined || exists i :: 0 <= i < |fields| && fields[i] == (key, r)
    ensures (forall i :: 0 <= i < |fields| ==> fields[i].0 != key) ==> r == JUndefined
  {
    if |fields| == 0 then JUndefined
    else if fields[0].0 == key then fields[0].1
    else
      var r := Lookup(fields[1..], key);
      assert r != JUndefined ==> exists i :: 0 <= i < |fields[1..]| && fields[1..][i] == (key, r);
      assert r != JUndefined ==> exists i :: 0 <= i < |fields| && fields[i] == (key, r) by {
        if r != JUndefined {
          var i :| 0 <= i < |fields[1..]| && fields[1..][i] == (key, r);
          assert fields[i + 1] == (key, r);
        }
      }
      r
  }

  /**
   * `v?.key`, and `v.key` once `v` is known not to be nullish: a member of an
   * object, `undefined` for every other value.
   */
  function Get(v: Json, key: string): Json {
    if v.JObj? then Lookup(v.fields, key) else JUndefined
  }

  /** `v?.[0]`. */
  function Index0(v: Json): Json {
    match v
    case JArr(items) => if |items| > 0 then items[0] else JUndefined
    case JStr(s) => if |s| > 0 then JStr([s[0]]) else JUndefined
    case JObj(fields) => Lookup(fields, "0")
    case _ => JUndefined
  }

  /** `a || b`. */
  function Or(a: Json, b: Json): (r: Json)
    ensures Truthy(a) ==> r == a
    ensures !Truthy(a) ==> r == b
  {
    if Truthy(a) then a else b
  }

  /** `a || b` is truthy exactly when one of its operands is, and is one of them. */
  lemma OrTruthy(a: Json, b: Json)
    ensures Truthy(Or(a, b)) <==> Truthy(a) || Truthy(b)
    ensures Or(a, b) == a || Or(a, b) == b
  {
  }

  /** `Object.values(v)`. */
  function Values(v: Json): (r: seq<Json>)
    ensures v.JObj? ==> |r| == |v.fields| && forall i :: 0 <= i < |r| ==> r[i] == v.fields[i].1
    ensures v.JArr? ==> r == v.items
    ensures v.JStr? ==> |r| == |v.s| && forall i :: 0 <= i < |r| ==> r[i] == JStr([v.s[i]])
    ensures !v.JObj? && !v.JArr? && !v.JStr? ==> r == []
  {
    match v
    case JObj(fields) => seq(|fields|, i requires 0 <= i < |fields| => fields[i].1)
    case JArr(items) => items
    case JStr(s) => seq(|s|, i requires 0 <= i < |s| => JStr([s[i]]))
    case _ => []
  }

  /** `String(v)`; inside an array, `null` and `undefined` print as the empty string. */
  function ToJsString(v: Json): string
    decreases v
  {
    match v
    case JUndefined => "undefined"
    case JNull => "null"
    case JBool(b) => if b then "true" else "false"
    case JNum(n) => DecimalToString(n)
    case JStr(s) => s
    case JArr(items) =>
      Join(seq(|items|, i requires 0 <= i < |items| =>
        if Nullish(items[i]) then "" else ToJsString(items[i])), ",")
    case JObj(_) => "[object Object]"
  }

  /** A JSON number as a JavaScript number. */
  function NumberOf(d: Decimal): Number {
    Fin(Value(d))
  }

  /**
   * `parseFloat(v)`, which reads the numeral at the start of `String(v)`; a
   * JSON number reads back as itself (`ParseFloatOfIsParseFloatOfString`).
   */
  function ParseFloatOf(v: Json): Number {
    if v.JNum? then NumberOf(v.n) else ParseFloat(ToJsString(v))
  }

  /** `v === k` for an integer literal `k`. */
  predicate IsNumber(v: Json, k: int) {
    v.JNum? && Value(v.n) == k as real
  }

  /** A truthy number: neither `NaN` nor `0`. */
  predicate NonZero(x: Number) {
    x.Fin? && x.r != 0.0
  }

  /** `x || fallback` on numbers. */
  function NumberOr(x: Number, fallback: Number): (r: Number)
    ensures NonZero(x) ==> r == x
    ensures !NonZero(x) ==> r == fallback
  {
    if NonZero(x) then x else fallback
  }

  /** With a non-zero fallback, `x || fallback` is never zero or `NaN`. */
  lemma NumberOrNonZero(x: Number, fallback: Number)
    requires NonZero(fallback)
    ensures NonZero(NumberOr(x, fallback))
    ensures NumberOr(x, fallback) == x || NumberOr(x, fallback) == fallback
  {
  }

  /** `!isNaN(x) && x > 0`. */
  predicate Positive(x: Number) {
    x.Fin? && x.r > 0.0
  }

  // ---- what parseFloat makes of the values the adapters meet ----

  /** Reading a JSON number directly is what `parseFloat(String(v))` does. */
  lemma ParseFloatOfIsParseFloatOfString(v: Json)
    ensures ParseFloatOf(v) == ParseFloat(ToJsString(v))
  {
    if v.JNum? {
      ParseFloatDecimalToString(v.n);
    }
  }

  /** A value whose `String` form starts with a letter that is not white space reads as `NaN`. */
  lemma ParseFloatOfWord(v: Json)
    requires v.JUndefined? || v.JNull? || v.JBool? || v.JObj?
    ensures ParseFloatOf(v) == NaN
  {
    var s := ToJsString(v);
    assert |s| > 0 && !IsSpace(s[0]) && !IsDigit(s[0]) && s[0] != '-' && s[0] != '+' && s[0] != '.';
    ParseFloatLeadingJunk(s);
  }
}
