/**
 * JSON-like configuration values, with the parts of JavaScript's value
 * semantics that the configuration code relies on: truthiness, property
 * access (`j.key`), and object spread (`{ ...j }`), which turns an array or a
 * string into an object keyed by the decimal text of each index.
 */
module JsonValue {
  import opened Optional

  datatype Json =
    | JNull
    | JBool(b: bool)
    | JNum(n: real)
    | JStr(s: string)
    | JArr(items: seq<Json>)
    | JObj(fields: map<string, Json>)

  /** JavaScript truthiness (NaN is not modelled). */
  predicate Truthy(j: Json)
  {
    match j
    case JNull => false
    case JBool(b) => b
    case JNum(n) => n != 0.0
    case JStr(s) => s != ""
    case JArr(_) => true
    case JObj(_) => true
  }

  /** Truthiness of a value that may be `undefined` (`None`). */
  predicate Present(o: Option<Json>)
  {
    o.Some? && Truthy(o.value)
  }

  /**
   * Property access `j.key` for a non-null `j`, for keys that are neither
   * array indices nor `length`: only an object has such own properties.
   */
  function Prop(j: Json, key: string): (r: Option<Json>)
    ensures r.Some? <==> j.JObj? && key in j.fields
    ensures r.Some? ==> r.value == j.fields[key]
  {
    if j.JObj? && key in j.fields then Some(j.fields[key]) else None
  }

  /** `typeof x === 'object' && x !== null`: an object or an array. */
  predicate IsObjectLike(j: Json)
  {
    j.JObj? || j.JArr?
  }

  /** The character for a decimal digit. */
  function Digit(d: nat): (c: char)
    requires d < 10
    ensures '0' <= c <= '9'
  {
    (48 + d) as char
  }

  /** The value of a decimal digit character (0 for any other character). */
  function DigitValue(c: char): (d: nat)
    ensures d < 10
  {
    if '0' <= c <= '9' then c as int - 48 else 0
  }

  /** The decimal text of a natural number, as JavaScript writes an array index. */
  function Decimal(n: nat): (s: string)
    ensures |s| >= 1
    ensures forall i :: 0 <= i < |s| ==> '0' <= s[i] <= '9'
  {
    if n < 10 then [Digit(n)] else Decimal(n / 10) + [Digit(n % 10)]
  }

  /** Reads decimal text back into a number. */
  function ParseDecimal(s: string): nat
  {
    if s == [] then 0 else ParseDecimal(s[..|s| - 1]) * 10 + DigitValue(s[|s| - 1])
  }

  lemma {:induction false} ParseDecimalInvertsDecimal(n: nat)
    ensures ParseDecimal(Decimal(n)) == n
  {
    if n >= 10 {
      var s := Decimal(n);
      assert s[..|s| - 1] == Decimal(n / 10);
      ParseDecimalInvertsDecimal(n / 10);
    }
  }

  /** Distinct indices have distinct decimal texts. */
  lemma DecimalInjective(a: nat, b: nat)
    requires a != b
    ensures Decimal(a) != Decimal(b)
  {
    ParseDecimalInvertsDecimal(a);
    ParseDecimalInvertsDecimal(b);
  }

  /** The own enumerable properties of `{ ...a }` for an array `a`. */
  function ArraySpread(items: seq<Json>): (m: map<string, Json>)
    ensures forall i :: 0 <= i < |items| ==> Decimal(i) in m && m[Decimal(i)] == items[i]
  {
    if items == [] then map[]
    else
      var n := |items| - 1;
      var prev := ArraySpread(items[..n]);
      var m := prev[Decimal(n) := items[n]];
      forall i | 0 <= i < n
        ensures Decimal(i) != Decimal(n)
      {
        DecimalInjective(i, n);
      }
      m
  }

  /** The decimal indices are the only keys of `{ ...a }`: no `length`, no other property. */
  lemma {:induction false} ArraySpreadKeys(items: seq<Json>, key: string)
    requires key in ArraySpread(items)
    ensures exists i :: 0 <= i < |items| && key == Decimal(i)
  {
    var n := |items| - 1;
    if key != Decimal(n) {
      ArraySpreadKeys(items[..n], key);
      var i :| 0 <= i < n && key == Decimal(i);
      assert 0 <= i < |items|;
    }
  }

  /**
   * The own enumerable properties of `{ ...j }` for an object or an array:
   * an object's fields, or an array's elements under their decimal indices.
   */
  function Spread(j: Json): (m: map<string, Json>)
    requires IsObjectLike(j)
    ensures j.JObj? ==> m == j.fields
    ensures j.JArr? ==> m == ArraySpread(j.items)
  {
    match j
    case JObj(fields) => fields
    case JArr(items) => ArraySpread(items)
  }
}
