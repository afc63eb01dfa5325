/**
 * The generic JSON value a magic comment parses to (serde_json's `Value`),
 * and the "truthiness" test that decides whether a configured key selects
 * a dynamic import (src/lib.rs:108-143).
 */
module Json {
  import opened Wrappers

  const I64Max: int := 0x7FFF_FFFF_FFFF_FFFF

  /**
   * serde_json keeps a number in one of three representations: a
   * non-negative integer (u64), a negative integer (i64) or a float (f64).
   * The float is abstracted as a real: JSON has no NaN or infinity.
   */
  datatype Number =
    | PosInt(u: nat)
    | NegInt(i: int)
    | Float(f: real)

  /** serde_json's `Number::as_i64`. */
  function AsI64(n: Number): Option<int> {
    match n
    case PosInt(u) => if u <= I64Max then Some(u) else None
    case NegInt(i) => Some(i)
    case Float(_) => None
  }

  /** serde_json's `Number::as_u64`. */
  function AsU64(n: Number): Option<nat> {
    match n
    case PosInt(u) => Some(u)
    case NegInt(_) => None
    case Float(_) => None
  }

  /** serde_json's `Number::as_f64`, always present without arbitrary precision. */
  function AsF64(n: Number): Option<real> {
    match n
    case PosInt(u) => Some(u as real)
    case NegInt(i) => Some(i as real)
    case Float(f) => Some(f)
  }

  /** The number's mathematical value. */
  function NumberValue(n: Number): real {
    match n
    case PosInt(u) => u as real
    case NegInt(i) => i as real
    case Float(f) => f
  }

  datatype Value =
    | Null
    | Bool(b: bool)
    | Num(n: Number)
    | String(s: string)
    | Array(items: seq<Value>)
    | Object(fields: map<string, Value>)

  /** The number test of src/lib.rs:116-124: any of the three views is non-zero. */
  predicate NumberTruthy(n: Number) {
    AsI64(n).GetOr(0) != 0 || AsF64(n).GetOr(0.0) != 0.0 || AsU64(n).GetOr(0) != 0
  }

  /** Whether a configured key's value selects the comment (src/lib.rs:111-140). */
  predicate Truthy(v: Value) {
    match v
    case Bool(b) => b
    case Num(n) => NumberTruthy(n)
    case String(s) => s != ""
    case Array(_) => true
    case Object(_) => true
    case Null => false
  }

  /** The key is present in the object and its value is truthy. */
  predicate KeyTruthy(fields: map<string, Value>, key: string) {
    key in fields && Truthy(fields[key])
  }

  /**
   * A parsed magic comment is kept when it is an object and at least one
   * configured key is truthy in it; a non-object is never kept.
   */
  predicate ShouldAdd(keys: set<string>, v: Value) {
    v.Object? && exists k :: k in keys && KeyTruthy(v.fields, k)
  }

  /** The three-way number test is exactly "the value is not zero". */
  lemma NumberTruthyIsNonZero(n: Number)
    ensures NumberTruthy(n) <==> NumberValue(n) != 0.0
  {
  }

  /**
   * The truthiness table: `true`, non-zero numbers, non-empty strings, arrays
   * and objects are truthy; `false`, zero, `""` and `null` are not.
   */
  lemma TruthyTable(v: Value)
    ensures v.Bool? ==> (Truthy(v) <==> v.b)
    ensures v.Num? ==> (Truthy(v) <==> NumberValue(v.n) != 0.0)
    ensures v.String? ==> (Truthy(v) <==> v.s != "")
    ensures v.Array? || v.Object? ==> Truthy(v)
    ensures v.Null? ==> !Truthy(v)
  {
  }

  /** A missing key is never truthy, whatever else the object holds. */
  lemma MissingKeyNotTruthy(fields: map<string, Value>, key: string)
    requires key !in fields
    ensures !KeyTruthy(fields, key)
  {
  }

  /** With no configured keys no comment is ever kept. */
  lemma NoKeysNeverAdds(v: Value)
    ensures !ShouldAdd({}, v)
  {
  }

  /** Only the configured keys matter: other entries never select a comment. */
  lemma ShouldAddOnlyConfiguredKeys(keys: set<string>, fields: map<string, Value>, extra: string, w: Value)
    requires extra !in keys
    ensures ShouldAdd(keys, Object(fields[extra := w])) <==> ShouldAdd(keys, Object(fields))
  {
  }
}
