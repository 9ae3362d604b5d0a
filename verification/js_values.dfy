/** The loosely typed JavaScript values a request carries where the query builder expects numbers. */
module JsValues {
  import opened Wrappers
  import opened JsNumbers

  /** A JavaScript primitive value (objects and arrays are not modelled here). */
  datatype Value = Undefined | Null | Boolean(b: bool) | Text(s: string) | Numeric(n: Num)

  /** `Number(v)`. */
  function ToNumber(v: Value): Num
  {
    match v
    case Undefined => NaN
    case Null => Finite(0.0)
    case Boolean(b) => Finite(if b then 1.0 else 0.0)
    case Text(s) => StringToNumber(s)
    case Numeric(n) => n
  }

  /** `isNaN(v)`: the value does not convert to a number. */
  predicate IsNaN(v: Value)
  {
    ToNumber(v).NaN?
  }

  /** `!v`: the falsy values are undefined, null, false, the empty string, zero and NaN. */
  predicate Falsy(v: Value)
  {
    match v
    case Undefined => true
    case Null => true
    case Boolean(b) => !b
    case Text(s) => s == []
    case Numeric(n) => n == NaN || n == Finite(0.0)
  }

  /** `v === 0` (negative zero included, since it compares equal). */
  predicate IsZero(v: Value)
  {
    v == Numeric(Finite(0.0))
  }

  /** `n >= len` for a number and an array length; false for NaN. */
  predicate AtLeast(n: Num, len: nat)
  {
    match n
    case NaN => false
    case Finite(r) => r >= len as real
    case Infinity(negative) => !negative
  }

  /** The array position a number names, if it is a non-negative integer; other numbers name no element. */
  function AsIndex(n: Num): (r: Option<nat>)
    ensures r.Some? <==> n.Finite? && n.r >= 0.0 && n.r == n.r.Floor as real
    ensures r.Some? ==> n == Finite(r.value as real)
  {
    if n.Finite? && n.r >= 0.0 && n.r == n.r.Floor as real then Some(n.r.Floor) else None
  }
}
