/** Decoded JSON values, as Python's `json` module returns them. */
module Json {

  import opened Numbers

  datatype Value =
    | Null
    | Bool(b: bool)
    | Int(i: int)
    | Real(r: real)
    | Str(s: string)
    | Arr(items: seq<Value>)
    | Obj(fields: map<string, Value>)

  /** A decoded JSON object (a Python `dict` with string keys). */
  type Object = map<string, Value>

  /** Python's truth value of a decoded JSON value. */
  predicate Truthy(v: Value) {
    match v
    case Null => false
    case Bool(b) => b
    case Int(i) => i != 0
    case Real(r) => r != 0.0
    case Str(s) => s != []
    case Arr(items) => items != []
    case Obj(fields) => fields != map[]
  }

  /** Numbers (`bool` is an `int` in Python). */
  predicate IsNumber(v: Value) {
    v.Bool? || v.Int? || v.Real?
  }

  /**
   * The least magnitude of an `int` that Python cannot convert to a `float`:
   * (2^54 - 1) * 2^970 = 2^1024 - 2^970, with 0x3F_FFFF_FFFF_FFFF = 2^54 - 1.
   * It lies halfway between the largest double (2^1024 - 2^971) and 2^1024,
   * and Python rounds it up to 2^1024, which overflows.
   */
  const FLOAT_INT_LIMIT: int := 0x3F_FFFF_FFFF_FFFF * Pow2(970)

  /** Numbers that Python formats with a `f` format specification; an `int` is first converted to a `float`. */
  predicate Formattable(v: Value) {
    IsNumber(v) && !(v.Int? && (v.i >= FLOAT_INT_LIMIT || -v.i >= FLOAT_INT_LIMIT))
  }

  /** The numeric value of a number, as a real. */
  function NumberOf(v: Value): real
    requires IsNumber(v)
  {
    match v
    case Bool(b) => if b then 1.0 else 0.0
    case Int(i) => i as real
    case Real(r) => r
  }
}
