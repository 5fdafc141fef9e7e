/**
 * The Python values the handler inspects: what `json.loads` produces, with
 * Python's truthiness, the ordering test against `0` and `dict.get`.
 */
module PyValues {

  import opened Wrappers

  /**
   * A decoded JSON document: `None`, `bool`, a number (`int` and `float`
   * both as an exact real), `str`, `list` or `dict`.
   */
  datatype Json =
    | Null
    | Bool(b: bool)
    | Num(n: real)
    | Str(s: string)
    | List(items: seq<Json>)
    | Obj(fields: map<string, Json>)

  /** Python truthiness: `not v` is `False` exactly when `Truthy(v)`. */
  predicate Truthy(v: Json) {
    match v
    case Null => false
    case Bool(b) => b
    case Num(n) => n != 0.0
    case Str(s) => s != ""
    case List(items) => items != []
    case Obj(fields) => fields != map[]
  }

  /** The values that `<= 0` accepts: `int`, `float` and `bool` (a subclass of `int`). */
  predicate IsNumber(v: Json) {
    v.Num? || v.Bool?
  }

  /** The numeric value of a number; `True` is 1 and `False` is 0. */
  function NumberValue(v: Json): real
    requires IsNumber(v)
  {
    match v
    case Bool(b) => if b then 1.0 else 0.0
    case Num(n) => n
  }

  predicate IsPositive(v: Json) {
    IsNumber(v) && NumberValue(v) > 0.0
  }

  /** `v <= 0`, or None when Python raises TypeError for the operand. */
  function AtMostZero(v: Json): Option<bool> {
    if IsNumber(v) then Some(NumberValue(v) <= 0.0) else None
  }

  /** `d.get(key)`: the entry, or `None` when the key is absent. */
  function Get(fields: map<string, Json>, key: string): Json {
    if key in fields then fields[key] else Null
  }

}
