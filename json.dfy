/**
 * A decoded JSON document, as `json.loads` returns it: `None`, `bool`, a number,
 * `str`, `list` or `dict` (an ordered dictionary, keys in document order).
 * Decoding itself is a foreign parser and enters the model as a function
 * argument of type `Loads`.
 */
module Json {
  import opened Wrappers
  import opened Dicts

  datatype Json =
    | JNull
    | JBool(b: bool)
    | JNum(n: real)
    | JStr(s: string)
    | JArr(items: seq<Json>)
    | JObj(fields: Dict<Json>)

  /** `json.loads`: `None` stands for a `JSONDecodeError`. */
  type Loads = string -> Option<Json>

  /** `isinstance(v, (int, float))`; a Python `bool` is an `int`. */
  predicate IsNumber(v: Json) {
    v.JBool? || v.JNum?
  }

  /** The numeric value of a number, with `True == 1` and `False == 0`. */
  function NumberValue(v: Json): real
    requires IsNumber(v)
  {
    if v.JBool? then (if v.b then 1.0 else 0.0) else v.n
  }

  /** Python truthiness of a decoded value. */
  predicate Truthy(v: Json) {
    match v
    case JNull => false
    case JBool(b) => b
    case JNum(n) => n != 0.0
    case JStr(s) => s != ""
    case JArr(items) => items != []
    case JObj(fields) => fields.entries != map[]
  }
}
