/**
 * Parsed JSON request bodies as a JavaScript program sees them, and the
 * truthiness test JavaScript applies in `if (x)` and `!x`.
 */
module Json {

  /** A JSON value. Numbers are mathematical reals: IEEE-754 rounding is not modelled. */
  datatype Value =
    | Null
    | Bool(b: bool)
    | Number(n: real)
    | String(s: string)
    | Array(items: seq<Value>)
    | Object(fields: map<string, Value>)

  /** JavaScript truthiness: `false`, `null`, `0` and `""` are falsy; arrays and objects are truthy. */
  predicate Truthy(v: Value)
  {
    match v
    case Null => false
    case Bool(b) => b
    case Number(n) => n != 0.0
    case String(s) => s != ""
    case Array(_) => true
    case Object(_) => true
  }
}
