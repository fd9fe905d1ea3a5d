/** The few JavaScript value distinctions the source's logic depends on. */
module Js {

  /** An untyped JavaScript value (the `unknown` of the source), reduced to what its
      truthiness and emptiness tests can observe. Objects and arrays are opaque. */
  datatype JsValue =
    | Undefined
    | Null
    | Bool(b: bool)
    | Num(n: real)
    | Str(s: string)
    | Object(ref: nat)

  /** JavaScript truthiness: `undefined`, `null`, `false`, `0` and `''` are falsy.
      (NaN and -0 are not representable here.) */
  predicate Truthy(v: JsValue) {
    match v
    case Undefined => false
    case Null => false
    case Bool(b) => b
    case Num(n) => n != 0.0
    case Str(s) => s != ""
    case Object(_) => true
  }

  /** Angular's `isEmptyInputValue`, and the "empty optional field" test of a form:
      `null`, `undefined` or the empty string. */
  predicate IsEmptyValue(v: JsValue) {
    v == Undefined || v == Null || v == Str("")
  }
}
