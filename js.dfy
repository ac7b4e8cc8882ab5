/**
  The few JavaScript value semantics the shortener handlers depend on: a
  request-body field that may be missing, truthiness of such a field, and
  `String(v)`, which prints a missing value as "undefined".
 */
module Js {

  /** A request-body field: `None` is `undefined`, `Some(s)` a string value. */
  datatype Option<+T> = None | Some(value: T)

  /** JavaScript truthiness of an optional string: `undefined` and "" are falsy. */
  predicate Truthy(v: Option<string>)
  {
    v.Some? && v.value != ""
  }

  /** `String(v)`: the text of a value; `undefined` prints as "undefined". */
  function StringOf(v: Option<string>): string
  {
    match v
    case None => "undefined"
    case Some(s) => s
  }
}
