/** Optional values, results, and the JavaScript error values that the
    services throw and the handlers catch. */
module Wrappers {

  datatype Option<+T> = None | Some(value: T)

  /** A JavaScript `Error`: only its `message` is observable by the callers
      modelled here. An absent or empty message is the empty string. */
  datatype JsError = JsError(message: string)

  /** A call that either returns a value or throws. */
  datatype Result<+R> = Success(value: R) | Failure(error: JsError)

  /** JavaScript truthiness of an optional string: `undefined`, `null` and
      `""` are falsy, every other string is truthy. */
  predicate Truthy(s: Option<string>)
  {
    s.Some? && s.value != ""
  }
}
