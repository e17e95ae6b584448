/** Optional values and success/failure results shared by every module. */
module Wrappers {

  /** A JavaScript value that may be `null` or `undefined`. */
  datatype Option<+T> = None | Some(value: T)

  /** The outcome of code that either returns a value or throws an `Error` with a message. */
  datatype Result<+R> = Success(value: R) | Failure(error: string)

  /** JavaScript truthiness of a nullable string: `null`, `undefined` and `""` are falsy. */
  predicate Truthy(s: Option<string>) {
    s.Some? && s.value != ""
  }
}
