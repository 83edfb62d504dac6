/** Optional values and failure-carrying results, the model's stand-ins for
    `undefined` fields and for exceptions that escape a handler. */
module Wrappers {

  datatype Option<+T> = None | Some(value: T) {

    /** The value, or `default` when absent (JavaScript's `x ?? default`). */
    function GetOr(default: T): T {
      match this
      case Some(v) => v
      case None => default
    }
  }

  datatype Result<+R, +E> = Success(value: R) | Failure(error: E)

  /** The exceptions the modelled code can raise: a `TypeError` with its
      message, and the `URIError` of a malformed percent-encoding. */
  datatype ScriptError = TypeError(message: string) | UriError
}
