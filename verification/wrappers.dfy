/** Optional values and results with an error payload, shared by every module. */
module Wrappers {

  /** A value that may be absent (JavaScript `undefined` or `null`). */
  datatype Option<+T> = None | Some(value: T) {
    function GetOr(default: T): T {
      match this
      case Some(v) => v
      case None => default
    }
  }

  /** The outcome of an operation that may throw: `Err` carries the message of the thrown error. */
  datatype Result<+T, +E> = Ok(value: T) | Err(error: E)
}
