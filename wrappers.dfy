/** Optional values and results with an error, as used throughout the model. */
module Wrappers {

  /** A value that may be absent (a JavaScript `undefined` / `null`, or a key left out of an object). */
  datatype Option<+T> = None | Some(value: T) {
    function GetOr(default: T): T {
      match this
      case Some(v) => v
      case None => default
    }
  }

  /** The outcome of an operation that can throw: its value, or the message of the thrown error. */
  datatype Result<+T, +E> = Success(value: T) | Failure(error: E)
}
