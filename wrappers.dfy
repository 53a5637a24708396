/** Optional values and results with an error, used across the model. */
module Wrappers {

  /** A value that may be absent: SQL NULL, a missing request field, JavaScript `undefined`. */
  datatype Option<+T> = None | Some(value: T) {

    function GetOr(default: T): T {
      match this
      case Some(v) => v
      case None => default
    }
  }

  /** The value of an operation that may throw. */
  datatype Result<+T, +E> = Success(value: T) | Failure(error: E)
}
