/** Optional values and results with an error message, used throughout the model
    for Go's nil pointers and `(value, error)` returns. */
module Wrappers {

  datatype Option<+T> = None | Some(value: T) {
    /** The value, or the given default when absent (Go's zero-value fallback). */
    function GetOr(default: T): T {
      match this
      case Some(v) => v
      case None => default
    }
  }

  /** A Go `(value, error)` pair: exactly one of the two is meaningful. */
  datatype Result<+R> = Success(value: R) | Failure(error: string)
}
