/** Optional values and success/failure results, used where the source has
    `null`, optional fields, or a thrown error. */
module Wrappers {

  datatype Option<+T> = None | Some(value: T) {
    /** The value, or `default` when there is none. */
    function GetOr(default: T): T {
      match this
      case Some(v) => v
      case None => default
    }
  }

  /** The outcome of an operation that may throw: a value, or the message of
      the error it threw. */
  datatype Result<+R, +E> = Success(value: R) | Failure(error: E)
}
