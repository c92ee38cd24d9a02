/** Optional values and results that may carry the message of a thrown error. */
module Wrappers {

  datatype Option<+T> = None | Some(value: T) {

    /** The value, or `default` when absent (JavaScript's default-parameter rule). */
    function GetOr(default: T): T {
      match this
      case Some(v) => v
      case None => default
    }
  }

  /** `Failure(e)` stands for a thrown error whose message is `e`. */
  datatype Result<+T, +E> = Success(value: T) | Failure(error: E)
}
