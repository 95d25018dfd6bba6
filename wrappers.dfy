/** Failure-carrying wrappers shared by the other modules. */
module Wrappers {

  /** A value that may be absent: a dictionary key that is missing, or a parse that failed. */
  datatype Option<+T> = None | Some(value: T) {

    /** The held value, or `default` when absent (Python's `d.get(key, default)`). */
    function GetOr(default: T): T {
      match this
      case Some(v) => v
      case None => default
    }
  }

  /** The outcome of an operation that may raise. */
  datatype Result<+R, +E> = Success(value: R) | Failure(error: E)
}
