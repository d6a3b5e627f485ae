/** Failure-carrying values shared by every module: an optional value, the
    outcome of a call that may throw, and the outcome of a check. */
module Wrappers {

  /** A value that may be absent (`undefined` in the original program). */
  datatype Option<+T> = None | Some(value: T) {
    /** The value, or `default` when absent (a destructuring default). */
    function GetOr(default: T): T {
      match this
      case Some(v) => v
      case None => default
    }
  }

  /** The result of a call that either returns a value or throws an error. */
  datatype Result<+R, +E> = Success(value: R) | Failure(error: E)
}
