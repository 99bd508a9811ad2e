/** Failure-carrying values used throughout the model in place of Python's None and exceptions. */
module Wrappers {

  /** A value that may be absent: Python's `None` or a missing dictionary key. */
  datatype Option<+T> = None | Some(value: T) {
    /** `d.get(key, default)`: the value if present, otherwise the default. */
    function GetOr(default: T): T {
      match this
      case Some(v) => v
      case None => default
    }
  }

  /** A computation that either produced a value or raised an error. */
  datatype Result<+R, +E> = Success(value: R) | Failure(error: E)

  /** A check that either passed or raised an error. */
  datatype Outcome<+E> = Pass | Fail(error: E)
}
