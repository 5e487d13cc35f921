/** Option and Result, as used by the two components of this model. */
module Wrappers {

  /** A value that may be absent: Python's `None` or a missing dictionary key. */
  datatype Option<+T> = None | Some(value: T) {

    /** The value, or `default` when there is none (Python's `dict.get(key, default)`). */
    function GetOr(default: T): T
    {
      match this
      case Some(v) => v
      case None => default
    }
  }

  /** A computation that either succeeds with a value or raises an error. */
  datatype Result<+R, +E> = Success(value: R) | Failure(error: E)
}
