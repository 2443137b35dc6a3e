/** Optional values and results, standing in for Python's `None` and raised exceptions. */
module Wrappers {

  /** A value that may be absent (Python `None`). */
  datatype Option<+T> = None | Some(value: T) {

    /** The held value, or `default` when absent (Python `x or default` for a non-falsy `x`). */
    function GetOr(default: T): T {
      match this
      case Some(v) => v
      case None => default
    }
  }

  /** Either a value or the error that would have been raised. */
  datatype Result<+R, +E> = Ok(value: R) | Err(error: E)
}
