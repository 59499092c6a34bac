/** Optional values and fallible results, used wherever the Python code
    returns `None` or raises instead of returning a value. */
module Wrappers {

  datatype Option<+T> = None | Some(value: T) {

    /** The wrapped value, or `default` for None (Python's `x or default`). */
    function GetOr(default: T): T {
      match this
      case Some(v) => v
      case None => default
    }
  }

  /** Success carries the value a Python function returned, Failure the
      exception it raised. */
  datatype Result<+T, +E> = Success(value: T) | Failure(error: E)
}
