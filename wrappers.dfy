/** Optional values, results with an error, and pass/fail outcomes. */
module Wrappers {

  /** A value that may be absent, such as a key missing from a JSON object. */
  datatype Option<+T> = None | Some(value: T) {

    /** The value if present, else `default` (Python's `d[k] if k in d else default`). */
    function GetOr(default: T): T {
      match this
      case Some(v) => v
      case None => default
    }
  }

  /** The value a Python function returns, or the exception it raises. */
  datatype Result<+R, +E> = Success(value: R) | Failure(error: E)

  /** Completion of a procedure that returns nothing useful, or the exception it raises. */
  datatype Outcome<+E> = Pass | Fail(error: E)
}
