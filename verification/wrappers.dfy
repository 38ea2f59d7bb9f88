/** Optional values and error-carrying results, in place of Python's None and raised exceptions. */
module Wrappers {

  /** A value that may be absent, as a missing query parameter or form field is. */
  datatype Option<+T> = None | Some(value: T) {

    /** The value, or `default` when absent: Python's `d.get(key, default)`. */
    function GetOr(default: T): T {
      match this
      case Some(v) => v
      case None => default
    }
  }

  /** Either a computed value or the error the source would raise. */
  datatype Result<+R, +E> = Success(value: R) | Failure(error: E)
}
