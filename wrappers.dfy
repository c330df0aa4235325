/** Optional values and results with an error, used across the model. */
module Wrappers {

  /** A value that may be absent: a Python `None` or a missing key. */
  datatype Option<+T> = None | Some(value: T) {
    /** The value, or `default` when absent (Python's `d.get(k, default)`). */
    function GetOr(default: T): T {
      match this
      case Some(v) => v
      case None => default
    }
  }

  /** The outcome of a step that can stop the run instead of producing a value. */
  datatype Result<+T, +E> = Success(value: T) | Failure(error: E)
}
