/** Optional values and results with an error, as the Python code uses `None` and exceptions. */
module Wrappers {

  /** `None` is Python's `None`; `Some(v)` a present value. */
  datatype Option<+T> = None | Some(value: T) {

    /** The value, or `default` when absent (Python's `dict.get(key, default)` once looked up). */
    function GetOr(default: T): T {
      match this
      case Some(v) => v
      case None => default
    }
  }

  /** The outcome of a step that may raise: `Failure(msg)` carries the exception's message. */
  datatype Result<+R, +E> = Success(value: R) | Failure(error: E)
}
