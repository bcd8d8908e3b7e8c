/** Option and Result values: the model's stand-ins for Python's None and
    for exceptions that abort an operation. */
module Wrappers {

  /** A value that may be absent, as a `dict.get` without a default returns. */
  datatype Option<+T> = None | Some(value: T) {

    /** The held value, or `default` when absent (`dict.get(key, default)`). */
    function GetOr(default: T): T {
      match this
      case Some(v) => v
      case None => default
    }
  }

  /** The outcome of an operation that either returns a value or raises. */
  datatype Result<+R, +E> = Success(value: R) | Failure(error: E)
}
