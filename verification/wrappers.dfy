/** Failure-carrying values used in place of Python's `None` and exceptions. */
module Wrappers {

  /** An optional value: Python's `Optional[T]`. */
  datatype Option<+T> = None | Some(value: T) {

    /** The carried value, or `default` when there is none (Python's `dict.get(k, default)`). */
    function GetOr(default: T): T {
      match this
      case Some(v) => v
      case None => default
    }
  }

  /** Either a value or the error a Python function would have raised instead. */
  datatype Result<+T, +E> = Ok(value: T) | Err(error: E)
}
