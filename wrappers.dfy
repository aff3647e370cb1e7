/** Option and Result: the model's stand-ins for pandas' NaN and for Python exceptions. */
module Wrappers {

  /** A value that may be missing; `None` is pandas' NaN (or None) in a numeric column. */
  datatype Option<+T> = None | Some(value: T) {
    function GetOr(default: T): T {
      match this
      case Some(v) => v
      case None => default
    }
  }

  /** The outcome of an operation that can raise. */
  datatype Result<+T, +E> = Ok(value: T) | Err(error: E)
}
