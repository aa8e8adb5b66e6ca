/** Option and Result, the outcome types used instead of Python's None and exceptions. */
module Wrappers {

  datatype Option<+T> = None | Some(value: T) {

    /** `d.get(key, default)`: the value if present, otherwise the default. */
    function GetOr(default: T): T
    {
      match this
      case Some(v) => v
      case None => default
    }
  }

  /** The value an operation returns, or the exception it raises. */
  datatype Result<+R, +E> = Ok(value: R) | Err(error: E)
}
