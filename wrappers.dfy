/** Option and Result: the optional values and error returns of the API layer. */
module Wrappers {

  /** A possibly absent value (Python's `Optional[T]`, `None` being absent). */
  datatype Option<+T> = None | Some(value: T) {

    /** The held value, or `default` when absent. */
    function GetOr(default: T): T {
      match this
      case Some(v) => v
      case None => default
    }
  }

  /** Either a value or an error. */
  datatype Result<+R, +E> = Ok(value: R) | Err(error: E)
}
