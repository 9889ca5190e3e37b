/** The optional value used for keys a section or chart record may lack. */
module Wrappers {

  datatype Option<+T> = None | Some(value: T) {

    /** The value, or `default` when absent: the shape of Python's `dict.get(key, default)`. */
    function GetOr(default: T): T {
      match this
      case Some(v) => v
      case None => default
    }
  }

  /** The outcome of an operation that may raise. */
  datatype Result<+T, +E> = Ok(value: T) | Err(error: E)
}
