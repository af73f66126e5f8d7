/** Option and Result, the two failure-carrying shapes the rest of the model uses. */
module Wrappers {

  /** A Go value that may be nil: a `*T`, an interface or a map that was never allocated. */
  datatype Option<+T> = None | Some(value: T) {
    function GetOr(default: T): T {
      match this
      case Some(v) => v
      case None => default
    }
  }

  /** A value or the error that prevented computing it. */
  datatype Result<+T, +E> = Ok(value: T) | Err(error: E)
}
