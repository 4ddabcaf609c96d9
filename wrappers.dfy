/** Failure-compatible wrappers shared by every module. */
module Wrappers {

  /** A possibly absent value: a dictionary key that is missing, a `None` argument. */
  datatype Option<+T> = None | Some(value: T) {
    function GetOr(default: T): T {
      match this
      case Some(v) => v
      case None => default
    }
  }

  /** The outcome of an operation that the source can abort with an exception. */
  datatype Result<+T, +E> = Ok(value: T) | Err(error: E)
}
