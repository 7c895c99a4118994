/** Failure-compatible wrappers shared by the model: Python's `x or default`
    and raised exceptions are written with these. */
module Wrappers {

  /** A value that may be absent (Python's `None`). */
  datatype Option<+T> = None | Some(value: T) {
    function GetOr(default: T): T {
      match this
      case Some(v) => v
      case None => default
    }
  }

  /** The outcome of an operation that may raise: `Ok` on return, `Err` when it raises. */
  datatype Result<+T, +E> = Ok(value: T) | Err(error: E)
}
