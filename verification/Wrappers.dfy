/** Failure-carrying values shared by every module of the model. */
module Wrappers {

  /** A value that may be absent: JSON `null`, a missing key, or a Python `None`. */
  datatype Option<+T> = None | Some(value: T) {
    function GetOr(default: T): T {
      match this
      case Some(v) => v
      case None => default
    }
  }

  /** The outcome of an operation that either returns a value or raises an error. */
  datatype Result<+R, +E> = Success(value: R) | Failure(error: E)
}
