/** Option and Result, as used throughout the model for Python's `None` and for raised exceptions. */
module Wrappers {

  datatype Option<+T> = None | Some(value: T) {
    function GetOr(default: T): T {
      match this
      case Some(v) => v
      case None => default
    }
  }

  /** The outcome of a call that may raise: the value, or the text of the exception. */
  datatype Result<+R, +E> = Success(value: R) | Failure(error: E)
}
