/** Option and Result, the two failure-carrying wrappers the model uses. */
module Wrappers {

  /** Python's `None`-or-value. */
  datatype Option<+T> = None | Some(value: T) {
    function GetOr(default: T): T {
      match this
      case Some(v) => v
      case None => default
    }
  }

  /** A value, or the exception message that replaced it. */
  datatype Result<+R, +E> = Success(value: R) | Failure(error: E)
}
