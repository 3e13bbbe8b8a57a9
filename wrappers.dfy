/** Failure-compatible wrappers used throughout the model: a value that may be
    missing (the Python NaN/None sentinel, the JavaScript null) and a value
    that may be an error (a raised exception). */
module Wrappers {

  datatype Option<+T> = None | Some(value: T) {
    function GetOr(default: T): T {
      match this
      case Some(v) => v
      case None => default
    }
  }

  datatype Result<+R, +E> = Success(value: R) | Failure(error: E)
}
