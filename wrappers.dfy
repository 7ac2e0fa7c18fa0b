/** Failure-compatible wrappers: `Option` stands for a Java reference that may be
    null, `Result` for a value or the exception a service method throws. */
module Wrappers {

  datatype Option<+T> = None | Some(value: T) {
    function GetOr(default: T): T {
      match this
      case Some(v) => v
      case None => default
    }
  }

  datatype Result<+T, +E> = Success(value: T) | Failure(error: E)
}
