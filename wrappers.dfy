/** Failure-compatible wrappers used across the model: `Option` stands for
    Kotlin's nullable types and for `when` branches that throw, `Result`
    for operations that either return a value or raise an exception. */
module Wrappers {

  datatype Option<+T> = None | Some(value: T) {
    function GetOr(default: T): T {
      match this
      case Some(v) => v
      case None => default
    }
  }

  datatype Result<+T> = Success(value: T) | Failure(error: string)
}
