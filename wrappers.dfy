/** Option and Result: the model's stand-ins for C# `null` and for thrown exceptions. */
module Wrappers {

  /** A possibly-null reference or nullable value (`T?` in C#). */
  datatype Option<+T> = None | Some(value: T) {
    function GetOr(default: T): T {
      match this
      case Some(v) => v
      case None => default
    }
  }

  /** Either a value or the exception an operation throws. */
  datatype Result<+R, +E> = Success(value: R) | Failure(error: E) {
    predicate IsFailure() { Failure? }
  }
}
