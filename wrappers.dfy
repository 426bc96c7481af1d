/** Option, Result and Outcome: the model's stand-ins for `null`, thrown errors and
    "returns normally or throws". */
module Wrappers {

  datatype Option<+T> = None | Some(value: T) {
    function GetOr(default: T): T {
      match this
      case Some(v) => v
      case None => default
    }
  }

  datatype Result<+R, +E> = Success(value: R) | Failure(error: E)

  /** A check that either passes or fails with an error value (a `void` function that may throw). */
  datatype Outcome<+E> = Pass | Fail(error: E)
}
