/** Option and outcome types standing in for JavaScript's `undefined` and thrown errors. */
module Wrappers {

  datatype Option<+T> = None | Some(value: T) {
    function GetOr(default: T): T {
      match this
      case Some(v) => v
      case None => default
    }
  }

  /** The result of an async operation that either resolves or rejects with an error. */
  datatype Outcome<+E> = Pass | Fail(error: E)

  /** An async operation that resolves to a value or rejects with an error. */
  datatype Result<+R, +E> = Success(value: R) | Failure(error: E)
}
