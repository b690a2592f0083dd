/** Option, Result and Outcome: the failure-carrying datatypes the rest of the model uses
    for `undefined`, for values-or-thrown-errors and for promises that resolve to nothing. */
module Wrappers {

  datatype Option<+T> = None | Some(value: T) {
    function GetOr(default: T): T {
      match this
      case Some(v) => v
      case None => default
    }
  }

  datatype Result<+R, +E> = Success(value: R) | Failure(error: E)

  /** The settlement of a `Promise<void>`: it resolves, or it rejects with `error`. */
  datatype Outcome<+E> = Pass | Fail(error: E)
}
