/** Failure-carrying wrappers shared by every module of the model. */
module Wrap {

  /** A value that may be absent: a Go zero value, a missing map entry, a failed parse. */
  datatype Option<+T> = None | Some(value: T) {
    function GetOr(default: T): T {
      match this
      case Some(v) => v
      case None => default
    }
  }

  /** The `(value, error)` pair every Go collaborator call returns. */
  datatype Result<+T, +E> = Success(value: T) | Failure(error: E)
}
