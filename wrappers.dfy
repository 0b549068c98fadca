/** Option, Result and Outcome: how the model spells Go's nil handles,
    (value, error) pairs and bare error returns. */
module Wrappers {

  /** A handle that may be nil. */
  datatype Option<+T> = None | Some(value: T) {
    function GetOr(default: T): T {
      match this
      case Some(v) => v
      case None => default
    }
  }

  /** A Go call returning (value, error): exactly one of them matters. */
  datatype Result<+T, +E> = Success(value: T) | Failure(error: E)

  /** A Go call returning only an error, nil on success. */
  datatype Outcome<+E> = Pass | Fail(error: E)
}
