/** The optional values and result types shared by every module of the model. */
module Wrappers {

  /** A value that may be absent: JavaScript's `undefined` field. */
  datatype Option<+T> = None | Some(value: T) {
    function GetOr(default: T): T {
      match this
      case Some(v) => v
      case None => default
    }
  }

  /** A computation that either produced a value or threw an error. */
  datatype Result<+R, +E> = Success(value: R) | Failure(error: E)

  /** A computation that produced nothing but may have thrown an error. */
  datatype Outcome<+E> = Pass | Fail(error: E)
}
