/** Failure-carrying wrappers shared by every module of the model. */
module Wrappers {

  /** A value that may be missing: a JavaScript `undefined`/`null` field or lookup. */
  datatype Option<+T> = None | Some(value: T) {
    function GetOr(default: T): T {
      match this
      case Some(v) => v
      case None => default
    }
  }

  /** The outcome of a call that either returns a value or throws. */
  datatype Result<+R, +E> = Success(value: R) | Failure(error: E)
}
