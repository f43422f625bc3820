/** Option and Result, the shapes Swift's optionals and `throws` take in this model. */
module Wrappers {

  datatype Option<+T> = None | Some(value: T) {
    /** Swift's `x ?? d`. */
    function GetOr(default: T): T {
      match this
      case Some(v) => v
      case None => default
    }
  }

  /** A thrown error or a returned value. */
  datatype Result<+R, +E> = Success(value: R) | Failure(error: E) {
    predicate IsFailure() { Failure? }
  }

  /** An operation that either completes or throws, with no value. */
  datatype Outcome<+E> = Pass | Fail(error: E)
}
