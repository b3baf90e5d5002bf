/** Option and Result, standing for Java's nullable references and thrown exceptions. */
module Wrappers {

  /** A nullable value: `None` is Java's `null`. */
  datatype Option<+T> = None | Some(value: T) {
    function GetOr(default: T): T {
      match this
      case Some(v) => v
      case None => default
    }
  }

  /** The outcome of a call that may throw: `Failure` carries the exception's message. */
  datatype Result<+R, +E> = Success(value: R) | Failure(error: E)
}
