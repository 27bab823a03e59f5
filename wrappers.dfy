/** Failure-carrying values used in place of Python's `None` returns and exceptions. */
module Wrappers {

  /** `Optional[T]`: `None` or a present value. */
  datatype Option<+T> = None | Some(value: T) {
    function GetOr(default: T): T {
      match this
      case Some(v) => v
      case None => default
    }
  }

  /** The value an operation returns, or the message of the exception it raises. */
  datatype Result<+R, +E> = Success(value: R) | Failure(error: E)

  /** An operation with no result value that either completes or raises. */
  datatype Outcome<+E> = Pass | Fail(error: E)
}
