/** Failure-carrying values shared by every module of the model. */
module Wrappers {

  /** An optional value; stands for Python's `None` or a present value. */
  datatype Option<+T> = None | Some(value: T) {
    function GetOr(default: T): T {
      match this
      case Some(v) => v
      case None => default
    }
  }

  /** The outcome of an operation that may raise: a value or the error it raised. */
  datatype Result<+R, +E> = Ok(value: R) | Err(error: E)
}
