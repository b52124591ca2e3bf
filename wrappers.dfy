/** Optional values and pass/fail outcomes, used throughout the model. */
module Wrappers {

  /** Python's `None` versus a present value. */
  datatype Option<+T> = None | Some(value: T) {
    function GetOr(default: T): T {
      match this
      case Some(v) => v
      case None => default
    }
  }

  /** The `(is_valid, error_message)` pairs the source returns: a pass, or a failure with a message. */
  datatype Outcome<+E> = Pass | Fail(error: E)

  /** A value, or the exception the source raises instead of returning one. */
  datatype Result<+R, +E> = Ok(value: R) | Err(error: E)
}
