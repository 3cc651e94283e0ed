/** Failure-carrying values used for the predictor's raised exceptions. */
module Wrappers {

  datatype Option<+T> = None | Some(value: T)

  /** A value, or the error that was raised instead of producing it. */
  datatype Result<+T, +E> = Ok(value: T) | Err(error: E)

  /** A step that returns nothing, or the error that it raised. */
  datatype Outcome<+E> = Pass | Fail(error: E)
}
