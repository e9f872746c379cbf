/** Failure-carrying values shared by the models of both source files. */
module Wrappers {

  /** A value that may be absent: Python's `None` or a missing key. */
  datatype Option<+T> = None | Some(value: T)

  /** Either a value or the exception that was raised instead. */
  datatype Result<+T, +E> = Ok(value: T) | Err(error: E)

  /** A call made for its effect only: it returned, or it raised. */
  datatype Outcome<+E> = Pass | Fail(error: E)
}
