/** Failure-carrying result types used for the exceptions the controller throws. */
module Wrappers {

  datatype Option<+T> = None | Some(value: T)

  /** The value of an operation that returns something, or the reason it threw. */
  datatype Result<+T, +E> = Ok(value: T) | Err(error: E)

  /** The outcome of an operation that returns nothing, or the reason it threw. */
  datatype Outcome<+E> = Pass | Fail(error: E)
}
