/** Failure-carrying values standing in for the exceptions the services throw. */
module Wrappers {

  /** A value that may be absent (a JavaScript field left `undefined`). */
  datatype Option<+T> = None | Some(value: T)

  /** The value an operation returns, or the error it throws. */
  datatype Result<+T, +E> = Success(value: T) | Failure(error: E)

  /** The outcome of an operation that returns nothing, or the error it throws. */
  datatype Outcome<+E> = Pass | Fail(error: E)
}
