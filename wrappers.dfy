/** Failure-carrying result types used for the service's exceptions. */
module Wrappers {

  datatype Option<+T> = None | Some(value: T)

  /** The outcome of an operation that either produces a value or raises an error. */
  datatype Result<+R, +E> = Success(value: R) | Failure(error: E)

  /** The outcome of an operation that produces nothing but may raise an error. */
  datatype Outcome<+E> = Pass | Fail(error: E)
}
