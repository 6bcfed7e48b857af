/** Failure-carrying results: a value or the error that replaced it. */
module Wrappers {

  datatype Option<+T> = None | Some(value: T)

  datatype Result<+R, +E> = Success(value: R) | Failure(error: E)

  /** A check that either passes or fails with an error and carries no value. */
  datatype Outcome<+E> = Pass | Fail(error: E)
}
