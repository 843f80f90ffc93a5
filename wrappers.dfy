/** Failure-carrying values standing in for Python's `None` and its exceptions. */
module Wrappers {

  datatype Option<+T> = None | Some(value: T)

  datatype Result<+R, +E> = Success(value: R) | Failure(error: E)

  /** A check that either passes or fails with an error, and yields nothing. */
  datatype Outcome<+E> = Pass | Fail(error: E)
}
