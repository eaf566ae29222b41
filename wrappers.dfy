/** Option, Result and Outcome values for the error paths of the estimator. */
module Wrappers {
  datatype Option<+T> = None | Some(value: T)

  datatype Result<+R, +E> = Success(value: R) | Failure(error: E)

  /** The result of an operation that either passes or fails with an error. */
  datatype Outcome<+E> = Pass | Fail(error: E)
}
