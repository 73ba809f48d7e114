/** Option, result and outcome values shared by the other modules. */
module Wrappers {

  /** A value that may be absent: an unset environment variable, a missing directory. */
  datatype Option<+T> = None | Some(value: T)

  /** The value of an operation that can fail with an error of type E. */
  datatype Result<+R, +E> = Success(value: R) | Failure(error: E)

  /** The outcome of an operation that returns nothing but can fail. */
  datatype Outcome<+E> = Pass | Fail(error: E)
}
