/** Option, Result and Outcome values shared by the scheduler and logger models. */
module Basics {

  datatype Option<+T> = None | Some(value: T)

  datatype Result<+T, +E> = Success(value: T) | Failure(error: E)

  /** The result of an operation that either completes or throws. */
  datatype Outcome<+E> = Pass | Fail(error: E)
}
