/** Failure-carrying values: the outcome of an upstream step that may throw. */
module Wrappers {

  datatype Option<+T> = None | Some(value: T)

  /** `Failure` carries the message of the error the step threw. */
  datatype Result<+R, +E> = Success(value: R) | Failure(error: E)
}
