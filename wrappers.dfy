/** Failure-carrying datatypes shared by the modules of this model. */
module Wrappers {

  datatype Option<+T> = None | Some(value: T)

  /** A computation that either produces a value or reports why it could not. */
  datatype Result<+T, +E> = Success(value: T) | Failure(error: E)

  /** A computation that produces no value but may fail. */
  datatype Outcome<+E> = Pass | Fail(error: E)
}
