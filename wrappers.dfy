/** The Option and Result datatypes used by the rest of the model. */
module Wrappers {

  /** A value that may be absent; stands for a nullable reference of the original code. */
  datatype Option<+T> = None | Some(value: T)

  /** The outcome of an operation that either yields a value or throws. */
  datatype Result<+R, +E> = Success(value: R) | Failure(error: E)
}
