/** Plain datatypes standing for the null values and raised exceptions of the modelled code. */
module Wrappers {

  /** A value that may be absent: the model of a nullable reference. */
  datatype Option<+T> = None | Some(value: T)

  /** A computed value, or the exception that the computation raises instead. */
  datatype Result<+R, +E> = Success(value: R) | Failure(error: E)

  /** A statement that completes normally, or the exception it raises. */
  datatype Outcome<+E> = Pass | Fail(error: E)
}
