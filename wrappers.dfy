/** Failure-carrying values shared by every module of the model. */
module Wrappers {

  /** A value that may be absent: a nullable column, an optional DTO field, a `findOne` miss. */
  datatype Option<+T> = None | Some(value: T)

  /** The outcome of a service call: a value, or the exception it throws. */
  datatype Result<+R, +E> = Success(value: R) | Failure(error: E)
}
