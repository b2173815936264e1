/** Option and Result datatypes used across the model. */
module Wrappers {

  /** An optional value: the request body a call may carry. */
  datatype Option<+T> = None | Some(value: T)

  /** A value or the reason it could not be produced. */
  datatype Result<+T, +E> = Success(value: T) | Failure(error: E)
}
