/** Option and Result types used across the model. */
module Wrappers {

  /** Python's `None` or a present value. */
  datatype Option<+T> = None | Some(value: T)

  /** A value, or the exception the program would raise instead. */
  datatype Result<+T, +E> = Success(value: T) | Failure(error: E)
}
