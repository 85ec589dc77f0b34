/** Option and Result types shared by the model's modules. */
module Wrappers {

  /** A value that may be absent (Swift `nil`, JavaScript `null`). */
  datatype Option<+T> = None | Some(value: T)

  /** The outcome of an operation that may fail with an error value. */
  datatype Result<+R, +E> = Success(value: R) | Failure(error: E)
}
