/** Option and result wrappers used across the model. */
module Wrappers {

  /** A value that may be absent (a Go nil pointer or a missing error). */
  datatype Option<+T> = None | Some(value: T)

  /** The outcome of a remote call: its value, or the error it returned. */
  datatype Result<+T, +E> = Success(value: T) | Failure(error: E)
}
