/** Option and Result values shared by the session model. */
module Wrappers {

  /** A value that may be absent (the source's `T | null`). */
  datatype Option<+T> = None | Some(value: T)

  /** The value of a computation that may fail with an error. */
  datatype Result<+T, +E> = Success(value: T) | Failure(error: E)
}
