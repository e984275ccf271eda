/** Failure-compatible wrappers used throughout the model. */
module Wrappers {

  /** A value that may be missing. */
  datatype Option<+T> = None | Some(value: T)

  /** Either a value or the error that was raised instead of producing it. */
  datatype Result<+T, +E> = Success(value: T) | Failure(error: E)
}
