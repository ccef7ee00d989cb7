/** Failure-carrying values shared by every module of the model. */
module Wrappers {

  /** A value that may be absent: a missing file, a failed decode. */
  datatype Option<+T> = None | Some(value: T)

  /** The outcome of an operation that returns a value or an error. */
  datatype Result<+T, +E> = Success(value: T) | Failure(error: E)
}
