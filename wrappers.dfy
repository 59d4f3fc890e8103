/** Optional values and results with an error, shared by the modules of this project. */
module Wrappers {

  /** A value that may be absent; stands for a pointer that may be null. */
  datatype Option<+T> = None | Some(value: T)

  /** The outcome of an operation that may throw: its value, or the exception it raised. */
  datatype Result<+T, +E> = Success(value: T) | Failure(error: E)
}
