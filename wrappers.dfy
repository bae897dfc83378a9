/** Optional values and results with an error, used for Go's nil pointers and error returns. */
module Wrappers {

  /** A value that may be absent (a nil pointer or a nil map in the provider). */
  datatype Option<+T> = None | Some(value: T)

  /** The outcome of an operation that either yields a value or fails with an error. */
  datatype Result<+T, +E> = Success(value: T) | Failure(error: E)
}
