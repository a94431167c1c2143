/** Optional values and results with an error, as used throughout the model. */
module Wrappers {

  /** A value that may be absent (TypeScript `T | undefined` or `T | null`). */
  datatype Option<+T> = None | Some(value: T)

  /** The outcome of an operation that may throw. */
  datatype Result<+T, +E> = Success(value: T) | Failure(error: E)
}
