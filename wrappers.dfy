/** Optional values and results with an error, as used throughout the model. */
module Wrappers {

  /** A value that may be absent (an unset many-to-one field is `None`). */
  datatype Option<+T> = None | Some(value: T)

  /** The outcome of an operation that may raise an error. */
  datatype Result<+T, +E> = Success(value: T) | Failure(error: E)
}
