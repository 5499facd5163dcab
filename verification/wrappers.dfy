/** Optional values and success-or-error results, the two wrappers the model uses. */
module Wrappers {

  datatype Option<+T> = None | Some(value: T)

  /** The outcome of an operation that may throw: the value, or the error's message. */
  datatype Result<+R, +E> = Success(value: R) | Failure(error: E)
}
