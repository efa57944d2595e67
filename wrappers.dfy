/** Optional values and results, standing for the missing keys and raised exceptions of the source. */
module Wrappers {

  /** A value that may be absent (a missing dictionary key, `None`). */
  datatype Option<+T> = None | Some(value: T)

  /** The outcome of an operation that may raise: its value, or the error it raised. */
  datatype Result<+R, +E> = Success(value: R) | Failure(error: E)
}
