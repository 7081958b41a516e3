/** Optional values and success-or-error results shared by the two services. */
module Wrappers {

  /** A value that may be missing (Python's missing dictionary key, JavaScript's undefined). */
  datatype Option<+T> = None | Some(value: T)

  /** The outcome of a request handler: a value, or the error that aborted it. */
  datatype Result<+T, +E> = Success(value: T) | Failure(error: E)
}
