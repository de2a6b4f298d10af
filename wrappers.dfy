/** Optional values and outcomes that may fail, used for every operation of the service. */
module Wrappers {

  /** A value that may be absent (an unset document field, a missing `req.files`). */
  datatype Option<+T> = None | Some(value: T)

  /** The outcome of an operation: its value, or the error it raises. */
  datatype Result<+T, +E> = Success(value: T) | Failure(error: E)
}
