/** Optional values and results with an error, shared by the request and batch modules. */
module Wrappers {

  /** A value that may be absent: Go's nil pointer, nil error or nil channel. */
  datatype Option<+T> = None | Some(value: T)

  /** A value or the error that prevented it: Go's `(T, error)` pair. */
  datatype Result<+T, +E> = Success(value: T) | Failure(error: E)
}
