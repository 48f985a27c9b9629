/** Failure-compatible wrappers used for the results of the injected collaborators. */
module Wrappers {

  /** An optional value; `None` where Go returns a nil error. */
  datatype Option<+T> = None | Some(value: T)

  /** A value or an error, as in Go's `(value, error)` pair. */
  datatype Result<+R, +E> = Success(value: R) | Failure(error: E)
}
