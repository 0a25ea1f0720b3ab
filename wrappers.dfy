/** Option and Result, the shapes in which the model returns Go's
    `error` (nil or not) and Go's `(value, error)` pairs. */
module Wrappers {

  /** A Go value that may be nil: `None` is nil. */
  datatype Option<+T> = None | Some(value: T)

  /** The outcome of a Go call that returns either a value or an error. */
  datatype Result<+R, +E> = Success(value: R) | Failure(error: E)
}
