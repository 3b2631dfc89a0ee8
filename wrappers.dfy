/** Small value types shared by the rest of the model. */
module Wrappers {

  /** A value that may be absent: the model of a Go pointer field that may be nil. */
  datatype Option<+T> = None | Some(value: T)

  /** A value or the error that replaced it: the model of Go's `(T, error)` return pair. */
  datatype Result<+T, +E> = Success(value: T) | Failure(error: E)

  /** A Go `error` value that is not nil; `Option<Error>` is an `error` that may be nil. */
  datatype Error = Error(message: string)
}
