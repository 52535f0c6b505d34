/** Success-or-error values for the collaborators whose failures the program
    handles (Go's `(value, error)` pairs and plain `error` results). */
module Wrappers {

  /** An optional value; `None` also stands for Go's `nil` error. */
  datatype Option<+T> = None | Some(value: T)

  /** A value or the error that took its place. */
  datatype Result<+T, +E> = Success(value: T) | Failure(error: E)
}
