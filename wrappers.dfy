/** Failure-compatible wrappers shared by the other modules. */
module Wrappers {

  /** A value that may be absent; `None` stands for Go's nil slice or a missing map entry. */
  datatype Option<+T> = None | Some(value: T)

  /** The result of an operation that can fail with an error of type `E`. */
  datatype Result<+T, +E> = Success(value: T) | Failure(error: E)
}
