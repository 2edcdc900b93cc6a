/** Option and Result, shared by the output and the particle modules. */
module Wrappers {

  /** A value that may be absent: a null pointer or a missing JSON key. */
  datatype Option<+T> = None | Some(value: T)

  /** The outcome of an operation that may throw. */
  datatype Result<+R, +E> = Success(value: R) | Failure(error: E)
}
