/** Option and Result: the model's stand-ins for Python's None and for raised exceptions. */
module Wrappers {

  /** A value that may be absent (Python's None, TypeScript's null). */
  datatype Option<+T> = None | Some(value: T)

  /** The outcome of an operation that either returns a value or raises an error. */
  datatype Result<+R, +E> = Success(value: R) | Failure(error: E)
}
