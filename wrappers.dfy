/** The error-carrying results the models return where the source raises. */
module Wrappers {

  /** Optional value: Python's `None` or a value. */
  datatype Option<T> = None | Some(value: T)

  /** The outcome of an operation that may raise: a value, or the raised message. */
  datatype Result<T> = Success(value: T) | Failure(error: string)
}
