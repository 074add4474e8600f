/** Option and Result values, used where the Python code returns None or raises. */
module Wrappers {

  datatype Option<+T> = None | Some(value: T)

  /** `Failure` carries the exception the Python code would raise. */
  datatype Result<+T, +E> = Success(value: T) | Failure(error: E)
}
