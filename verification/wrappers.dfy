/** The outcome of an operation that either produces a value or raises an error. */
module Wrappers {
  datatype Result<+R, +E> = Success(value: R) | Failure(error: E)
}
