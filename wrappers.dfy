/** Option and Result, the two failure-carrying datatypes the model uses. */
module Wrappers {

  datatype Option<+T> = None | Some(value: T)

  /** The outcome of a call that either produces a value or raises an error. */
  datatype Result<+T, +E> = Success(value: T) | Failure(error: E)
}
