/** Failure-carrying results: the model's stand-in for Python exceptions. */
module Wrappers {

  /** A value, or the error that a Python call would have raised instead. */
  datatype Result<T, E> = Success(value: T) | Failure(error: E)

  /** Success or the error of a check that returns nothing. */
  datatype Outcome<E> = Pass | Fail(error: E)
}
