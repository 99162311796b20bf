/** Plain Option/Result/Outcome datatypes standing in for Python's None and exceptions. */
module Wrappers {

  /** A value that may be absent (Python's `None`). */
  datatype Option<+T> = None | Some(value: T)

  /** The value an operation returns, or the exception it raises. */
  datatype Result<+R, +E> = Success(value: R) | Failure(error: E)

  /** Completion of an operation that returns nothing, or the exception it raises. */
  datatype Outcome<+E> = Pass | Fail(error: E)
}
