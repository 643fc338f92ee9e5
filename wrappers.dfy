/** Option and Result: a Java reference that may be null, and an operation that may throw. */
module Wrappers {

  /** A Java reference that may be `null` (None). */
  datatype Option<+T> = None | Some(value: T)

  /** The outcome of a Java call that either returns a value or throws an exception. */
  datatype Result<+T, +E> = Success(value: T) | Failure(error: E)
}
