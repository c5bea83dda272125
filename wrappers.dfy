/** Option and Result: the absent value and the thrown exception of the Java code. */
module Wrappers {

  /** A value that may be missing (a Java `null`). */
  datatype Option<+T> = None | Some(value: T)

  /** A value, or the error that the Java code throws instead of returning one. */
  datatype Result<+R, +E> = Success(value: R) | Failure(error: E)
}
