/** Optional values and error-carrying results, used where the Java code
    returns null or throws. */
module Wrappers {

  /** A value that may be absent (Java `null`). */
  datatype Option<+T> = None | Some(value: T)

  /** A computed value, or the error that the Java code would throw. */
  datatype Result<+T, +E> = Success(value: T) | Failure(error: E)

  /** Success without a value, or the error that stopped an operation. */
  datatype Outcome<+E> = Pass | Fail(error: E)
}
