/** Failure-carrying return types used in place of Java's null and exceptions. */
module Wrappers {

  /** A value that may be absent: Java's nullable reference. */
  datatype Option<+T> = None | Some(value: T)

  /** A call that returns a value or raises an error. */
  datatype Result<+R, +E> = Success(value: R) | Failure(error: E)

  /** A call that returns nothing or raises an error (a `void` method that may throw). */
  datatype Outcome<+E> = Pass | Fail(error: E)
}
