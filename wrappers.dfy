/** Plain result types shared by the quiz and the access checker. */
module Wrappers {

  /** A value that may be absent, in place of a Java `null`. */
  datatype Option<+T> = None | Some(value: T)

  /** The outcome of an operation that returns nothing but may throw. */
  datatype Outcome<+E> = Pass | Fail(error: E)

  /** The outcome of an operation that returns a value or throws. */
  datatype Result<+R, +E> = Success(value: R) | Failure(error: E)
}
