/** Option, Result and Outcome: JavaScript's null / undefined, Java's nullable references
    and Java's thrown exceptions, as values. */
module Wrappers {

  datatype Option<+T> = None | Some(value: T)

  datatype Result<+R, +E> = Success(value: R) | Failure(error: E)

  /** The result of an operation that returns nothing (Java `void`) but may throw. */
  datatype Outcome<+E> = Pass | Fail(error: E)
}
