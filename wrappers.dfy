/** Option and Result, for Java's null references and thrown exceptions. */
module Wrappers {

  /** `None` stands for a Java `null` reference. */
  datatype Option<+T> = None | Some(value: T)

  /** `Failure` stands for an exception the source lets escape to its caller. */
  datatype Result<+R, +E> = Success(value: R) | Failure(error: E)
}
