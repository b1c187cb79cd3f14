/** Option and Result, used where the Java code returns null or throws. */
module Wrappers {

  /** `None` stands for a Java `null` result. */
  datatype Option<+T> = None | Some(value: T)

  /** `Failure` stands for an exception that propagates to the caller. */
  datatype Result<+T, +E> = Success(value: T) | Failure(error: E)
}
