/** Option and Result, used wherever the Java code returns null or throws. */
module Wrappers {

  /** `None` stands for a Java `null`. */
  datatype Option<+T> = None | Some(value: T)

  /** `Failure` stands for an exception thrown out of the operation. */
  datatype Result<+T, +E> = Success(value: T) | Failure(error: E)
}
