/** Optional values, results and pass/fail outcomes. */
module Wrappers {

  /** A value that may be absent: stands for a Java reference that may be null. */
  datatype Option<+T> = None | Some(value: T)

  /** A value or the error that replaced it. */
  datatype Result<+R, +E> = Success(value: R) | Failure(error: E)

  /** Success without a value, or an error. */
  datatype Outcome<+E> = Pass | Fail(error: E)
}
