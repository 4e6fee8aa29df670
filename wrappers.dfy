/** Optional values, results that may carry an exception, and outcomes of calls that return nothing. */
module Wrappers {

  /** A value that may be absent (Java's `null`). */
  datatype Option<+T> = None | Some(value: T)

  /** The value of a call that either returns normally or throws an exception of type E. */
  datatype Result<+R, +E> = Success(value: R) | Failure(error: E)

  /** The outcome of a `void` call: it returns normally or throws an exception of type E. */
  datatype Outcome<+E> = Pass | Fail(error: E)
}
