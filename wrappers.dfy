/** Failure-carrying values used in place of Java's null returns and thrown IOExceptions. */
module Wrappers {

  /** A value that may be absent ("no opinion", a missing marker). */
  datatype Option<+T> = None | Some(value: T)

  /** A value, or the error that was thrown instead of returning it. */
  datatype Result<+R, +E> = Success(value: R) | Failure(error: E)

  /** Completion of a call that returns nothing (Java's `void`/`Void`), or the error it threw. */
  datatype Outcome<+E> = Pass | Fail(error: E)
}
