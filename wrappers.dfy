/** Failure-compatible result types used for the source's exceptions. */
module Wrappers {

  datatype Option<+T> = None | Some(value: T)

  /** A value or the error the source raises instead of returning one. */
  datatype Result<+R, +E> = Success(value: R) | Failure(error: E)

  /** The outcome of an operation that returns nothing but may raise. */
  datatype Outcome<+E> = Pass | Fail(error: E)
}
