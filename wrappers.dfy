/** Failure-carrying result types used in place of the source's thrown
    IllegalArgumentException / IllegalStateException. */
module Wrappers {

  datatype Option<+T> = None | Some(value: T)

  datatype Result<+T, +E> = Ok(value: T) | Err(error: E) {
    predicate IsFailure() { Err? }
  }

  /** A check that either passes or fails with an error and yields no value. */
  datatype Outcome<+E> = Pass | Fail(error: E) {
    predicate IsFailure() { Fail? }
  }
}
