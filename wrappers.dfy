/** Failure-compatible result types used for the aggregate's error paths. */
module Wrappers {

  /** An optional value: `None` stands for PHP's `null`. */
  datatype Option<+T> = None | Some(value: T)

  /** The outcome of a call that either returns a value or throws. */
  datatype Result<+R, +E> = Success(value: R) | Failure(error: E)

  /** The outcome of a call that returns nothing on success or throws. */
  datatype Outcome<+E> = Pass | Fail(error: E)
}
