/** Failure-carrying datatypes used in place of Go's nil checks and panics. */
module Wrappers {

  datatype Option<+T> = None | Some(value: T)

  datatype Result<+T, +E> = Success(value: T) | Failure(error: E)

  /** A computation that returns nothing but may fail (here: may panic). */
  datatype Outcome<+E> = Pass | Fail(error: E)
}
