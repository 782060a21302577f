/** Failure-carrying values used where the source throws or returns null. */
module Wrappers {

  datatype Option<+T> = None | Some(value: T)

  /** A store call that either returns a value or fails with an error. */
  datatype Result<+T, +E> = Ok(value: T) | Err(error: E)

  /** A store call that returns nothing on success. */
  datatype Outcome<+E> = Pass | Fail(error: E)
}
