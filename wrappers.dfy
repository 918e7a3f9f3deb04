/** Failure-compatible helper datatypes shared by the stores. */
module Wrappers {

  /** A value that may be absent (a `null` / `undefined` in the source). */
  datatype Option<+T> = None | Some(value: T)

  /** The outcome of an operation that returns nothing but may raise an error. */
  datatype Outcome<+E> = Done | Failed(error: E)

  /** The outcome of an operation that returns a value or raises an error. */
  datatype Result<+T, +E> = Ok(value: T) | Err(error: E)
}
