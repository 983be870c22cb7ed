/** Failure-carrying values used for the exceptions the modelled Python code raises. */
module Wrappers {

  datatype Option<+T> = None | Some(value: T)

  /** The outcome of an operation that either yields a value or raises. */
  datatype Result<+T, +E> = Ok(value: T) | Err(error: E)

  /** The outcome of an operation that either returns normally or raises. */
  datatype Outcome<+E> = Pass | Fail(error: E)
}
