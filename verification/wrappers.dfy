/** Failure-carrying datatypes used in place of the exceptions the bucket model raises. */
module Wrappers {

  /** Either a value or the error that the operation raised instead of returning one. */
  datatype Result<+T, +E> = Ok(value: T) | Err(error: E)

  /** Success or failure of an operation that returns nothing. */
  datatype Outcome<+E> = Pass | Fail(error: E)
}
