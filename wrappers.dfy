/** Failure-carrying values shared by every module of the model. */
module Wrappers {

  /** A value that may be absent; `None` stands for JavaScript `undefined` or Python `None`. */
  datatype Option<+T> = None | Some(value: T)

  /** The outcome of an operation that returns a value or raises an error. */
  datatype Result<+T, +E> = Ok(value: T) | Err(error: E)

  /** The outcome of an operation that returns nothing or raises an error. */
  datatype Outcome<+E> = Pass | Fail(error: E)
}
