/** Option and Result datatypes shared by the tracing model. */
module Wrappers {

  /** A value that may be absent; stands for a nullable Java reference. */
  datatype Option<+T> = None | Some(value: T)

  /** The outcome of an operation that may throw: `Err` carries the exception that was raised. */
  datatype Result<+T, +E> = Ok(value: T) | Err(error: E)
}
