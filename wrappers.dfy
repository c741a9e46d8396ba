/** Failure-carrying values shared by the SPICE wrapper and the embedding loader. */
module Wrappers {

  /** An optional value; for numbers, None stands for "not a number". */
  datatype Option<+T> = None | Some(value: T)

  /** The outcome of an operation that either yields a value or raises an error. */
  datatype Result<+T, +E> = Success(value: T) | Failure(error: E)
}
