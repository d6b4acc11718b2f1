/** Failure-carrying values shared by every module of the model. */
module Wrappers {

  /** A value that may be absent: TypeScript's `T | undefined` or `T | null`. */
  datatype Option<+T> = None | Some(value: T)

  /** A computation that either yields a value or fails with an error. */
  datatype Result<+T, +E> = Ok(value: T) | Err(error: E)
}
