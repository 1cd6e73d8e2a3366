/** Failure-carrying wrappers shared by the whole model. */
module Wrappers {

  /** An optional value (Rust's `Option`). */
  datatype Option<+T> = None | Some(value: T)

  /** Rust's `Result<(), E>`: success without a value, or an error. */
  datatype Outcome<+E> = Pass | Fail(error: E)

  /** Rust's `Result<T, E>`. */
  datatype Result<+T, +E> = Ok(value: T) | Err(error: E)
}
