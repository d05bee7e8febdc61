/// Failure-carrying datatypes shared by every module of the model.
///
/// Rust distinguishes a recoverable error (`Result::Err`) from a panic
/// (`expect`, `panic!`); the model keeps the two apart: `Result` for the
/// former, `Run` for a computation that either completes or panics.
module Outcomes {

  /** Rust's `Option<T>`. */
  datatype Option<+T> = None | Some(value: T)

  /** Rust's `Result<T, String>`: the error carries the message the source builds. */
  datatype Result<+T> = Ok(value: T) | Err(error: string)

  /** A computation that either completes with a value or panics with a message. */
  datatype Run<+T> = Completed(value: T) | Panicked(message: string)
}
