/** Option and Result, the two failure-carrying wrappers the Rust and Python code use. */
module Wrappers {

  /** Rust's `Option<T>`; also Python's "value or nothing". */
  datatype Option<+T> = None | Some(value: T)

  /** Rust's `Result<T, E>`. */
  datatype Result<+T, +E> = Ok(value: T) | Err(error: E)
}
