/** Rust's `Option` and `Result`: `Option` for a value that
    may be missing and `Result` for an operation that may fail. */
module Results {

  /** A value that may be absent (Rust's `Option`). */
  datatype Option<+T> = None | Some(value: T)

  /** The outcome of an operation that may fail (Rust's `Result`). */
  datatype Result<+T, +E> = Ok(value: T) | Err(error: E)
}
