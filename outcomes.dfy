/** Error-carrying results shared by every component of the model. */
module Outcomes {

  /** An optional value, as Go's nil references and Rust's Option are used here. */
  datatype Option<+T> = None | Some(value: T)

  /** A value or an error message, as Go's `(T, error)` pairs and Rust's `anyhow::Result<T>`. */
  datatype Result<+T> = Ok(value: T) | Err(msg: string)

  /**
   * The outcome of an operation that returns only an error (Go's `error`, Rust's
   * `Result<()>`), or Crash when the process panics instead of returning.
   */
  datatype Outcome = Pass | Fail(msg: string) | Crash
}
