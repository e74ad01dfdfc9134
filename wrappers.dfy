/** Option and result types used across the model, in place of Rust's
    Option<T>, Result<T, E> and Result<(), E>. */
module Wrappers {

  datatype Option<+T> = None | Some(value: T) {
    /** Rust's `unwrap_or`. */
    function UnwrapOr(default: T): T {
      match this
      case Some(v) => v
      case None => default
    }
  }

  /** A `Result<T, E>`. */
  datatype Result<+T, +E> = Ok(value: T) | Err(error: E)

  /** A `Result<(), E>`. */
  datatype Outcome<+E> = Pass | Fail(error: E)
}
