/** Option and Result values shared by the modules of the model. */
module Wrappers {

  /** An optional value (Rust's `Option`). */
  datatype Option<+T> = None | Some(value: T) {
    /** The value, or `default` when there is none (Rust's `unwrap_or`). */
    function GetOr(default: T): T {
      match this
      case Some(v) => v
      case None => default
    }
  }

  /** A value or an error; `Failure` also stands for a Rust panic. */
  datatype Result<+T, +E> = Success(value: T) | Failure(error: E)
}
