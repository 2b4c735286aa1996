/** Option, Result and Outcome: the Rust `Option<T>`, `Result<T, E>` and `Result<(), E>`. */
module Wrappers {

  datatype Option<+T> = None | Some(value: T)

  datatype Result<+T, +E> = Success(value: T) | Failure(error: E)

  /** A result that carries no value on success (Rust `Result<(), E>`). */
  datatype Outcome<+E> = Pass | Fail(error: E)
}
