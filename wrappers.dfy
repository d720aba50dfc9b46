/** Failure-carrying wrappers shared by every module of the model. */
module Wrappers {

  /** Rust's `Option<T>`. */
  datatype Option<+T> = None | Some(value: T)

  /** Rust's `Result<T, E>`. */
  datatype Result<+R, +E> = Success(value: R) | Failure(error: E)

  /** What a Rust call that may `panic!` (directly or through `expect`/`unwrap`) does:
      it either returns a value or unwinds with a message. */
  datatype Exit<+R> = Return(value: R) | Panic(message: string)
}
