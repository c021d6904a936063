/** Plain datatypes standing in for Rust's `Option` and `Result`. */
module Wrappers {

  datatype Option<+T> = None | Some(value: T)

  /** `Success` is Rust's `Ok`, `Failure` is Rust's `Err` (or a panic, where noted). */
  datatype Result<+R, +E> = Success(value: R) | Failure(error: E)
}
