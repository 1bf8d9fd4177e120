/** Failure-carrying datatypes shared by every module of the model. */
module Wrappers {

  /** The conventional optional value: Rust's `Option`. */
  datatype Option<+T> = None | Some(value: T)

  /** A value or an error: Rust's `Result`, and also the shape a `panic!` takes in this model. */
  datatype Result<+T, +E> = Ok(value: T) | Err(error: E)
}
