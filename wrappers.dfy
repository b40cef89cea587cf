/** Failure-carrying results shared by the whole model. */
module Wrappers {

  /** Rust's `Option<T>`. */
  datatype Option<+T> = None | Some(value: T)

  /** Rust's `Result<T, &'static str>`: every fallible operation of the crate
      reports its failure as a fixed message. */
  datatype Result<+T> = Ok(value: T) | Err(error: string)
}
