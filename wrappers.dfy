/** The optional and fallible results shared by the other modules. */
module Wrappers {
  /** Rust's `Option`. */
  datatype Option<T> = None | Some(value: T)

  /** Rust's `Result`, with the error carried as text. */
  datatype Result<T> = Ok(value: T) | Err(message: string)
}
