/** The two Rust standard-library sum types the library's signatures are written in. */
module Rust {

  /** `std::result::Result<T, E>` */
  datatype Result<+T, +E> = Ok(value: T) | Err(error: E)

  /** `std::option::Option<T>` */
  datatype Option<+T> = None | Some(value: T)
}
