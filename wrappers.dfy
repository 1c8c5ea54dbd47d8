/** The two-part success/error result, shaped like Rust's `std::result::Result`. */
module Wrappers {

  datatype Result<+T, +E> = Ok(value: T) | Err(error: E)
}
