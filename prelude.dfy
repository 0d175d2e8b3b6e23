/** Types shared by every module of the alert relay. */
module Prelude {

  /** Rust's `Result`: either a value or an error. */
  datatype Result<+T, +E> = Ok(value: T) | Err(error: E)

  /** A Telegram chat identifier, Rust's `i64`. */
  newtype ChatId = x: int | -0x8000_0000_0000_0000 <= x < 0x8000_0000_0000_0000

  /** The raw bytes of an HTTP request body. */
  type Bytes = seq<bv8>
}
