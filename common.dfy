/** Small value types shared by every module of the model. */
module Common {

  /** Rust's `Option<T>`. */
  datatype Option<+T> = None | Some(value: T)

  /** Rust's `Result<T, E>`. */
  datatype Result<+T, +E> = Ok(value: T) | Err(error: E)

  /** `serenity::Error`: why a webhook lookup or a post failed; opaque here. */
  datatype SerenityError = SerenityError

  const U64_LIMIT: int := 0x1_0000_0000_0000_0000

  /** Rust's `u8`. */
  type byte = x: int | 0 <= x < 0x100

  /** Rust's `u16`. */
  type uint16 = x: int | 0 <= x < 0x1_0000

  /** Rust's `u64`. */
  type uint64 = x: int | 0 <= x < U64_LIMIT
}
