/** Types shared by the three interpreter stages. */
module Prelude {

  /** One more than the largest value of Rust's `u64`. */
  const U64_LIMIT: int := 0x1_0000_0000_0000_0000

  /** Rust's `u64`: variable indices, constants and stored values. */
  type U64 = x: int | 0 <= x < U64_LIMIT

  datatype Option<+T> = None | Some(value: T)

  /** Rust's `Result<T, E>`. */
  datatype Result<+T, +E> = Ok(value: T) | Err(error: E)
}
