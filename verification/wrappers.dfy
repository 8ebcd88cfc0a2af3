/** Optional values and the outcome of operations that can panic. */
module Wrappers {

  /** Rust's `Option<T>`. */
  datatype Option<+T> = None | Some(value: T)

  /** The outcome of a Rust function that either returns a value or panics. */
  datatype Result<+T> = Ok(value: T) | Panic(message: string)

  /** Rust's `i32`. */
  newtype i32 = x: int | -0x8000_0000 <= x < 0x8000_0000
}
