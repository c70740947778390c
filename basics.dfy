/** Fixed-width integer types of the Rust source and the Option type used
    for its fallible calls. */
module Basics {

  /** A Rust `u8`. */
  type byte = x: int | 0 <= x < 0x100

  /** A Rust `u16`. */
  type u16 = x: int | 0 <= x < 0x1_0000

  /** A Rust `u64`. */
  type u64 = x: int | 0 <= x < 0x1_0000_0000_0000_0000

  datatype Option<+T> = None | Some(value: T)
}
