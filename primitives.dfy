/** Rust's fixed-width unsigned integers and Option, used by the modules of every program. */
module Primitives {

  /** Rust `u32`. */
  newtype u32 = x: int | 0 <= x < 0x1_0000_0000

  /** Rust `usize` on a 64-bit target. */
  newtype usize = x: int | 0 <= x < 0x1_0000_0000_0000_0000

  /** Rust `Option<T>`; `None` is also the state of an uninitialised slot. */
  datatype Option<T> = None | Some(value: T)
}
