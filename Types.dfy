/** Machine integer ranges of the Rust source and the failure-compatible wrappers shared by every module. */
module Types {

  /** Rust's `u8`: a kernel scan code or an X11 keycode. */
  type u8 = x: int | 0 <= x < 0x100

  /** Rust's `u32`: an X11 button number. */
  type u32 = x: int | 0 <= x < 0x1_0000_0000

  /** Rust's `u64`: an X11 time or delay in milliseconds. */
  type u64 = x: int | 0 <= x < 0x1_0000_0000_0000_0000

  /** Rust's `i32`: a screen coordinate or a screen dimension. */
  type i32 = x: int | -0x8000_0000 <= x < 0x8000_0000

  const I32Min: int := -0x8000_0000
  const I32Max: int := 0x7fff_ffff

  /** True when `x` fits in an `i32`, that is, when an `i32` addition yielding `x` does not overflow. */
  predicate InI32(x: int) {
    I32Min <= x <= I32Max
  }

  datatype Option<T> = None | Some(value: T)

  datatype Result<T, E> = Ok(value: T) | Err(error: E)
}
