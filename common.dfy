/** Fixed-width integer types and the Option wrapper shared by every module. */
module Common {

  /** Rust's u8. */
  type byte = x: int | 0 <= x < 0x100

  /** Rust's u16. */
  type u16 = x: int | 0 <= x < 0x1_0000

  /** Rust's u32. */
  type u32 = x: int | 0 <= x < 0x1_0000_0000

  const MaxU16: int := 0xFFFF
  const MaxU32: int := 0xFFFF_FFFF

  datatype Option<+T> = None | Some(value: T)
}
