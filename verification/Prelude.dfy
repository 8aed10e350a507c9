/** Types shared by every module of the project. */
module Prelude {

  datatype Option<+T> = None | Some(value: T)

  datatype Result<+T, +E> = Ok(value: T) | Err(error: E)

  /** A party's part in the X3DH handshake of a session. */
  datatype Role = Initiator | Responder

  const U32_MAX: int := 0xFFFF_FFFF
  const U64_MAX: int := 0xFFFF_FFFF_FFFF_FFFF

  type U16 = n: int | 0 <= n <= 0xFFFF
  type U32 = n: int | 0 <= n <= 0xFFFF_FFFF
  type U64 = n: int | 0 <= n <= 0xFFFF_FFFF_FFFF_FFFF

  /** A `u32` increment as a release build performs it. */
  function Increment32(n: U32): U32 {
    if n == U32_MAX then 0 else n + 1
  }
}
