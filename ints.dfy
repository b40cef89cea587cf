/** Machine integers of the crate and the two operations on them that the
    ability-modifier derivation relies on. */
module Ints {

  /** Rust's `u8`. */
  newtype uint8 = x: int | 0 <= x < 0x100

  /** Rust's `i8`. */
  newtype int8 = x: int | -0x80 <= x < 0x80

  /** Rust's `x as i8` for `x: u8`: the same eight bits read as two's complement. */
  function WrapToInt8(x: uint8): (r: int8)
    ensures (r as int - x as int) % 0x100 == 0
    ensures x < 0x80 ==> r as int == x as int
    ensures x >= 0x80 ==> r < 0
  {
    if x < 0x80 then x as int as int8 else (x as int - 0x100) as int8
  }

  /** Rust's `x >> 1` for `x: i8`: an arithmetic shift, which rounds toward
      negative infinity. */
  function ShiftRight1(x: int8): (r: int8)
    ensures 2 * r as int <= x as int <= 2 * r as int + 1
  {
    (x as int / 2) as int8
  }

  /** How far apart two integers are. */
  function Distance(a: int, b: int): nat
  {
    if a <= b then b - a else a - b
  }
}
