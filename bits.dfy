/** Byte and word helpers shared by the CPU, bus, PPU and trace models.

    Rust's `u8` and `u16` are the numbers `U8` and `U16`.  The source's
    `wrapping_add` is `+` followed by `% 0x100` (or `% 0x1_0000`), so every
    wrap-around is written out where it happens, and a plain `+` that
    would overflow in Rust is visible as a result leaving the type.  The
    flag registers, whose every use is a bit operation, are `bv8` instead. */
module Bits {

  /** The values of a Rust `u8`. */
  type U8 = n: int | 0 <= n < 0x100

  /** The values of a Rust `u16`. */
  type U16 = n: int | 0 <= n < 0x1_0000

  /** `(hi as u16) << 8 | (lo as u16)`: the little-endian word made of two
      bytes. */
  function Word(lo: U8, hi: U8): (w: U16)
    ensures Lo(w) == lo && Hi(w) == hi
  {
    lo + 0x100 * hi
  }

  /** `(w & 0xFF) as u8`, the low byte of a word. */
  function Lo(w: U16): U8 {
    w % 0x100
  }

  /** `(w >> 8) as u8`, the high byte of a word. */
  function Hi(w: U16): U8 {
    w / 0x100
  }

  /** Splitting a word into its bytes and joining them again gives the word
      back. */
  lemma WordOfHalves(w: U16)
    ensures Word(Lo(w), Hi(w)) == w
  {
  }

  /** `a & b` on two bytes. */
  function And8(a: U8, b: U8): U8 {
    ((a as bv8) & (b as bv8)) as int
  }

  /** Bit `n` of a flag byte. */
  predicate Bit(b: bv8, n: nat)
    requires n < 8
  {
    b & (1 << n) != 0
  }
}
