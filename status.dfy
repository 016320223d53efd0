/** PPUSTATUS, the PPU's status register (src/ppu/registers/status.rs),
    read through address 0x2002. */
module Status {
  import opened Bits

  /** Bit 7: vertical blank has started. */
  const VerticalBlank: bv8 := 0x80
  /** Bit 6: a non-transparent pixel of sprite 0 overlapped the
      background. */
  const Sprite0Hit: bv8 := 0x40
  /** Bit 5: more than eight sprites on a scanline. */
  const SpriteOverflow: bv8 := 0x20
  /** Bits 4 to 0 are unused. */
  const Unused: bv8 := 0x1F

  /** bitflags' `set(flag, value)`: `flag`'s bits set when `value` holds,
      cleared otherwise. */
  function SetFlag(bits: bv8, flag: bv8, value: bool): bv8 {
    if value then bits | flag else bits & !flag
  }

  class StatusRegister {
    var bits: bv8

    /** `StatusRegister::new`: every flag clear. */
    constructor()
      ensures bits == 0
    {
      bits := 0;
    }

    /** `sprite_overflow`: bit 5. */
    function SpriteOverflowSet(): (b: bool)
      reads this
      ensures b <==> Bit(bits, 5)
    {
      bits & SpriteOverflow == SpriteOverflow
    }

    /** `set_sprite_overflow`: bit 5 becomes `value`; no other bit
        changes. */
    method SetSpriteOverflow(value: bool)
      modifies this
      ensures SpriteOverflowSet() == value
      ensures bits & !SpriteOverflow == old(bits) & !SpriteOverflow
    {
      bits := SetFlag(bits, SpriteOverflow, value);
    }

    /** `sprite_0_hit`: bit 6. */
    function Sprite0HitSet(): (b: bool)
      reads this
      ensures b <==> Bit(bits, 6)
    {
      bits & Sprite0Hit == Sprite0Hit
    }

    /** `set_sprite_0_hit`: bit 6 becomes `value`; no other bit changes. */
    method SetSprite0Hit(value: bool)
      modifies this
      ensures Sprite0HitSet() == value
      ensures bits & !Sprite0Hit == old(bits) & !Sprite0Hit
    {
      bits := SetFlag(bits, Sprite0Hit, value);
    }

    /** `in_vertical_blank`: bit 7. */
    function InVerticalBlank(): (b: bool)
      reads this
      ensures b <==> Bit(bits, 7)
    {
      bits & VerticalBlank == VerticalBlank
    }

    /** `set_vertical_blank`: bit 7 becomes `value`; no other bit
        changes. */
    method SetVerticalBlank(value: bool)
      modifies this
      ensures InVerticalBlank() == value
      ensures bits & !VerticalBlank == old(bits) & !VerticalBlank
    {
      bits := SetFlag(bits, VerticalBlank, value);
    }

    /** `update`: the register takes the written byte as its bits. */
    method Update(data: U8)
      modifies this
      ensures bits == data as bv8
    {
      bits := data as bv8;
    }
  }

  /** Setting a flag and then reading it back gives the value set, and the
      bits outside the flag are those before the set: the value-level
      statement of the three setters, for each of the three flags. */
  lemma SetThenGet(bits: bv8, value: bool)
    ensures (SetFlag(bits, VerticalBlank, value) & VerticalBlank == VerticalBlank) == value
    ensures (SetFlag(bits, Sprite0Hit, value) & Sprite0Hit == Sprite0Hit) == value
    ensures (SetFlag(bits, SpriteOverflow, value) & SpriteOverflow == SpriteOverflow) == value
    ensures SetFlag(bits, VerticalBlank, value) & !VerticalBlank == bits & !VerticalBlank
    ensures SetFlag(bits, Sprite0Hit, value) & !Sprite0Hit == bits & !Sprite0Hit
    ensures SetFlag(bits, SpriteOverflow, value) & !SpriteOverflow == bits & !SpriteOverflow
  {
  }

  /** Setting one flag leaves the other two reading as before. */
  lemma SettersIndependent(bits: bv8, value: bool)
    ensures SetFlag(bits, VerticalBlank, value) & Sprite0Hit == bits & Sprite0Hit
    ensures SetFlag(bits, VerticalBlank, value) & SpriteOverflow == bits & SpriteOverflow
    ensures SetFlag(bits, Sprite0Hit, value) & VerticalBlank == bits & VerticalBlank
    ensures SetFlag(bits, Sprite0Hit, value) & SpriteOverflow == bits & SpriteOverflow
    ensures SetFlag(bits, SpriteOverflow, value) & VerticalBlank == bits & VerticalBlank
    ensures SetFlag(bits, SpriteOverflow, value) & Sprite0Hit == bits & Sprite0Hit
  {
  }
}
