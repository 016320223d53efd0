/** PPUMASK, the PPU's rendering mask register
    (src/ppu/registers/mask.rs), written through address 0x2001. */
module Mask {
  import opened Bits

  const EmphBlue: bv8 := 0x80
  const EmphGreen: bv8 := 0x40
  const EmphRed: bv8 := 0x20
  /** Bit 4: draw sprites. */
  const ShowSpritesFlag: bv8 := 0x10
  /** Bit 3: draw the background. */
  const ShowBackgroundFlag: bv8 := 0x08
  const ShowSpritesLeft: bv8 := 0x04
  const ShowBackgroundLeft: bv8 := 0x02
  /** Bit 0: greyscale output. */
  const Greyscale: bv8 := 0x01

  /** bitflags' `contains(flag)`: every bit of `flag` is set in `bits`. */
  predicate Contains(bits: bv8, flag: bv8) {
    bits & flag == flag
  }

  class MaskRegister {
    var bits: bv8

    /** `MaskRegister::new`: every flag clear. */
    constructor()
      ensures bits == 0
    {
      bits := 0;
    }

    /** `disable_rendering`: sprites and background both switched off; the
        other six bits stay as they were. */
    method DisableRendering()
      modifies this
      ensures !ShowSprites() && !ShowBackground()
      ensures bits & 0xE7 == old(bits) & 0xE7
    {
      bits := bits & !ShowSpritesFlag;
      bits := bits & !ShowBackgroundFlag;
    }

    /** `show_sprites`: bit 4. */
    function ShowSprites(): (b: bool)
      reads this
      ensures b <==> Bit(bits, 4)
    {
      Contains(bits, ShowSpritesFlag)
    }

    /** `show_background`: bit 3. */
    function ShowBackground(): (b: bool)
      reads this
      ensures b <==> Bit(bits, 3)
    {
      Contains(bits, ShowBackgroundFlag)
    }

    /** `is_greyscale`: bit 0. */
    function IsGreyscale(): (b: bool)
      reads this
      ensures b <==> Bit(bits, 0)
    {
      Contains(bits, Greyscale)
    }

    /** `update`: the register takes the written byte as its bits. */
    method Update(data: U8)
      modifies this
      ensures bits == data as bv8
    {
      bits := data as bv8;
    }
  }

  /** After a write of `data` the three queries report bits 4, 3 and 0 of
      that byte. */
  lemma QueriesOfWrittenByte(r: MaskRegister, data: U8)
    requires r.bits == data as bv8
    ensures r.ShowSprites() <==> (data / 16) % 2 == 1
    ensures r.ShowBackground() <==> (data / 8) % 2 == 1
    ensures r.IsGreyscale() <==> data % 2 == 1
  {
  }
}
