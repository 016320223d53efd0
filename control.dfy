/** PPUCTRL, the PPU's control register (src/ppu/registers/control.rs):
    eight flag bits the CPU writes through address 0x2000. */
module Control {
  import opened Bits

  /** Bit 7: generate an NMI at the start of vertical blank. */
  const GenerateNmi: bv8 := 0x80
  /** Bit 6: PPU master/slave select. */
  const MasterSlaveSelect: bv8 := 0x40
  /** Bit 5: 8x16 sprites. */
  const SpriteSize: bv8 := 0x20
  /** Bit 4: background pattern table at 0x1000. */
  const BackgroundPatternAddr: bv8 := 0x10
  /** Bit 3: 8x8 sprite pattern table at 0x1000. */
  const SpritePatternAddr: bv8 := 0x08
  /** Bit 2: PPUDATA accesses advance the VRAM address by 32 (a row)
      instead of 1. */
  const VramAddIncrement: bv8 := 0x04
  /** Bits 1 and 0: the base nametable. */
  const Nametable2: bv8 := 0x02
  const Nametable1: bv8 := 0x01

  class ControlRegister {
    var bits: bv8

    /** `ControlRegister::new`: every flag clear. */
    constructor()
      ensures bits == 0
    {
      bits := 0;
    }

    /** `vram_addr_increment`: how far one PPUDATA access moves the VRAM
        address, 1 (across) when bit 2 is clear and 32 (down) when it is
        set. */
    function VramAddrIncrement(): (inc: U8)
      reads this
      ensures inc == 1 <==> !Bit(bits, 2)
      ensures inc == 32 <==> Bit(bits, 2)
    {
      if bits & VramAddIncrement != VramAddIncrement then 1 else 32
    }

    /** `update`: the register takes the written byte as its bits. */
    method Update(data: U8)
      modifies this
      ensures bits == data as bv8
    {
      bits := data as bv8;
    }
  }

  /** The increment depends on bit 2 alone: two registers that agree on it
      agree on the increment, whatever their other seven bits. */
  lemma IncrementOnlyReadsBit2(a: ControlRegister, b: ControlRegister)
    requires a.bits & VramAddIncrement == b.bits & VramAddIncrement
    ensures a.VramAddrIncrement() == b.VramAddrIncrement()
  {
  }

  /** Writing a byte to the register and asking for the increment gives
      the increment bit 2 of that byte selects. */
  lemma IncrementOfWrittenByte(r: ControlRegister, data: U8)
    requires r.bits == data as bv8
    ensures r.VramAddrIncrement() == if (data / 4) % 2 == 0 then 1 else 32
  {
  }
}
