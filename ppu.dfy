/** The PPU's memory side (src/ppu/ppu.rs): nametable mirroring, the
    PPUDATA port with its one-byte read buffer, the palette, OAM and the
    register writes the CPU makes.

    `AddrRegister` and `ScrollRegister` are not part of this model.  The
    PPU is generic over their state (`A`, `S`) and is given the operations
    it calls on them (`get`, `increment`, `update`, `write`) when it is
    built.  A `panic!` of the source (an explicit one or an index out of
    bounds) is an `Err` or `Fail`. */
module Ppu {
  import opened Bits
  import opened Outcomes
  import opened Control
  import opened Mask
  import opened Status

  /** The cartridge's nametable arrangement.  Only `Vertical` and
      `Horizontal` are matched by `mirror_vram_addr`; `FourScreen` stands
      for every other arrangement, which reaches its default arm. */
  datatype Mirroring = Vertical | Horizontal | FourScreen

  /** `addr & 0b10111111111111` (0x2FFF): bits 0-11 and bit 13 of the
      address, which folds 0x3000-0x3EFF onto 0x2000-0x2EFF. */
  function MirrorMask(addr: U16): (m: U16)
    ensures m <= 0x2FFF
  {
    addr % 0x1000 + (if (addr / 0x2000) % 2 == 1 then 0x2000 else 0)
  }

  /** The addresses whose masked form lies in the nametable space
      0x2000-0x2FFF: `mirror_vram_addr` subtracts 0x2000 from the masked
      address, which underflows for every other address. */
  predicate InVramSpace(addr: U16) {
    MirrorMask(addr) >= 0x2000
  }

  /** `mirror_vram_addr`: the index into the 2 KiB `vram` that a nametable
      address reaches.  The masked address less 0x2000 is split into four
      1 KiB nametables; vertical mirroring maps tables 2 and 3 onto 0 and
      1, horizontal mirroring maps 1 onto 0 and 3 onto 2 and puts 2 where
      1 was.  An index keeps its offset inside its nametable. */
  function MirrorVramAddr(mirroring: Mirroring, addr: U16): (r: U16)
    requires InVramSpace(addr)
    ensures r < 0x1000
    ensures mirroring != FourScreen ==> r < 0x800
    ensures r % 0x400 == (MirrorMask(addr) - 0x2000) % 0x400
  {
    var vramIndex := MirrorMask(addr) - 0x2000;
    var nameTable := vramIndex / 0x400;
    assert 0 <= nameTable <= 3 && (nameTable == 0 ==> vramIndex < 0x400) && (nameTable == 1 ==> vramIndex < 0x800);
    match mirroring
    case Vertical => if nameTable == 2 || nameTable == 3 then vramIndex - 0x800 else vramIndex
    case Horizontal =>
      if nameTable == 2 then vramIndex - 0x400
      else if nameTable == 1 then vramIndex - 0x400
      else if nameTable == 3 then vramIndex - 0x800
      else vramIndex
    case FourScreen => vramIndex
  }

  /** Every address of 0x2000-0x3EFF, the range PPUDATA reaches the
      nametables through, can be mirrored. */
  lemma NametableSpaceMirrors(addr: U16)
    requires 0x2000 <= addr <= 0x3EFF
    ensures InVramSpace(addr)
  {
  }

  /** 0x3000-0x3EFF is a copy of 0x2000-0x2EFF. */
  lemma UpperNametableCopy(mirroring: Mirroring, addr: U16)
    requires 0x3000 <= addr <= 0x3EFF
    ensures InVramSpace(addr) && InVramSpace(addr - 0x1000)
    ensures MirrorVramAddr(mirroring, addr) == MirrorVramAddr(mirroring, addr - 0x1000)
  {
    assert addr / 0x2000 == 1 && (addr - 0x1000) / 0x2000 == 1;
    assert addr % 0x1000 == addr - 0x3000 && (addr - 0x1000) % 0x1000 == addr - 0x3000;
    assert MirrorMask(addr) == MirrorMask(addr - 0x1000);
  }

  /** Vertical mirroring: nametables 0 and 2 share the first KiB of
      `vram`, 1 and 3 the second. */
  lemma VerticalLayout(addr: U16)
    requires InVramSpace(addr)
    ensures MirrorVramAddr(Vertical, addr) == (MirrorMask(addr) - 0x2000) % 0x800
  {
  }

  /** Horizontal mirroring: nametables 0 and 1 share the first KiB of
      `vram`, 2 and 3 the second. */
  lemma HorizontalLayout(addr: U16)
    requires InVramSpace(addr)
    ensures MirrorVramAddr(Horizontal, addr)
            == (MirrorMask(addr) - 0x2000) / 0x800 * 0x400 + (MirrorMask(addr) - 0x2000) % 0x400
  {
  }

  /** Every other arrangement leaves the index as it is, so nametables 2
      and 3 fall outside the 2 KiB `vram`. */
  lemma FourScreenLayout(addr: U16)
    requires InVramSpace(addr)
    ensures MirrorVramAddr(FourScreen, addr) == MirrorMask(addr) - 0x2000
  {
  }

  /** 0x3F10, 0x3F14, 0x3F18, 0x3F1C: the palette entries `write_to_data`
      redirects through `mirror_vram_addr`. */
  predicate IsPaletteMirror(addr: U16) {
    addr == 0x3F10 || addr == 0x3F14 || addr == 0x3F18 || addr == 0x3F1C
  }

  /** The palette-mirror arm of `write_to_data` as written: the index it
      computes is `mirror_vram_addr(addr - 0x10 - 0x3F00)`, and inside
      `mirror_vram_addr` the masked address less 0x2000 underflows (a panic)
      when the masked address is below 0x2000. */
  function PaletteMirrorIndexAsWritten(mirroring: Mirroring, addr: U16): (r: Result<U16>)
    requires IsPaletteMirror(addr)
    ensures r.Ok? <==> InVramSpace(addr - 0x10 - 0x3F00)
    ensures r.Ok? ==> r.value == MirrorVramAddr(mirroring, addr - 0x10 - 0x3F00)
  {
    var arg := addr - 0x10 - 0x3F00;
    if MirrorMask(arg) < 0x2000 then Err("attempt to subtract with overflow")
    else Ok(MirrorVramAddr(mirroring, arg))
  }


  /** The palette entry a PPUDATA write to 0x3F00-0x3F1F stores into, with
      the palette-mirror arm corrected to what it evidently means: 0x3F10,
      0x3F14, 0x3F18 and 0x3F1C share the entry of the address 0x10 below
      them (`add_mirror - 0x3F00`). */
  function PaletteIndex(addr: U16): (i: int)
    requires 0x3F00 <= addr < 0x3F20
    ensures 0 <= i < 32
    ensures IsPaletteMirror(addr) ==> i == addr - 0x3F10 && i % 4 == 0 && i < 0x10
    ensures !IsPaletteMirror(addr) ==> i == addr - 0x3F00
  {
    if IsPaletteMirror(addr) then addr - 0x10 - 0x3F00 else addr - 0x3F00
  }

  /** The byte behind the read buffer at an address below 0x3000: CHR ROM
      below 0x2000, a mirrored `vram` cell above. */
  function Fetch(chrRom: seq<U8>, vram: seq<U8>, mirroring: Mirroring, addr: U16): (r: Result<U8>)
    requires |vram| == 0x800 && addr <= 0x2FFF
    ensures addr <= 0x1FFF ==> (r.Ok? <==> addr < |chrRom|)
    ensures r.Ok? && addr <= 0x1FFF ==> r.value == chrRom[addr]
    ensures mirroring != FourScreen && 0x2000 <= addr ==> r == Ok(vram[MirrorVramAddr(mirroring, addr)])
    ensures mirroring == FourScreen && 0x2000 <= addr ==>
              (r.Ok? <==> MirrorVramAddr(mirroring, addr) < 0x800)
              && (r.Ok? ==> r.value == vram[MirrorVramAddr(mirroring, addr)])
  {
    if addr <= 0x1FFF then
      if addr < |chrRom| then Ok(chrRom[addr]) else Err("index out of bounds")
    else
      var i := MirrorVramAddr(mirroring, addr);
      if i < |vram| then Ok(vram[i]) else Err("index out of bounds")
  }

  /** A PPUDATA read: what it returns and what the buffer holds after. */
  datatype DataRead = DataRead(result: Result<U8>, buffer: U8)

  /** The match of `read_data` on the address before the increment: below
      0x3000 the read returns the buffer and refills it from `Fetch`; the
      palette is read directly and leaves the buffer alone; 0x3000-0x3EFF
      and addresses past 0x3FFF are errors. */
  function ReadPort(chrRom: seq<U8>, vram: seq<U8>, palette: seq<U8>, mirroring: Mirroring,
                    buffer: U8, addr: U16): (r: DataRead)
    requires |vram| == 0x800 && |palette| == 32
    ensures addr <= 0x2FFF && Fetch(chrRom, vram, mirroring, addr).Ok? ==>
              r == DataRead(Ok(buffer), Fetch(chrRom, vram, mirroring, addr).value)
    ensures 0x3F00 <= addr < 0x3F20 ==> r == DataRead(Ok(palette[addr - 0x3F00]), buffer)
    ensures r.result.Err? ==> r.buffer == buffer
    ensures r.result.Ok? <==> (addr <= 0x2FFF && Fetch(chrRom, vram, mirroring, addr).Ok?)
                              || 0x3F00 <= addr < 0x3F20
  {
    if addr <= 0x2FFF then
      match Fetch(chrRom, vram, mirroring, addr)
      case Ok(v) => DataRead(Ok(buffer), v)
      case Err(e) => DataRead(Err(e), buffer)
    else if addr <= 0x3EFF then DataRead(Err("Not expected to use addr space 0x3000..0x3EFF"), buffer)
    else if addr <= 0x3FFF then
      if addr - 0x3F00 < |palette| then DataRead(Ok(palette[addr - 0x3F00]), buffer)
      else DataRead(Err("index out of bounds"), buffer)
    else DataRead(Err("Unexpected access"), buffer)
  }

  /** The point of the buffer: a read below 0x3000 delivers the byte at
      its address one read later, whatever address that next read uses
      (as long as it is buffered too). */
  lemma DelayedRead(chrRom: seq<U8>, vram: seq<U8>, palette: seq<U8>, mirroring: Mirroring,
                    buffer: U8, first: U16, second: U16)
    requires |vram| == 0x800 && |palette| == 32
    requires first <= 0x2FFF && Fetch(chrRom, vram, mirroring, first).Ok?
    requires second <= 0x2FFF && Fetch(chrRom, vram, mirroring, second).Ok?
    ensures ReadPort(chrRom, vram, palette, mirroring, ReadPort(chrRom, vram, palette, mirroring, buffer, first).buffer,
                     second).result
            == Fetch(chrRom, vram, mirroring, first)
  {
  }

  /** A PPUDATA write: its outcome and the new `vram` and palette. */
  datatype DataWrite = DataWrite(outcome: Outcome, vram: seq<U8>, palette: seq<U8>)

  /** The match of `write_to_data` on the address before the increment,
      as written: 0x2000-0x2FFF write the mirrored `vram` cell and the other
      addresses of 0x3F00-0x3F1F the palette entry `addr - 0x3F00`; the
      four palette mirrors take the arm of `PaletteMirrorIndexAsWritten`,
      and CHR ROM, 0x3000-0x3EFF, 0x3F20-0x3FFF and addresses past 0x3FFF
      are errors.  Every error changes nothing. */
  function WritePort(vram: seq<U8>, palette: seq<U8>, mirroring: Mirroring, addr: U16, value: U8): (w: DataWrite)
    requires |vram| == 0x800 && |palette| == 32
    ensures |w.vram| == 0x800 && |w.palette| == 32
    ensures w.outcome.Fail? ==> w.vram == vram && w.palette == palette
    ensures w.outcome == Pass && 0x2000 <= addr <= 0x2FFF ==>
              var i := MirrorVramAddr(mirroring, addr); i < 0x800 && w.vram == vram[i := value] && w.palette == palette
    ensures w.outcome == Pass && addr > 0x2FFF ==>
              0x3F00 <= addr < 0x3F20 && w.vram == vram && w.palette == palette[addr - 0x3F00 := value]
    ensures w.outcome == Pass <==> (0x2000 <= addr <= 0x2FFF && MirrorVramAddr(mirroring, addr) < 0x800)
                                   || (0x3F00 <= addr < 0x3F20 && !IsPaletteMirror(addr))
  {
    if addr <= 0x1FFF then DataWrite(Fail("Attempting to write to chr rom space"), vram, palette)
    else if addr <= 0x2FFF then
      var i := MirrorVramAddr(mirroring, addr);
      if i < |vram| then DataWrite(Pass, vram[i := value], palette)
      else DataWrite(Fail("index out of bounds"), vram, palette)
    else if addr <= 0x3EFF then DataWrite(Fail("Not expected to use addr space 0x3000..0x3EFF"), vram, palette)
    else if IsPaletteMirror(addr) then DataWrite(Fail(PaletteMirrorIndexAsWritten(mirroring, addr).message), vram, palette)
    else if addr <= 0x3FFF then
      if addr - 0x3F00 < |palette| then DataWrite(Pass, vram, palette[addr - 0x3F00 := value])
      else DataWrite(Fail("index out of bounds"), vram, palette)
    else DataWrite(Fail("Unexpected access"), vram, palette)
  }

  /** For each of the four addresses the argument is 0x00, 0x04, 0x08 or
      0x0C, so that arm always panics: a PPUDATA write to a palette mirror
      never reaches the palette and stops with the subtraction overflow. */
  lemma PaletteMirrorUnderflows(vram: seq<U8>, palette: seq<U8>, mirroring: Mirroring, addr: U16, value: U8)
    requires |vram| == 0x800 && |palette| == 32 && IsPaletteMirror(addr)
    ensures PaletteMirrorIndexAsWritten(mirroring, addr).Err?
    ensures WritePort(vram, palette, mirroring, addr, value)
            == DataWrite(Fail("attempt to subtract with overflow"), vram, palette)
  {
  }

  /** `write_to_data` with the palette-mirror arm corrected to what it
      evidently means: the four mirrors store into the entry `PaletteIndex`
      names; every other address behaves as `WritePort`. */
  function WritePortIntended(vram: seq<U8>, palette: seq<U8>, mirroring: Mirroring, addr: U16, value: U8): (w: DataWrite)
    requires |vram| == 0x800 && |palette| == 32
    ensures |w.vram| == 0x800 && |w.palette| == 32
    ensures !IsPaletteMirror(addr) ==> w == WritePort(vram, palette, mirroring, addr, value)
    ensures w.outcome == Pass && 0x3F00 <= addr ==>
              addr < 0x3F20 && w.vram == vram && w.palette == palette[PaletteIndex(addr) := value]
    ensures w.outcome == Pass <==> (0x2000 <= addr <= 0x2FFF && MirrorVramAddr(mirroring, addr) < 0x800)
                                   || 0x3F00 <= addr < 0x3F20
  {
    if IsPaletteMirror(addr) then DataWrite(Pass, vram, palette[PaletteIndex(addr) := value])
    else WritePort(vram, palette, mirroring, addr, value)
  }

  /** With the correction, a write to 0x3F10, 0x3F14, 0x3F18 or 0x3F1C has
      exactly the effect of a write to the address 0x10 below it, where the
      code as written fails and leaves the palette alone. */
  lemma PaletteMirrorWrites(vram: seq<U8>, palette: seq<U8>, mirroring: Mirroring, addr: U16, value: U8)
    requires |vram| == 0x800 && |palette| == 32 && IsPaletteMirror(addr)
    ensures WritePortIntended(vram, palette, mirroring, addr, value)
            == WritePort(vram, palette, mirroring, addr - 0x10, value)
    ensures WritePortIntended(vram, palette, mirroring, addr, value).outcome == Pass
    ensures WritePort(vram, palette, mirroring, addr, value).outcome.Fail?
  {
  }

  /** A byte written to a nametable cell comes back from a read of any
      address that mirrors onto the same cell, one read later. */
  lemma WriteThenRead(chrRom: seq<U8>, vram: seq<U8>, palette: seq<U8>, mirroring: Mirroring,
                      written: U16, value: U8, read: U16, buffer: U8, next: U16)
    requires |vram| == 0x800 && |palette| == 32
    requires 0x2000 <= written <= 0x2FFF && 0x2000 <= read <= 0x2FFF
    requires WritePort(vram, palette, mirroring, written, value).outcome == Pass
    requires MirrorVramAddr(mirroring, read) == MirrorVramAddr(mirroring, written)
    requires next <= 0x2FFF && Fetch(chrRom, WritePort(vram, palette, mirroring, written, value).vram, mirroring, next).Ok?
    ensures var w := WritePort(vram, palette, mirroring, written, value);
            ReadPort(chrRom, w.vram, w.palette, mirroring, ReadPort(chrRom, w.vram, w.palette, mirroring, buffer, read).buffer,
                     next).result == Ok(value)
  {
    var w := WritePort(vram, palette, mirroring, written, value);
    var i := MirrorVramAddr(mirroring, written);
    assert Fetch(chrRom, w.vram, mirroring, read) == Ok(value);
    DelayedRead(chrRom, w.vram, w.palette, mirroring, buffer, read, next);
  }

  /** With horizontal mirroring a write to nametable 0 is seen through
      nametable 1, and with vertical mirroring through nametable 2. */
  lemma MirroredNametables(offset: int)
    requires 0 <= offset < 0x400
    ensures MirrorVramAddr(Horizontal, 0x2400 + offset) == MirrorVramAddr(Horizontal, 0x2000 + offset)
    ensures MirrorVramAddr(Vertical, 0x2800 + offset) == MirrorVramAddr(Vertical, 0x2000 + offset)
    ensures MirrorVramAddr(Horizontal, 0x2800 + offset) != MirrorVramAddr(Horizontal, 0x2000 + offset)
    ensures MirrorVramAddr(Vertical, 0x2400 + offset) != MirrorVramAddr(Vertical, 0x2000 + offset)
  {
    NametableMask(0x2000 + offset);
    NametableMask(0x2400 + offset);
    NametableMask(0x2800 + offset);
  }

  /** Addresses of 0x2000-0x2FFF are their own masked form. */
  lemma NametableMask(addr: U16)
    requires 0x2000 <= addr <= 0x2FFF
    ensures MirrorMask(addr) == addr && InVramSpace(addr)
  {
  }

  /** The source's `PPU` struct.  `chr_rom` and the mirroring are fixed
      when it is built; the 32-byte palette, 2 KiB `vram` and 256-byte OAM
      are arrays written in place. */
  class PPU<A, S> {
    const chrRom: seq<U8>
    const palette: array<U8>
    const vram: array<U8>
    const oamData: array<U8>
    var oamAddr: U8
    const mirroring: Mirroring
    var internalDataBuffer: U8

    var addr: A
    const control: ControlRegister
    const mask: MaskRegister
    const status: StatusRegister
    var scroll: S

    /** `AddrRegister::get`, `increment` and `update`, and
        `ScrollRegister::write`. */
    const addrGet: A -> U16
    const addrIncrement: (A, U8) -> A
    const addrUpdate: (A, U8) -> A
    const scrollWrite: (S, U8) -> S

    /** The arrays have the source's sizes and are three different arrays. */
    ghost predicate Valid() {
      && palette.Length == 32 && vram.Length == 0x800 && oamData.Length == 0x100
      && palette != vram && palette != oamData && vram != oamData
    }

    /** `PPU::new`: palette, `vram`, OAM, `oam_addr` and the read buffer
        all zero, and the three flag registers clear. */
    constructor(chrRom: seq<U8>, mirroring: Mirroring, addr: A, scroll: S,
                addrGet: A -> U16, addrIncrement: (A, U8) -> A, addrUpdate: (A, U8) -> A,
                scrollWrite: (S, U8) -> S)
      ensures Valid()
      ensures fresh(palette) && fresh(vram) && fresh(oamData) && fresh(control) && fresh(mask) && fresh(status)
      ensures palette[..] == seq(32, _ => 0) && vram[..] == seq(0x800, _ => 0) && oamData[..] == seq(0x100, _ => 0)
      ensures oamAddr == 0 && internalDataBuffer == 0
      ensures control.bits == 0 && mask.bits == 0 && status.bits == 0
      ensures this.chrRom == chrRom && this.mirroring == mirroring && this.addr == addr && this.scroll == scroll
      ensures this.addrGet == addrGet && this.addrIncrement == addrIncrement && this.addrUpdate == addrUpdate
      ensures this.scrollWrite == scrollWrite
    {
      this.chrRom := chrRom;
      palette := new U8[32](_ => 0);
      vram := new U8[0x800](_ => 0);
      oamData := new U8[0x100](_ => 0);
      oamAddr := 0;
      this.mirroring := mirroring;
      internalDataBuffer := 0;
      this.addr := addr;
      control := new ControlRegister();
      mask := new MaskRegister();
      status := new StatusRegister();
      this.scroll := scroll;
      this.addrGet := addrGet;
      this.addrIncrement := addrIncrement;
      this.addrUpdate := addrUpdate;
      this.scrollWrite := scrollWrite;
    }

    /** `increment_vram_addr`: the address register moves on by the
        increment PPUCTRL selects. */
    method IncrementVramAddr()
      modifies this
      ensures addr == addrIncrement(old(addr), control.VramAddrIncrement())
      ensures oamAddr == old(oamAddr) && internalDataBuffer == old(internalDataBuffer) && scroll == old(scroll)
    {
      addr := addrIncrement(addr, control.VramAddrIncrement());
    }

    /** `read_oam_data`: the OAM byte at `oam_addr`; nothing changes. */
    method ReadOamData() returns (v: U8)
      requires Valid()
      ensures v == oamData[oamAddr]
    {
      v := oamData[oamAddr];
    }

    /** `read_data`: the port read of `ReadPort` at the address the register
        held before the call, which advances the address register once. */
    method ReadData() returns (r: Result<U8>)
      requires Valid()
      modifies this
      ensures DataRead(r, internalDataBuffer)
              == ReadPort(chrRom, vram[..], palette[..], mirroring, old(internalDataBuffer), addrGet(old(addr)))
      ensures addr == addrIncrement(old(addr), control.VramAddrIncrement())
      ensures oamAddr == old(oamAddr) && scroll == old(scroll)
    {
      var a := addrGet(addr);
      IncrementVramAddr();
      if a <= 0x1FFF {
        if a < |chrRom| {
          r := Ok(internalDataBuffer);
          internalDataBuffer := chrRom[a];
        } else {
          r := Err("index out of bounds");
        }
      } else if a <= 0x2FFF {
        var i := MirrorVramAddr(mirroring, a);
        if i < vram.Length {
          r := Ok(internalDataBuffer);
          internalDataBuffer := vram[i];
        } else {
          r := Err("index out of bounds");
        }
      } else if a <= 0x3EFF {
        r := Err("Not expected to use addr space 0x3000..0x3EFF");
      } else if a <= 0x3FFF {
        if a - 0x3F00 < palette.Length {
          r := Ok(palette[a - 0x3F00]);
        } else {
          r := Err("index out of bounds");
        }
      } else {
        r := Err("Unexpected access");
      }
    }

    /** `write_to_ppu_addr`: forwarded to the address register. */
    method WriteToPpuAddr(value: U8)
      modifies this
      ensures addr == addrUpdate(old(addr), value)
      ensures oamAddr == old(oamAddr) && internalDataBuffer == old(internalDataBuffer) && scroll == old(scroll)
    {
      addr := addrUpdate(addr, value);
    }

    /** `write_to_control`: PPUCTRL takes the byte. */
    method WriteToControl(value: U8)
      modifies control
      ensures control.bits == value as bv8
    {
      control.Update(value);
    }

    /** `write_to_mask`: PPUMASK takes the byte. */
    method WriteToMask(value: U8)
      modifies mask
      ensures mask.bits == value as bv8
    {
      mask.Update(value);
    }

    /** `write_to_scroll`: forwarded to the scroll register. */
    method WriteToScroll(value: U8)
      modifies this
      ensures scroll == scrollWrite(old(scroll), value)
      ensures addr == old(addr) && oamAddr == old(oamAddr) && internalDataBuffer == old(internalDataBuffer)
    {
      scroll := scrollWrite(scroll, value);
    }

    /** `read_status`: the bits of PPUSTATUS, as written by its setters or
        `update`. */
    function ReadStatus(): (b: U8)
      reads status
      ensures b as bv8 == status.bits
    {
      status.bits as int
    }

    /** `write_to_oam_addr`: `oam_addr` becomes the byte. */
    method WriteToOamAddr(value: U8)
      modifies this
      ensures oamAddr == value
      ensures addr == old(addr) && internalDataBuffer == old(internalDataBuffer) && scroll == old(scroll)
    {
      oamAddr := value;
    }

    /** `write_to_oam_data`: the byte goes to OAM at `oam_addr`, which then
        moves on by one, from 255 back to 0. */
    method WriteToOamData(value: U8)
      requires Valid()
      modifies this, oamData
      ensures oamData[..] == old(oamData[..])[old(oamAddr) := value]
      ensures oamAddr == (old(oamAddr) + 1) % 0x100
      ensures addr == old(addr) && internalDataBuffer == old(internalDataBuffer) && scroll == old(scroll)
    {
      oamData[oamAddr] := value;
      oamAddr := (oamAddr as int + 1) % 0x100;
    }

    /** `write_to_data`: the port write of `WritePort` at the address the
        register held before the call, which advances the address register
        once.  The four palette mirrors stop with the overflow of
        `PaletteMirrorIndexAsWritten` before anything is stored. */
    method WriteToData(value: U8) returns (o: Outcome)
      requires Valid()
      modifies this, vram, palette
      ensures var w := WritePort(old(vram[..]), old(palette[..]), mirroring, addrGet(old(addr)), value);
              o == w.outcome && vram[..] == w.vram && palette[..] == w.palette
      ensures addr == addrIncrement(old(addr), control.VramAddrIncrement())
      ensures oamAddr == old(oamAddr) && internalDataBuffer == old(internalDataBuffer) && scroll == old(scroll)
    {
      var a := addrGet(addr);
      IncrementVramAddr();
      if a <= 0x1FFF {
        o := Fail("Attempting to write to chr rom space");
      } else if a <= 0x2FFF {
        var i := MirrorVramAddr(mirroring, a);
        if i < vram.Length {
          vram[i] := value;
          o := Pass;
        } else {
          o := Fail("index out of bounds");
        }
      } else if a <= 0x3EFF {
        o := Fail("Not expected to use addr space 0x3000..0x3EFF");
      } else if IsPaletteMirror(a) {
        o := Fail(PaletteMirrorIndexAsWritten(mirroring, a).message);
      } else if a <= 0x3FFF {
        if a - 0x3F00 < palette.Length {
          palette[a - 0x3F00] := value;
          o := Pass;
        } else {
          o := Fail("index out of bounds");
        }
      } else {
        o := Fail("Unexpected access");
      }
    }

    /** `oam_dma`: the 256 bytes replace the whole of OAM
        (`copy_from_slice` needs a slice of exactly that length). */
    method OamDma(data: seq<U8>)
      requires Valid() && |data| == 0x100
      modifies oamData
      ensures oamData[..] == data
    {
      forall i | 0 <= i < 0x100 {
        oamData[i] := data[i];
      }
    }
  }
}
