/** The CPU bus of src/bus.rs: how a CPU address is decoded into 2 KiB of
    mirrored RAM, the eight PPU registers (mirrored every eight bytes),
    the APU and joypad ports and the cartridge's PRG ROM, and the cycle
    counter.

    The decoding is stated twice: as the functions `ReadTarget` and
    `WriteTarget`, which follow the `match` arms of `mem_read` and
    `mem_write` (the mirror arm re-dispatching on the folded address),
    and as the methods of the class `Bus`, which act on the RAM array and
    the PPU and are proved to do what the decoded target says.

    The joypad is not part of this model: the bus is generic over its
    state `J` and is given `Joypad::read` and `Joypad::write` as
    functions.  `PPU::tick`, `poll_nmi_status` and the game-loop callback
    are not part of this model either. */
module Bus {
  import opened Bits
  import opened Outcomes
  import opened Ppu

  const RamMirrorsEnd: U16 := 0x1FFF
  const PpuCtrl: U16 := 0x2000
  const PpuMask: U16 := 0x2001
  const PpuStatus: U16 := 0x2002
  const OamAddr: U16 := 0x2003
  const OamData: U16 := 0x2004
  const PpuScroll: U16 := 0x2005
  const PpuAddr: U16 := 0x2006
  const PpuData: U16 := 0x2007
  const OamDma: U16 := 0x4014
  const PpuRegistersMirrorsEnd: U16 := 0x3FFF

  /** `addr & 0b00000111_11111111`: the RAM cell a CPU address reaches. */
  function RamIndex(addr: U16): (i: int)
    ensures 0 <= i < 0x800
  {
    addr % 0x800
  }

  /** `addr & 0b00100000_00000111`: bit 13 and the three low bits. */
  function PpuRegisterMirror(addr: U16): (m: U16)
    ensures m % 8 == addr % 8
    ensures 0x2000 <= addr <= 0x3FFF ==> PpuCtrl <= m <= PpuData
  {
    (addr / 0x2000) % 2 * 0x2000 + addr % 8
  }

  /** `read_prg_rom`: the offset from 0x8000, folded into the first 16 KiB
      when the ROM is exactly 16 KiB long; an offset past the ROM's end is
      an index panic. */
  function ReadPrgRom(prgRom: seq<U8>, addr: U16): (r: Result<U8>)
    requires addr >= 0x8000
    ensures |prgRom| == 0x4000 ==> r == Ok(prgRom[(addr - 0x8000) % 0x4000])
    ensures |prgRom| != 0x4000 ==> (r.Ok? <==> addr - 0x8000 < |prgRom|)
    ensures |prgRom| != 0x4000 && r.Ok? ==> r.value == prgRom[addr - 0x8000]
  {
    var offset := addr - 0x8000;
    var index := if |prgRom| == 0x4000 && offset >= 0x4000 then offset % 0x4000 else offset;
    if index < |prgRom| then Ok(prgRom[index]) else Err("index out of bounds")
  }

  /** A 16 KiB ROM appears twice, at 0x8000 and at 0xC000. */
  lemma PrgRomMirrored(prgRom: seq<U8>, addr: U16)
    requires |prgRom| == 0x4000 && 0x8000 <= addr < 0xC000
    ensures ReadPrgRom(prgRom, addr) == ReadPrgRom(prgRom, addr + 0x4000) == Ok(prgRom[addr - 0x8000])
  {
  }

  /** What `mem_read` does with an address. */
  datatype ReadEffect =
    | RamCell(index: int)     // a byte of `cpu_vram`
    | ReadsZero               // a write-only PPU register, the APU, joypad 2
    | StatusPort              // `ppu.read_status()`
    | DataPort                // `ppu.read_data()`
    | OamDataPort             // `ppu.read_oam_data()`
    | JoypadPort              // `joypad.read()`
    | PrgRom(addr: U16)       // `read_prg_rom(addr)`
    | UnknownRead             // "Unknown memory access": reads 0

  /** The arms of `mem_read`, in order.  The PPU-register mirror arm
      re-dispatches on the folded address, as the source's recursive call
      does. */
  function ReadTarget(addr: U16): (t: ReadEffect)
    ensures t.RamCell? <==> addr <= RamMirrorsEnd
    ensures t.RamCell? ==> t.index == addr % 0x800
    ensures t.PrgRom? <==> addr >= 0x8000
    ensures t.PrgRom? ==> t.addr == addr
    decreases if 0x2008 <= addr <= PpuRegistersMirrorsEnd then 1 else 0
  {
    if addr <= RamMirrorsEnd then RamCell(RamIndex(addr))
    else if addr == PpuCtrl || addr == PpuMask || addr == OamAddr || addr == PpuScroll
            || addr == PpuAddr || addr == OamDma then ReadsZero
    else if addr == PpuStatus then StatusPort
    else if addr == PpuData then DataPort
    else if addr == OamData then OamDataPort
    else if addr <= PpuRegistersMirrorsEnd then ReadTarget(PpuRegisterMirror(addr))
    else if 0x4000 <= addr <= 0x4015 then ReadsZero
    else if addr == 0x4016 then JoypadPort
    else if addr == 0x4017 then ReadsZero
    else if addr >= 0x8000 then PrgRom(addr)
    else UnknownRead
  }

  /** What `mem_write` does with an address. */
  datatype WriteEffect =
    | RamStore(index: int)    // a byte of `cpu_vram`
    | ControlPort             // `ppu.write_to_control`
    | MaskPort                // `ppu.write_to_mask`
    | StatusIgnored           // PPUSTATUS: nothing happens
    | AddrPort                // `ppu.write_to_ppu_addr`
    | ScrollPort              // `ppu.write_to_scroll`
    | OamAddrPort             // `ppu.write_to_oam_addr`
    | OamDataStore            // `ppu.write_to_oam_data`
    | DataStore               // `ppu.write_to_data`
    | DmaPort                 // `ppu.oam_dma` of a RAM page
    | Ignored                 // the APU and joypad 2
    | JoypadStore             // `joypad.write`
    | RomWrite                // a panic: the cartridge ROM is read-only
    | UnknownWrite            // "Unknown memory access": nothing happens

  /** The arms of `mem_write`, in order, the mirror arm re-dispatching on
      the folded address. */
  function WriteTarget(addr: U16): (t: WriteEffect)
    ensures t.RamStore? <==> addr <= RamMirrorsEnd
    ensures t.RamStore? ==> t.index == addr % 0x800
    ensures t == RomWrite <==> addr >= 0x8000
    decreases if 0x2008 <= addr <= PpuRegistersMirrorsEnd then 1 else 0
  {
    if addr <= RamMirrorsEnd then RamStore(RamIndex(addr))
    else if addr == PpuCtrl then ControlPort
    else if addr == PpuMask then MaskPort
    else if addr == PpuStatus then StatusIgnored
    else if addr == PpuAddr then AddrPort
    else if addr == PpuScroll then ScrollPort
    else if addr == OamAddr then OamAddrPort
    else if addr == OamData then OamDataStore
    else if addr == PpuData then DataStore
    else if addr <= PpuRegistersMirrorsEnd then WriteTarget(PpuRegisterMirror(addr))
    else if addr == OamDma then DmaPort
    else if (0x4000 <= addr <= 0x4013) || addr == 0x4015 then Ignored
    else if addr == 0x4016 then JoypadStore
    else if addr == 0x4017 then Ignored
    else if addr >= 0x8000 then RomWrite
    else UnknownWrite
  }

  /** RAM occupies 0x0000-0x1FFF four times over: an address reaches cell
      `addr % 0x800`, for reads and writes alike, so addresses 0x800 apart
      share a cell. */
  lemma RamMirrored(addr: U16)
    requires addr <= RamMirrorsEnd
    ensures ReadTarget(addr) == RamCell(addr % 0x800) && WriteTarget(addr) == RamStore(addr % 0x800)
    ensures addr + 0x800 <= RamMirrorsEnd ==> ReadTarget(addr + 0x800) == ReadTarget(addr)
  {
  }

  /** Each of 0x2008-0x3FFF behaves as the register among 0x2000-0x2007 with
      the same three low bits, for reads and writes alike. */
  lemma PpuRegistersMirrored(addr: U16)
    requires 0x2008 <= addr <= PpuRegistersMirrorsEnd
    ensures ReadTarget(addr) == ReadTarget(0x2000 + addr % 8)
    ensures WriteTarget(addr) == WriteTarget(0x2000 + addr % 8)
  {
  }

  /** The reads that give 0 without touching any device are exactly those
      of PPUCTRL, PPUMASK, OAMADDR, PPUSCROLL, PPUADDR and their mirrors,
      of 0x4000-0x4015 (the APU and OAMDMA) and of 0x4017. */
  lemma ReadsZeroExactly(addr: U16)
    ensures ReadTarget(addr) == ReadsZero <==>
              (0x2000 <= addr <= 0x3FFF && addr % 8 in {0, 1, 3, 5, 6})
              || (0x4000 <= addr <= 0x4015) || addr == 0x4017
  {
    if 0x2008 <= addr <= 0x3FFF {
      PpuRegistersMirrored(addr);
    }
  }

  /** Every address of the PPU-register window reaches one of the eight
      registers: it never falls through to RAM, the APU or the ROM. */
  lemma PpuWindowReachesRegisters(addr: U16)
    requires 0x2000 <= addr <= 0x3FFF
    ensures ReadTarget(addr) in {ReadsZero, StatusPort, DataPort, OamDataPort}
    ensures WriteTarget(addr) in {ControlPort, MaskPort, StatusIgnored, AddrPort, ScrollPort,
                                  OamAddrPort, OamDataStore, DataStore}
  {
    if addr >= 0x2008 {
      PpuRegistersMirrored(addr);
    }
  }

  /** The slice `&cpu_vram[start..end]` that a write of `page` to OAMDMA
      hands to `oam_dma`: `start` is `page << 8` and `end` is
      `page << 8 | 0xFF`, so it runs past the 2 KiB RAM from page 8 on, and
      it is 255 bytes long where `oam_dma`'s `copy_from_slice` needs 256. */
  function DmaTransfer(ram: seq<U8>, page: U8): (o: Outcome)
    requires |ram| == 0x800
  {
    var start := page * 0x100;
    var end := page * 0x100 + 0xFF;
    if end > |ram| then Fail("range end index out of range for slice")
    else if end - start != 0x100 then Fail("source slice length does not match destination slice length")
    else Pass
  }

  /** So a write to OAMDMA panics, whatever page it names. */
  lemma DmaTransferAlwaysFails(ram: seq<U8>, page: U8)
    requires |ram| == 0x800
    ensures DmaTransfer(ram, page).Fail?
  {
  }

  /** The transfer the OAMDMA arm evidently means, `&cpu_vram[start..=end]`:
      the whole 256-byte page `page`, which `oam_dma` can copy, for the eight
      pages inside the RAM; the slice is still out of range from page 8 on. */
  function DmaPageIntended(ram: seq<U8>, page: U8): (r: Result<seq<U8>>)
    requires |ram| == 0x800
    ensures r.Ok? <==> page < 8
    ensures r.Ok? ==> |r.value| == 0x100
    ensures r.Ok? ==> forall i :: 0 <= i < 0x100 ==> r.value[i] == ram[page * 0x100 + i]
  {
    var start := page * 0x100;
    var end := page * 0x100 + 0xFF;
    if end >= |ram| then Err("range end index out of range for slice")
    else Ok(ram[start..end + 1])
  }

  /** The source's `Bus`: 2 KiB of CPU RAM written in place, the PRG ROM,
      the PPU, the joypad state and the cycle counter. */
  class Bus<A, S, J> {
    const cpuVram: array<U8>
    const prgRom: seq<U8>
    const ppu: PPU<A, S>
    var joypad: J
    var cycles: nat

    /** `Joypad::read` (which moves the joypad on to its next button) and
        `Joypad::write`. */
    const joypadRead: J -> (J, U8)
    const joypadWrite: (J, U8) -> J

    ghost predicate Valid()
      reads this
    {
      && cpuVram.Length == 0x800 && ppu.Valid()
      && cpuVram != ppu.vram && cpuVram != ppu.palette && cpuVram != ppu.oamData
    }

    /** `Bus::new`: RAM cleared, the counter at zero. */
    constructor(prgRom: seq<U8>, ppu: PPU<A, S>, joypad: J,
                joypadRead: J -> (J, U8), joypadWrite: (J, U8) -> J)
      requires ppu.Valid()
      ensures Valid() && fresh(cpuVram)
      ensures cpuVram[..] == seq(0x800, _ => 0) && cycles == 0
      ensures this.prgRom == prgRom && this.ppu == ppu && this.joypad == joypad
      ensures this.joypadRead == joypadRead && this.joypadWrite == joypadWrite
    {
      cpuVram := new U8[0x800](_ => 0);
      this.prgRom := prgRom;
      this.ppu := ppu;
      this.joypad := joypad;
      cycles := 0;
      this.joypadRead := joypadRead;
      this.joypadWrite := joypadWrite;
    }

    /** The counter part of `tick`: `cycles` grows by exactly the argument.
        `cycles * 3`, the PPU's share, is computed in `u8`: from 86 cycles
        on the multiplication overflows and `tick` panics, after the counter
        has already grown. */
    method Tick(c: U8) returns (o: Outcome)
      modifies this
      ensures cycles == old(cycles) + c
      ensures joypad == old(joypad)
      ensures o.Fail? <==> c * 3 > 0xFF
    {
      cycles := cycles + c;
      if c * 3 > 0xFF {
        o := Fail("attempt to multiply with overflow");
      } else {
        o := Pass;
      }
    }

    /** `mem_read`: the value the decoded target gives.  Only PPUDATA
        changes the PPU (its buffer and address, as `read_data` does), and
        only the joypad port changes the joypad. */
    method MemRead(addr: U16) returns (r: Result<U8>)
      requires Valid()
      modifies this, ppu
      ensures Valid()
      ensures match ReadTarget(addr)
              case RamCell(i) => r == Ok(cpuVram[i])
              case ReadsZero => r == Ok(0)
              case StatusPort => r == Ok(ppu.ReadStatus())
              case DataPort =>
                DataRead(r, ppu.internalDataBuffer)
                == ReadPort(ppu.chrRom, ppu.vram[..], ppu.palette[..], ppu.mirroring,
                            old(ppu.internalDataBuffer), ppu.addrGet(old(ppu.addr)))
              case OamDataPort => r == Ok(ppu.oamData[ppu.oamAddr])
              case JoypadPort => r == Ok(joypadRead(old(joypad)).1) && joypad == joypadRead(old(joypad)).0
              case PrgRom(a) => r == ReadPrgRom(prgRom, a)
              case UnknownRead => r == Ok(0)
      ensures ReadTarget(addr) != JoypadPort ==> joypad == old(joypad)
      ensures ReadTarget(addr) == DataPort ==>
                ppu.addr == ppu.addrIncrement(old(ppu.addr), ppu.control.VramAddrIncrement())
      ensures ReadTarget(addr) != DataPort ==>
                ppu.addr == old(ppu.addr) && ppu.internalDataBuffer == old(ppu.internalDataBuffer)
      ensures ppu.oamAddr == old(ppu.oamAddr) && ppu.scroll == old(ppu.scroll) && cycles == old(cycles)
      decreases if 0x2008 <= addr <= PpuRegistersMirrorsEnd then 1 else 0
    {
      if addr <= RamMirrorsEnd {
        r := Ok(cpuVram[RamIndex(addr)]);
      } else if addr == PpuCtrl || addr == PpuMask || addr == OamAddr || addr == PpuScroll
                || addr == PpuAddr || addr == OamDma {
        r := Ok(0);
      } else if addr == PpuStatus {
        r := Ok(ppu.ReadStatus());
      } else if addr == PpuData {
        r := ppu.ReadData();
      } else if addr == OamData {
        var v := ppu.ReadOamData();
        r := Ok(v);
      } else if addr <= PpuRegistersMirrorsEnd {
        r := MemRead(PpuRegisterMirror(addr));
      } else if 0x4000 <= addr <= 0x4015 {
        r := Ok(0);
      } else if addr == 0x4016 {
        var next := joypadRead(joypad);
        joypad := next.0;
        r := Ok(next.1);
      } else if addr == 0x4017 {
        r := Ok(0);
      } else if addr >= 0x8000 {
        r := ReadPrgRom(prgRom, addr);
      } else {
        r := Ok(0);
      }
    }

    /** `mem_write`: what the decoded target does with the byte.  A RAM
        write changes exactly one cell; the PPU ports forward to the PPU's
        own writes; PPUSTATUS, the APU, joypad 2 and unmapped addresses
        change nothing; ROM and OAMDMA writes panic. */
    method MemWrite(addr: U16, data: U8) returns (o: Outcome)
      requires Valid()
      modifies this, cpuVram, ppu, ppu.vram, ppu.palette, ppu.oamData, ppu.control, ppu.mask
      ensures Valid()
      ensures o.Fail? <==> WriteTarget(addr) in {RomWrite, DmaPort}
                           || (WriteTarget(addr) == DataStore
                               && WritePort(old(ppu.vram[..]), old(ppu.palette[..]), ppu.mirroring,
                                            ppu.addrGet(old(ppu.addr)), data).outcome.Fail?)
      ensures match WriteTarget(addr)
              case RamStore(i) => cpuVram[..] == old(cpuVram[..])[i := data]
              case _ => cpuVram[..] == old(cpuVram[..])
      ensures WriteTarget(addr) == ControlPort ==> ppu.control.bits == data as bv8
      ensures WriteTarget(addr) != ControlPort ==> ppu.control.bits == old(ppu.control.bits)
      ensures WriteTarget(addr) == MaskPort ==> ppu.mask.bits == data as bv8
      ensures WriteTarget(addr) != MaskPort ==> ppu.mask.bits == old(ppu.mask.bits)
      ensures match WriteTarget(addr)
              case AddrPort => ppu.addr == ppu.addrUpdate(old(ppu.addr), data)
              case DataStore => ppu.addr == ppu.addrIncrement(old(ppu.addr), ppu.control.VramAddrIncrement())
              case _ => ppu.addr == old(ppu.addr)
      ensures WriteTarget(addr) == ScrollPort ==> ppu.scroll == ppu.scrollWrite(old(ppu.scroll), data)
      ensures WriteTarget(addr) != ScrollPort ==> ppu.scroll == old(ppu.scroll)
      ensures match WriteTarget(addr)
              case OamAddrPort => ppu.oamAddr == data && ppu.oamData[..] == old(ppu.oamData[..])
              case OamDataStore =>
                ppu.oamData[..] == old(ppu.oamData[..])[old(ppu.oamAddr) := data]
                && ppu.oamAddr == (old(ppu.oamAddr) + 1) % 0x100
              case _ => ppu.oamAddr == old(ppu.oamAddr) && ppu.oamData[..] == old(ppu.oamData[..])
      ensures WriteTarget(addr) == DataStore ==>
                var w := WritePort(old(ppu.vram[..]), old(ppu.palette[..]), ppu.mirroring,
                                   ppu.addrGet(old(ppu.addr)), data);
                ppu.vram[..] == w.vram && ppu.palette[..] == w.palette
      ensures WriteTarget(addr) != DataStore ==>
                ppu.vram[..] == old(ppu.vram[..]) && ppu.palette[..] == old(ppu.palette[..])
      ensures ppu.internalDataBuffer == old(ppu.internalDataBuffer) && cycles == old(cycles)
      ensures joypad == if WriteTarget(addr) == JoypadStore then joypadWrite(old(joypad), data) else old(joypad)
      decreases if 0x2008 <= addr <= PpuRegistersMirrorsEnd then 1 else 0
    {
      if addr <= RamMirrorsEnd {
        cpuVram[RamIndex(addr)] := data;
        o := Pass;
      } else if addr == PpuCtrl {
        ppu.WriteToControl(data);
        o := Pass;
      } else if addr == PpuMask {
        ppu.WriteToMask(data);
        o := Pass;
      } else if addr == PpuStatus {
        o := Pass;
      } else if addr == PpuAddr {
        ppu.WriteToPpuAddr(data);
        o := Pass;
      } else if addr == PpuScroll {
        ppu.WriteToScroll(data);
        o := Pass;
      } else if addr == OamAddr {
        ppu.WriteToOamAddr(data);
        o := Pass;
      } else if addr == OamData {
        ppu.WriteToOamData(data);
        o := Pass;
      } else if addr == PpuData {
        o := ppu.WriteToData(data);
      } else if addr <= PpuRegistersMirrorsEnd {
        o := MemWrite(PpuRegisterMirror(addr), data);
      } else if addr == OamDma {
        DmaTransferAlwaysFails(cpuVram[..], data);
        o := DmaTransfer(cpuVram[..], data);
      } else if (0x4000 <= addr <= 0x4013) || addr == 0x4015 {
        o := Pass;
      } else if addr == 0x4016 {
        joypad := joypadWrite(joypad, data);
        o := Pass;
      } else if addr == 0x4017 {
        o := Pass;
      } else if addr >= 0x8000 {
        o := Fail("Attempting to write to Cartridge ROM space");
      } else {
        o := Pass;
      }
    }
  }
}
