# NES emulator core, modelled in Dafny

This project models the core of a small NES emulator written in Rust, together
with the helper script that grouped its opcode table. It covers:

- the 6502 CPU (`src/cpu.rs`). Its register file (A, X, Y, status, PC) sits
  over a flat 0xFFFF-byte memory. It has little-endian 16-bit reads and writes,
  the ten addressing modes, the Z/N flag update, five instructions (AND, LDA,
  STA, TAX, INX) and the fetch/dispatch loop, which stops at BRK.
- the opcode table (`src/opcodes.rs`): 151 `OpCode` records for the MOS 6502
  instruction set, and `OPCODES_MAP`, the code-to-entry map built from them.
  The table's own mislabels are kept: the EOR codes are tagged "CMP", 0x28 is
  tagged "CLV" and 0x98 is tagged "TXS".
- the CPU bus (`src/bus.rs`). It decodes addresses as follows:
  - 2 KiB of RAM, mirrored across 0x0000-0x1FFF;
  - the eight PPU registers, mirrored every 8 bytes across 0x2000-0x3FFF;
  - the joypad port;
  - PRG ROM, with 16 KiB mirroring.

  It also keeps the cycle counter.
- the PPU's memory side (`src/ppu/ppu.rs`): nametable mirroring, the delayed
  PPUDATA read buffer, palette and VRAM writes, OAM access, and the forwarding
  of the register writes. The three one-byte registers PPUCTRL, PPUMASK and
  PPUSTATUS (`src/ppu/registers/`) are modelled with them.
- the renderer (`src/render/mod.rs`). It covers attribute-table quadrants,
  palette slots and 2-bitplane pixel decoding. The background pass and the
  sprite pass draw into an abstract frame.
- the trace formatter (`src/trace.rs`), which prints one nestest-style line
  per instruction.
- `src/getopcodes.py`, which keeps the `OpCode::new` lines of a file, splits
  them on commas, groups field 0 by field 1, and prints each group.

## How the model is built

**Types and modules**
- Bytes and words are integers with explicit wrap-around (`Bits.U8`,
  `Bits.U16`). The flag registers, which the source only touches with bit
  operations, are `bv8`.
- Each core source file is one module.

**Panics**
- A Rust `panic!`, `unwrap` on `None`, a slice out of range or a debug-build
  arithmetic overflow becomes an error value: a `Result` `Err`, an `Outcome`
  `Fail`, or `Panicked(fault)` for the CPU.
- Where an operation does not model a panic, its `requires` excludes it. Such
  clauses are listed under "Left out".

**Code that changes state step by step** is a class whose methods are proved
equal to a functional specification:
- `Cpu.CPU` is proved against `Cpu.Step` and `Cpu.Execute`.
- `Ppu.PPU` is proved against `Ppu.ReadPort` and `Ppu.WritePort`.
- `Bus.Bus` is proved against `Bus.ReadTarget` and `Bus.WriteTarget`.
- The render loops are proved against `Render.BackgroundColour` and
  `Render.Layered`.
- The script's loops are proved against `GetOpcodes.GroupLines` and
  `GetOpcodes.ReportText`.

**Properties of the specifications** are proved as lemmas.

**Source tests.** All ten tests in `src/cpu.rs` and the tests in
`src/trace.rs` are restated as lemmas in `cpu_examples.dfy` and `trace_examples.dfy`.
`getopcodes_examples.dfy` shows the script on lines shaped like those of
`src/opcodes.rs`.

**Parts outside the model are parameters:**
- The address register, the scroll register and the joypad are generic
  values. Their operations are function parameters.
- The CPU helpers that the trace formatter calls, but that `src/cpu.rs` does
  not define, are fields of `Trace.TraceView`.

`OpCode::new` is the datatype constructor `Opcodes.OpCode`, so it stores its
five arguments unchanged by construction.

**Two places where the model follows the code to the letter:**
- `src/getopcodes.py:8` groups by the raw field 1. Quotes and spaces are
  stripped from the key only when the header is printed (line 11). So
  `"LDA"` and ` "LDA"` form two groups, both headed `// LDA`
  (`GetOpcodesExamples.TwoSpellings`).
- The trace line that `src/trace.rs:104-107` builds ends with ` TICKS:` and
  the bus's cycle count. The expected strings of the source's own tests lack
  this. The example lemmas state the line the code builds.

## Model

| member | source | states |
|---|---|---|
| Bits.Word | src/cpu.rs:59-65 | the little-endian word of two bytes has them as its low and high byte |
| Bits.WordOfHalves | src/cpu.rs:59-72 | splitting a word into bytes and rejoining them gives the word back |
| Cpu.PowerOn | src/cpu.rs:39-49 | `CPU::new`: every register and every memory byte is 0 |
| Cpu.WordAt | src/cpu.rs:59-65 | `mem_read_u16(p)` is `mem[p] \| mem[p+1] << 8` |
| Cpu.WithByte | src/cpu.rs:55-57 | `mem_write` sets one byte and changes nothing else |
| Cpu.WithWord | src/cpu.rs:67-72 | `mem_write_u16` puts the low byte at p and the high byte at p+1, nothing else changes |
| Cpu.ReadU16AfterWriteU16 | src/cpu.rs:59-72 | reading a word back after writing it gives the written value |
| Cpu.ZeroNegative | src/cpu.rs:208-224 | Z is set iff the result is 0, N iff its bit 7 is set, and the other six bits are unchanged |
| Cpu.SetNegative | src/cpu.rs:218-223 | N follows bit 7 of the result, other bits unchanged |
| Cpu.ZeroPageIndexed | src/cpu.rs:112-124 | ZeroPage_X/Y: operand byte plus index, modulo 256 |
| Cpu.AbsoluteIndexed | src/cpu.rs:128-140 | Absolute_X/Y: the operand word plus the index, modulo 65536 |
| Cpu.IndexedIndirect | src/cpu.rs:146-152 | Indirect_X: the pointer's two bytes are read from (base+X) and (base+X+1), each mod 256 |
| Cpu.ZeroPageWord | src/cpu.rs:156-160 | a zero-page pointer's two bytes come from ptr and (ptr+1) mod 256 |
| Cpu.IndirectIndexed | src/cpu.rs:155-163 | Indirect_Y: the zero-page word at the operand plus Y, mod 65536 |
| Cpu.OperandAddress | src/cpu.rs:93-171 | Immediate is PC, ZeroPage the operand byte, Absolute the operand word; zero-page modes stay below 0x100 |
| Cpu.ExecAnd | src/cpu.rs:174-178 | `and`: A becomes A AND the operand, the Z/N bits follow it, nothing else changes |
| Cpu.ExecLda | src/cpu.rs:181-187 | `lda`: A becomes the operand, the Z/N bits follow it, nothing else changes |
| Cpu.ExecSta | src/cpu.rs:203-206 | `sta`: the target byte becomes A, nothing else changes |
| Cpu.ExecTax | src/cpu.rs:190-193 | `tax`: X becomes A, the Z/N bits follow it, nothing else changes |
| Cpu.ExecInx | src/cpu.rs:196-201 | `inx`: X grows by one and 0xFF wraps to 0; the Z/N bits follow it, nothing else changes |
| Cpu.InxWraps | src/cpu.rs:196-201 | INX from 0xFF gives 0 with Z set and N clear |
| Cpu.Advance | src/cpu.rs:255 | PC grows by len-1 when that stays a u16 and len is not 0; otherwise the step panics with the state unchanged |
| Cpu.AfterReset | src/cpu.rs:74-79 | `reset`: A = X = status = 0, PC = the word at 0xFFFC, Y and memory untouched |
| Cpu.Loaded | src/cpu.rs:87-90 | `load`: the program is copied byte for byte to 0x8000 except where it reaches the reset vector, 0x8000 is written little-endian at 0xFFFC, nothing else changes |
| Cpu.ResetAfterLoad | src/cpu.rs:74-90 | `load` then `reset` starts at PC 0x8000 with A = X = status = 0 and Y untouched |
| Cpu.AndInMap | src/cpu.rs:235 | every AND code dispatched is in `OPCODES_MAP` under itself, with an addressing mode |
| Cpu.LdaInMap | src/cpu.rs:240 | every LDA code dispatched is in `OPCODES_MAP` under itself, with an addressing mode |
| Cpu.StaInMap | src/cpu.rs:245 | every STA code dispatched is in `OPCODES_MAP` under itself, with an addressing mode |
| Cpu.TaxInMap | src/cpu.rs:249 | 0xAA is in `OPCODES_MAP` |
| Cpu.InxInMap | src/cpu.rs:250 | 0xE8 is in `OPCODES_MAP` |
| Cpu.BrkInMap | src/cpu.rs:251 | 0x00 is in `OPCODES_MAP` |
| Cpu.OpcodesMapKeyed | src/opcodes.rs:354-360 | every entry of `OPCODES_MAP` is stored under its own code |
| Cpu.OpcodesMapCovers | src/cpu.rs:235-251 | every code the loop dispatches is in `OPCODES_MAP` |
| Cpu.OpcodesMapDecodes | src/cpu.rs:229-254 | `OPCODES_MAP` decodes every dispatched code with a length fitting its mode |
| Cpu.Step | src/cpu.rs:229-256 | one loop iteration: it panics on a missing map entry iff the byte at PC is not a key; it returns only on a byte whose entry is BRK, with PC one past it and nothing else changed |
| Cpu.Dispatch | src/cpu.rs:232-254 | the `match`: it returns iff the code is 0x00, hits `todo!` iff the code has no arm, and returning changes nothing |
| Cpu.Execute | src/cpu.rs:226-258 | the loop with at most `fuel` iterations: it ends other than still running only after at least one step, and when it returns the byte just below PC has BRK as its entry |
| Cpu.StepAdvancesPc | src/cpu.rs:229-255 | a step that carries on has executed an implemented opcode and advanced PC by exactly its `len` |
| Cpu.StepHaltsAtBrk | src/cpu.rs:251 | a step returns iff the opcode byte at PC is 0x00 (BRK) |
| Cpu.HaltedState | src/cpu.rs:229-251 | the step that returns at BRK changes nothing but PC, which is one past the BRK |
| Cpu.StepNotImplemented | src/cpu.rs:253 | a step hits `todo!` iff the opcode is in the map but not dispatched |
| Cpu.HaltedPastBrk | src/cpu.rs:251 | after a step returns, PC is one past a BRK byte |
| Cpu.ExecuteContinues | src/cpu.rs:228-256 | a step that carries on is followed by the rest of the loop |
| Cpu.ExecuteStops | src/cpu.rs:228-256 | a step that returns or panics ends the loop with that step's result |
| Cpu.ExecuteHaltsAtBrk | src/cpu.rs:226-258 | whenever the loop returns, it has just executed a BRK |
| Cpu.HaltsAfterRunning | src/cpu.rs:226-258 | the inductive step of `ExecuteHaltsAtBrk` |
| Cpu.CPU.constructor | src/cpu.rs:39-49 | a fresh CPU is `PowerOn()` |
| Cpu.CPU.MemRead | src/cpu.rs:51-53 | returns the byte of the state at the address |
| Cpu.CPU.MemWrite | src/cpu.rs:55-57 | the new state is `WithByte` of the old |
| Cpu.CPU.MemReadU16 | src/cpu.rs:59-65 | returns `WordAt` |
| Cpu.CPU.MemWriteU16 | src/cpu.rs:67-72 | the new state is `WithWord` of the old |
| Cpu.CPU.Reset | src/cpu.rs:74-79 | the new state is `AfterReset` of the old |
| Cpu.CPU.Load | src/cpu.rs:87-90 | the new state is `Loaded` of the old |
| Cpu.CPU.UpdateZeroAndNegativeFlags | src/cpu.rs:208-224 | only the status changes, to `ZeroNegative` |
| Cpu.CPU.GetOperandAddress | src/cpu.rs:93-171 | returns `OperandAddress` |
| Cpu.CPU.ZeroPageIndexedAddress | src/cpu.rs:112-124 | returns `ZeroPageIndexed` |
| Cpu.CPU.AbsoluteIndexedAddress | src/cpu.rs:128-140 | returns `AbsoluteIndexed` |
| Cpu.CPU.IndexedIndirectAddress | src/cpu.rs:146-152 | returns `IndexedIndirect` |
| Cpu.CPU.IndirectIndexedAddress | src/cpu.rs:155-163 | returns `IndirectIndexed` |
| Cpu.CPU.CanAccess | src/cpu.rs:93-171 | true iff the operand and the address it names lie inside memory |
| Cpu.CPU.And | src/cpu.rs:174-178 | the new state is `ExecAnd` of the old |
| Cpu.CPU.Lda | src/cpu.rs:181-187 | the new state is `ExecLda` of the old |
| Cpu.CPU.Tax | src/cpu.rs:190-193 | the new state is `ExecTax` of the old |
| Cpu.CPU.Inx | src/cpu.rs:196-201 | the new state is `ExecInx` of the old |
| Cpu.CPU.Sta | src/cpu.rs:203-206 | the new state is `ExecSta` of the old |
| Cpu.CPU.RunOnce | src/cpu.rs:229-256 | one iteration of the loop, equal to `Step` |
| Cpu.CPU.Execute1 | src/cpu.rs:232-254 | the dispatch of one entry, equal to `Dispatch` |
| Cpu.CPU.Run | src/cpu.rs:226-258 | the loop's final state and outcome are those of `Execute` |
| Cpu.CPU.LoadAndRun | src/cpu.rs:81-85 | load, reset, then run: equal to `Execute` from `AfterReset(Loaded(..))` |
| CpuExamples.OpcodesMapHasTestEntries | src/opcodes.rs:28-347 | the map holds the entries for LDA #, LDA $zz, AND #, AND $zz, STA $zz, TAX, INX and BRK |
| CpuExamples.LdaImmediateStep | src/cpu.rs:181-187 | LDA # loads the byte after the opcode and moves PC past it |
| CpuExamples.AndImmediateStep | src/cpu.rs:174-178 | AND # masks A with the byte after the opcode and moves PC past it |
| CpuExamples.TaxStep | src/cpu.rs:190-193 | TAX copies A to X and moves PC by one |
| CpuExamples.InxStep | src/cpu.rs:196-201 | INX increments X and moves PC by one |
| CpuExamples.LdaZeroPageStep | src/cpu.rs:181-187 | LDA $zz loads the zero-page cell named by the byte after the opcode and moves PC past it |
| CpuExamples.AndZeroPageStep | src/cpu.rs:174-178 | AND $zz masks A with that zero-page cell and moves PC past it |
| CpuExamples.StaZeroPageStep | src/cpu.rs:203-206 | STA $zz stores A in that zero-page cell, leaves the flags and moves PC past it |
| CpuExamples.BrkStep | src/cpu.rs:251 | BRK returns with PC one past it |
| CpuExamples.Started | src/cpu.rs:81-90 | after `load_and_run`'s load and reset, PC is 0x8000 and the program sits there |
| CpuExamples.FiveOpsWorkingTogether | src/cpu.rs:342-347 | LDA #$C0, TAX, INX, BRK returns with X = 0xC1 |
| CpuExamples.InxOverflow | src/cpu.rs:350-357 | with X set to 0xFF after `reset`, INX, INX, BRK returns with X = 1 |
| CpuExamples.AndImmediate | src/cpu.rs:268-274 | LDA #$05, AND #$01, BRK returns with A = 0x01 and Z and N clear |
| CpuExamples.StartedAfterWrite | src/cpu.rs:284-288 | after `mem_write`, then `load_and_run`'s load and reset, PC is 0x8000, the program sits there and the written cell is kept |
| CpuExamples.LdaImmediate | src/cpu.rs:294-300 | LDA #$05, BRK returns with A = 5 and Z and N clear |
| CpuExamples.LdaZeroFlag | src/cpu.rs:303-307 | LDA #$00, BRK returns with Z set |
| CpuExamples.LdaFromMemory | src/cpu.rs:310-316 | with 0x55 at 0x10, LDA $10, BRK returns with A = 0x55 |
| CpuExamples.AndZeroFlag | src/cpu.rs:277-281 | LDA #$05, AND #$00, BRK returns with Z set |
| CpuExamples.AndFromMemory | src/cpu.rs:284-290 | with 0x51 at 0x10, LDA #$55, AND $10, BRK returns with A = 0x51 |
| CpuExamples.StoreAccumulator | src/cpu.rs:319-329 | with A set to 0x60 after `reset`, STA $10, BRK returns with 0x60 at 0x10 |
| CpuExamples.TaxMovesAToX | src/cpu.rs:332-339 | with A set to 5 after `reset`, TAX, BRK returns with X = 5 |
| CpuExamples.FiveOpsOnFreshCpu | src/cpu.rs:342-347 | the same test, on a fresh CPU with `load_and_run` |
| CpuExamples.InxOverflowOnFreshCpu | src/cpu.rs:350-357 | the same test on a fresh CPU: `load`, `reset`, X set to 0xFF, then `run` |
| CpuExamples.StaOnFreshCpu | src/cpu.rs:319-329 | `test_sta` on a fresh CPU: A set, `load`, `reset`, A set again, `run`, then `mem_read(0x10)` gives 0x60 |
| CpuExamples.AndFromMemoryOnFreshCpu | src/cpu.rs:284-290 | `test_and_from_memory` on a fresh CPU: `mem_write(0x10, 0x51)`, then `load_and_run` leaves A = 0x51 |
| Opcodes.TableFacts | src/opcodes.rs:27-352 | every entry is 1 to 3 bytes long, immediate, zero-page and indirect entries are 2 bytes, absolute ones 3, and no code is listed twice |
| Opcodes.Append | src/opcodes.rs:27-352 | joining two well-formed parts of the table whose codes fall in different sections keeps it well formed and free of repeats |
| Opcodes.MapOf | src/opcodes.rs:354-360 | the map built by the insertions has at most one key per table entry |
| Opcodes.BuildOpcodesMap | src/opcodes.rs:354-360 | inserting the entries one by one in table order gives `MapOf(table)` |
| Opcodes.MapOfKeys | src/opcodes.rs:354-360 | the map's keys are exactly the codes in the table |
| Opcodes.MapOfLastWins | src/opcodes.rs:356-358 | an entry not followed by another with the same code is what its code maps to |
| Opcodes.MapOfValues | src/opcodes.rs:354-360 | every value is a table entry stored under its own code |
| Opcodes.MapOfSize | src/opcodes.rs:354-360 | with distinct codes the map has one key per entry |
| Opcodes.MapOfDistinct | src/opcodes.rs:354-360 | with distinct codes the map holds each entry under its code, and only those |
| Opcodes.OpcodesMapEntry | src/opcodes.rs:354-360 | looking up the code of any table entry finds that entry |
| Opcodes.OpcodesMapWellFormed | src/opcodes.rs:27-360 | every map entry is a table entry under its own code, with a length fitting its mode |
| Opcodes.OpcodesMapSize | src/opcodes.rs:27-360 | the map has 151 keys, one per entry |
| Opcodes.SectionInMap | src/opcodes.rs:354-360 | every entry of a part of the table is found under its code |
| Opcodes.EorLabelKept | src/opcodes.rs:152-159 | the eight EOR codes are found under the mnemonic "CMP" |
| Opcodes.PlpLabelKept | src/opcodes.rs:253 | 0x28 (PLP) is found under the table's label "CLV" |
| Opcodes.TyaLabelKept | src/opcodes.rs:349 | 0x98 (TYA) is found under the table's label "TXS" |
| Bus.RamIndex | src/bus.rs:70-72 | the RAM index `addr & 0x07FF` is always below 0x800 |
| Bus.PpuRegisterMirror | src/bus.rs:84-87 | `addr & 0x2007` keeps addr mod 8 and lies in 0x2000-0x2007 |
| Bus.ReadPrgRom | src/bus.rs:29-36 | indexes `addr - 0x8000`, reduced mod 0x4000 for a 16 KiB ROM; an index past the ROM is an error |
| Bus.PrgRomMirrored | src/bus.rs:31-34 | with a 16 KiB ROM, 0x8000-0xBFFF and 0xC000-0xFFFF read the same bytes |
| Bus.ReadTarget | src/bus.rs:68-111 | reads in 0x0000-0x1FFF act on RAM cell addr mod 0x800, and reads from 0x8000 on go to PRG ROM |
| Bus.WriteTarget | src/bus.rs:113-163 | writes in 0x0000-0x1FFF act on RAM cell addr mod 0x800, and writes from 0x8000 on are errors |
| Bus.RamMirrored | src/bus.rs:70-72 | addresses 0x800 apart read the same RAM cell |
| Bus.PpuRegistersMirrored | src/bus.rs:84-87 | 0x2008-0x3FFF act as 0x2000 + addr mod 8, for reads and writes |
| Bus.ReadsZeroExactly | src/bus.rs:75-101 | a read gives 0 without side effects exactly for PPUCTRL, PPUMASK, OAMADDR, PPUSCROLL, PPUADDR, OAMDMA, 0x4000-0x4015 and 0x4017 |
| Bus.PpuWindowReachesRegisters | src/bus.rs:74-87 | every address in 0x2000-0x3FFF reaches one of the eight PPU registers |
| Bus.DmaTransferAlwaysFails | src/bus.rs:135-139 | the OAMDMA write panics for every page |
| Bus.DmaPageIntended | src/bus.rs:136-138 | the inclusive slice succeeds iff the page is one of the eight RAM pages, and then it is the 256 bytes of that page |
| Bus.Bus.constructor | src/bus.rs:14-27 | zeroed RAM, zero cycles, the given ROM, PPU and joypad |
| Bus.Bus.Tick | src/bus.rs:42-45 | `cycles` grows by exactly c; the PPU's `cycles * 3` in `u8` panics from c = 86 on |
| Bus.Bus.MemRead | src/bus.rs:68-111 | the value `ReadTarget` names. Only a PPUDATA read changes the PPU (buffer and address, as `read_data`), and only the joypad port changes the joypad |
| Bus.Bus.MemWrite | src/bus.rs:113-163 | ROM and OAMDMA writes fail, and a PPUDATA write fails exactly when `WritePort` does. A RAM write changes exactly one cell, PPUSTATUS writes change nothing, and each register write changes only its own register |
| Ppu.MirrorMask | src/ppu/ppu.rs:72 | `addr & 0x2FFF` is at most 0x2FFF |
| Ppu.MirrorVramAddr | src/ppu/ppu.rs:71-83 | the VRAM index is below 0x800 for vertical and horizontal mirroring and keeps the offset inside a nametable |
| Ppu.NametableSpaceMirrors | src/ppu/ppu.rs:71-83 | every address in 0x2000-0x3EFF can be mirrored |
| Ppu.UpperNametableCopy | src/ppu/ppu.rs:72 | 0x3000-0x3EFF mirror 0x2000-0x2EFF |
| Ppu.VerticalLayout | src/ppu/ppu.rs:77 | vertical: nametables 2 and 3 fall onto 0 and 1 |
| Ppu.HorizontalLayout | src/ppu/ppu.rs:78-80 | horizontal: nametables 0 and 1 share 0x000-0x3FF, 2 and 3 share 0x400-0x7FF |
| Ppu.FourScreenLayout | src/ppu/ppu.rs:81 | any other mirroring keeps the unfolded index |
| Ppu.MirroredNametables | src/ppu/ppu.rs:76-82 | which nametable pairs alias and which do not, under both mirrorings |
| Ppu.NametableMask | src/ppu/ppu.rs:72 | the mask leaves 0x2000-0x2FFF unchanged |
| Ppu.PaletteMirrorIndexAsWritten | src/ppu/ppu.rs:122-125 | the palette-mirror branch as written succeeds only if `addr - 0x10 - 0x3F00` can be mirrored |
| Ppu.PaletteMirrorUnderflows | src/ppu/ppu.rs:122-125 | as written, that branch panics for every mirror address, so the PPUDATA write fails and stores nothing |
| Ppu.PaletteIndex | src/ppu/ppu.rs:122-128 | the corrected slot: 0x3F10/14/18/1C share slot addr-0x3F10, other palette addresses use slot addr-0x3F00 |
| Ppu.Fetch | src/ppu/ppu.rs:55-64 | 0x0000-0x1FFF read CHR ROM, and an index past it is an error; 0x2000-0x2FFF read the mirrored VRAM cell, and under four-screen mirroring an index past VRAM is an error |
| Ppu.ReadPort | src/ppu/ppu.rs:50-69 | below 0x3000 the old buffer is returned and refilled from CHR ROM or VRAM; 0x3F00-0x3F1F return the palette byte directly; everything else is an error |
| Ppu.DelayedRead | src/ppu/ppu.rs:50-66 | the second of two PPUDATA reads returns what the first one fetched |
| Ppu.WritePort | src/ppu/ppu.rs:114-132 | as written: 0x2000-0x2FFF write only the mirrored VRAM cell and 0x3F00-0x3F1F, except the four palette mirrors, write only palette byte addr-0x3F00; every other address, the mirrors included, is an error that changes nothing |
| Ppu.WritePortIntended | src/ppu/ppu.rs:114-132 | the corrected write: as `WritePort`, except that 0x3F10/14/18/1C succeed and store into `PaletteIndex` |
| Ppu.PaletteMirrorWrites | src/ppu/ppu.rs:122-125 | corrected, a write to 0x3F10/14/18/1C is a write to 0x3F00/04/08/0C, where the code as written fails |
| Ppu.WriteThenRead | src/ppu/ppu.rs:50-69 | a value written to the nametables comes back through the buffered read |
| Ppu.PPU.constructor | src/ppu/ppu.rs:25-40 | zeroed palette[32], vram[2048], oam_data[256], OAM address, buffer and registers |
| Ppu.PPU.IncrementVramAddr | src/ppu/ppu.rs:42-44 | the address register advances by `vram_addr_increment()` |
| Ppu.PPU.ReadOamData | src/ppu/ppu.rs:46-48 | returns `oam_data[oam_addr]` and changes nothing |
| Ppu.PPU.ReadData | src/ppu/ppu.rs:50-69 | result and new buffer are `ReadPort` at the pre-increment address; the address advances once |
| Ppu.PPU.WriteToPpuAddr | src/ppu/ppu.rs:85-87 | only the address register changes, by its `update` |
| Ppu.PPU.WriteToControl | src/ppu/ppu.rs:89-91 | PPUCTRL's bits become the value |
| Ppu.PPU.WriteToMask | src/ppu/ppu.rs:93-95 | PPUMASK's bits become the value |
| Ppu.PPU.WriteToScroll | src/ppu/ppu.rs:97-99 | only the scroll register changes, by its `write` |
| Ppu.PPU.ReadStatus | src/ppu/ppu.rs:101-103 | returns PPUSTATUS's bits |
| Ppu.PPU.WriteToOamAddr | src/ppu/ppu.rs:105-107 | only the OAM address changes, to the value |
| Ppu.PPU.WriteToOamData | src/ppu/ppu.rs:109-112 | stores at `oam_addr`, then `oam_addr` becomes (oam_addr+1) mod 256 |
| Ppu.PPU.WriteToData | src/ppu/ppu.rs:114-132 | VRAM, palette and outcome are `WritePort` at the pre-increment address, so a palette-mirror write fails; the address advances once |
| Ppu.PPU.OamDma | src/ppu/ppu.rs:134-136 | all 256 OAM bytes become the input |
| Control.ControlRegister.constructor | src/ppu/registers/control.rs:28-30 | all bits 0 |
| Control.ControlRegister.VramAddrIncrement | src/ppu/registers/control.rs:32-38 | 1 iff bit 2 is clear, 32 iff it is set |
| Control.ControlRegister.Update | src/ppu/registers/control.rs:40-42 | the bits become the byte written |
| Control.IncrementOnlyReadsBit2 | src/ppu/registers/control.rs:33-37 | two registers agreeing on bit 2 give the same increment |
| Control.IncrementOfWrittenByte | src/ppu/registers/control.rs:32-42 | after `update(d)`, the increment is 1 or 32 according to bit 2 of d |
| Mask.MaskRegister.constructor | src/ppu/registers/mask.rs:30-32 | all bits 0 |
| Mask.MaskRegister.DisableRendering | src/ppu/registers/mask.rs:34-37 | sprites and background are off afterwards, and the other six bits are unchanged |
| Mask.MaskRegister.ShowSprites | src/ppu/registers/mask.rs:39-41 | true iff bit 4 is set |
| Mask.MaskRegister.ShowBackground | src/ppu/registers/mask.rs:43-45 | true iff bit 3 is set |
| Mask.MaskRegister.IsGreyscale | src/ppu/registers/mask.rs:47-49 | true iff bit 0 is set |
| Mask.MaskRegister.Update | src/ppu/registers/mask.rs:51-53 | the bits become the byte written |
| Mask.QueriesOfWrittenByte | src/ppu/registers/mask.rs:39-53 | after `update(d)`, the queries read bits 4, 3 and 0 of d |
| Status.StatusRegister.constructor | src/ppu/registers/status.rs:25-27 | all bits 0 |
| Status.StatusRegister.SpriteOverflowSet | src/ppu/registers/status.rs:29-31 | true iff bit 5 is set |
| Status.StatusRegister.SetSpriteOverflow | src/ppu/registers/status.rs:33-35 | the getter then returns the value, and no other bit changes |
| Status.StatusRegister.Sprite0HitSet | src/ppu/registers/status.rs:37-39 | true iff bit 6 is set |
| Status.StatusRegister.SetSprite0Hit | src/ppu/registers/status.rs:41-43 | the getter then returns the value, and no other bit changes |
| Status.StatusRegister.InVerticalBlank | src/ppu/registers/status.rs:45-47 | true iff bit 7 is set |
| Status.StatusRegister.SetVerticalBlank | src/ppu/registers/status.rs:49-51 | the getter then returns the value, and no other bit changes |
| Status.StatusRegister.Update | src/ppu/registers/status.rs:53-55 | the bits become the byte written |
| Status.SetThenGet | src/ppu/registers/status.rs:29-51 | for each flag, setting then getting returns the value set, and the other bits are kept |
| Status.SettersIndependent | src/ppu/registers/status.rs:12-14 | each setter leaves the other two flags unchanged |
| Render.Frame.SetPixel | src/render/mod.rs:33 | only the one pixel changes |
| Render.ShiftedRemainder | src/render/mod.rs:19-25 | after n shifts the byte is the n bits taken off, each `1 & byte` weighing 2^k at shift k, plus 2^n times what is left |
| Render.ByteOfBits | src/render/mod.rs:19-25 | the eight bits the loop takes off, weighted 2^0 to 2^7, make up the byte again, and each is 0 or 1 |
| Render.ShiftedOut | src/render/mod.rs:58-59 | after eight shifts nothing is left |
| Render.PixelValue | src/render/mod.rs:18-25 | the pixel is 2·bit(7-x) of tile[y+8] plus bit(7-x) of tile[y], in 0..3, and is 0 iff both bits are 0 |
| Render.AttributeTableBounds | src/render/mod.rs:79-80 | the attribute byte of an on-screen tile lies in 0x3C0-0x3FF |
| Render.PaletteNumberBits | src/render/mod.rs:82-88 | it is attribute bits 0-1, 2-3, 4-5 or 6-7, chosen by quadrant |
| Render.BgPalette | src/render/mod.rs:78-98 | [palette[0], palette[1+4p], palette[2+4p], palette[3+4p]], all indices below 16 |
| Render.BlockSharesPalette | src/render/mod.rs:79-88 | the four tiles of a 2x2 block share one palette |
| Render.SpritePalette | src/render/mod.rs:100-108 | [0, palette[0x11+4i], palette[0x12+4i], palette[0x13+4i]], all indices below 32 for i < 4 |
| Render.TilePlacement | src/render/mod.rs:10-33 | tile i is drawn with its top-left corner at (8·(i%32), 8·(i/32)), coloured by `BgPalette` and `PixelValue` |
| Render.TileSquarePoint | src/render/mod.rs:10-33 | a point lies in tile i's square iff it is on screen and under tile i, and then its colour is that tile's pixel |
| Render.SpritePixel | src/render/mod.rs:53-72 | a sprite only colours points inside its 8x8 square |
| Render.FlipMirrors | src/render/mod.rs:67-72 | attribute bit 6 mirrors x to 7-x and bit 7 mirrors y to 7-y |
| Render.SpritePixelLands | src/render/mod.rs:53-72 | pixel (x, y) of a sprite lands where the flips put it, and is transparent iff its value is 0 |
| Render.LowestSpriteWins | src/render/mod.rs:38 | where several sprites are opaque, the lowest-numbered one shows |
| Render.TransparentSprites | src/render/mod.rs:38-61 | where every sprite is transparent, the background shows |
| Render.DrawBackgroundRow | src/render/mod.rs:18-34 | one tile row is drawn with the tile's pixel colours, nothing else changes |
| Render.DrawBackgroundTile | src/render/mod.rs:18-35 | the tile's 8x8 square is drawn, nothing else changes |
| Render.BackgroundColour | src/render/mod.rs:10-33 | a point's background colour is one of the four of its tile's `BgPalette`, and is `palette[0]` where the tile pixel's value is 0 |
| Render.SpriteColour | src/render/mod.rs:39-72 | a sprite colours only points inside the 8x8 square at its OAM x and y, and with one of colours 1-3 of the sprite palette its attribute bits 0-1 choose |
| Render.Layered | src/render/mod.rs:38-75 | after drawing sprites 63 down to s, a point shows what it showed before or the colour some sprite from s on gives it |
| Render.RenderBackground | src/render/mod.rs:10-36 | every on-screen point gets its `BackgroundColour`, nothing else changes |
| Render.DrawSpriteRow | src/render/mod.rs:53-73 | the opaque pixels of one sprite row are drawn, nothing else changes |
| Render.DrawSprite | src/render/mod.rs:53-74 | the sprite's opaque pixels are drawn over the frame |
| Render.RenderSprites | src/render/mod.rs:38-75 | the frame is `Layered`: OAM entries 63 down to 0 drawn in turn |
| Render.Render | src/render/mod.rs:7-76 | the background pass, then the sprites over it |
| Trace.DigitChar | src/trace.rs:42 | an uppercase hex digit whose value is d |
| Trace.Digits | src/trace.rs:42 | the digits of n in a base, each a valid digit |
| Trace.Repeat | src/trace.rs:42-107 | k copies of one character: the zero fill of the hex fields and the space fill of the padded columns |
| Trace.Hex | src/trace.rs:42 | format `0wX`: uppercase hex digits, at least w of them |
| Trace.ParseDigits | src/trace.rs:42 | the digits read back as n |
| Trace.NoLeadingZero | src/trace.rs:42 | the digits of a positive number start with no zero |
| Trace.ParseZeros | src/trace.rs:42 | leading zeros do not change the value read |
| Trace.HexRoundTrip | src/trace.rs:42 | zero-padded hex reads back as the number |
| Trace.DigitsFit | src/trace.rs:42 | a number below base^w has at most w digits |
| Trace.PowAdd | src/trace.rs:42 | base^(m+n) = base^m · base^n |
| Trace.Hex2 | src/trace.rs:42 | format `02X`: two hex digits that read back as the byte |
| Trace.Hex4 | src/trace.rs:103 | format `04X`: four hex digits that read back as the word |
| Trace.Hex2Digits | src/trace.rs:42 | the two digits are the high and low nibbles |
| Trace.LastDigit | src/trace.rs:42 | the last digit is the value mod 16 |
| Trace.Hex4Digits | src/trace.rs:103 | the four digits are the word's nibbles |
| Trace.FourDigits | src/trace.rs:103 | four hex digits are those of the number they read as |
| Trace.FirstDigit | src/trace.rs:42 | one digit reads as its own value |
| Trace.PadRight | src/trace.rs:103-107 | format `w`: the text, then spaces up to width w |
| Trace.PadRightShort | src/trace.rs:103-107 | padding a short text appends w-\|s\| spaces |
| Trace.PadLeft | src/trace.rs:103 | format `>w`: spaces, then the text, up to width w |
| Trace.HexBytes | src/trace.rs:97-101 | the bytes as two hex digits each, joined by single spaces |
| Trace.HexBytesRoundTrip | src/trace.rs:97-101 | the instruction field, padded, reads back as the bytes |
| Trace.Signed | src/trace.rs:57 | `byte as i8`: in -128..127 and congruent to the byte mod 256 |
| Trace.BranchTarget | src/trace.rs:57 | PC + 2 plus the signed offset, wrapping as a 64-bit `usize` |
| Trace.MemoryOperand | src/trace.rs:14-21 | Immediate and NoneAddressing give (0, 0); other modes give the operand address and the byte there; PC + 1 overflowing is an error |
| Trace.OperandShape | src/trace.rs:40-89 | the operand text starts with the number it was made from |
| Trace.ShortOperand | src/trace.rs:40-60 | two-byte instructions with an absolute mode panic; the other texts fit in 26 characters |
| Trace.ShortAddress | src/trace.rs:46-48 | format `02X` of an address: 2 to 4 hex digits that read back as it |
| Trace.BranchText | src/trace.rs:56-57 | the branch target in at least four hex digits, reading back as `BranchTarget` |
| Trace.LongOperand | src/trace.rs:70-89 | three-byte instructions with a mode other than absolute or none panic; the other texts fit in 19 characters |
| Trace.ShortOperandShows | src/trace.rs:40-60 | the text shows the operand byte (a branch shows its target), then the value read |
| Trace.IndirectXShows | src/trace.rs:50-51 | `($bb,X) @ .. = .. = vv` shows the operand byte and the value |
| Trace.IndirectYShows | src/trace.rs:53-54 | `($bb),Y = .. @ .. = vv` shows the operand byte and the value |
| Trace.ZeroPageIndexedShows | src/trace.rs:45-48 | `$bb,X @ .. = vv` shows the operand byte and the value |
| Trace.LongOperandShows | src/trace.rs:70-89 | the text shows the operand word, then the value read, and JMP indirect shows the target |
| Trace.AbsoluteShows | src/trace.rs:71-77 | `$wwww` shows the word, and `= vv` for other than JMP and JSR |
| Trace.IndexedShows | src/trace.rs:78-79 | `$wwww,X @ .. = vv` shows the word and the value |
| Trace.IndirectJumpShows | src/trace.rs:80-86 | `($wwww)` shows the word, and 0x6C shows the jump target |
| Trace.IndirectYShowsPointer | src/trace.rs:54 | `mem_addr - Y` (wrapping) recovers the pointer when mem_addr = pointer + Y |
| Trace.OperandOf | src/trace.rs:27-95 | the text is defined iff the length-2 or length-3 mode is one the code handles and the operand bytes lie below 0x10000; the bytes are the len-1 bytes after the opcode |
| Trace.TraceLine | src/trace.rs:5-108 | a line is produced iff the opcode is in the map and its operand can be read and formatted; a missing opcode is the `unwrap` panic |
| Trace.FieldColumns | src/trace.rs:103 | PC in columns 0-3, the instruction field in 6-13, the mnemonic in 15-18 |
| Trace.LineColumns | src/trace.rs:103-107 | the padded line puts the registers at column 48 |
| Trace.InstructionBytes | src/trace.rs:24-66 | the instruction bytes are the opcode and the len-1 bytes after it |
| Trace.FieldRoundTrip | src/trace.rs:97-103 | the padded instruction field reads back as its bytes |
| Trace.TraceColumns | src/trace.rs:5-108 | the columns of a line read back as PC, the instruction bytes, the mnemonic and the registers |
| Trace.StatusString | src/trace.rs:104-105 | the status string starts `A:`, carries ` TICKS:` at column 25, and its columns read back as A, X, Y, P, SP and the cycle count |
| Trace.OpcodesMapTraceable | src/trace.rs:5-95 | with `OPCODES_MAP`, every opcode whose bytes fit below 0x10000 gives a line |
| TraceExamples.OpcodesMapHasTraceTestEntries | src/opcodes.rs:203-243 | the map holds LDX # (0xA2) and ORA (ind),Y (0x11) |
| TraceExamples.OraIndirectYOperand | src/trace.rs:53-54 | `ORA ($33),Y` with Y = 0 and the pointer 0x0400 shows `($33),Y = 0400 @ 0400 = AA` |
| TraceExamples.OraIndirectYOperandOf | src/trace.rs:14-54 | the same, from the trace view's memory |
| TraceExamples.LdxImmediateLine | src/trace.rs:120-149 | `test_format_trace`'s first line: `0064  A2 01     LDX #$01`, padded, then `A:01 X:02 Y:03 P:24 SP:FD TICKS:` and the cycles |
| TraceExamples.OraIndirectYLine | src/trace.rs:152-177 | `test_format_mem_access`: `0064  11 33     ORA ($33),Y = 0400 @ 0400 = AA`, padded, then the registers |
| GetOpcodes.StripLeft | src/getopcodes.py:5 | drops exactly the leading characters that match |
| GetOpcodes.StripRight | src/getopcodes.py:5 | drops exactly the trailing characters that match |
| GetOpcodes.StripSlice | src/getopcodes.py:5-11 | the stripped text is a slice whose ends, outside it, all match |
| GetOpcodes.StripEnds | src/getopcodes.py:5-11 | the stripped text neither starts nor ends with a matching character |
| GetOpcodes.StripIdempotent | src/getopcodes.py:5-11 | stripping twice is stripping once |
| GetOpcodes.StripPadding | src/getopcodes.py:5-11 | stripping padding around a text that has no matching ends gives the text |
| GetOpcodes.SplitJoin | src/getopcodes.py:7 | one more piece than separators, no piece holds one, and joining gives the text back |
| GetOpcodes.SplitCount | src/getopcodes.py:7 | the number of pieces is the number of separators plus one |
| GetOpcodes.SplitPieces | src/getopcodes.py:7 | no piece holds the separator |
| GetOpcodes.SplitJoinBack | src/getopcodes.py:7 | joining the pieces with the separator gives the text back |
| GetOpcodes.SplitFirst | src/getopcodes.py:7 | splitting `piece,rest` gives the piece, then the split of rest |
| GetOpcodes.SplitArguments | src/getopcodes.py:7 | `value,key,rest` gives fields 0 and 1 as value and key |
| GetOpcodes.SplitFields | src/getopcodes.py:7-8 | there is a field 1 iff the text has a comma, and then the text starts with field 0, a comma and field 1 |
| GetOpcodes.Arguments | src/getopcodes.py:7 | the text after `OpCode::new(` |
| GetOpcodes.ArgumentsLine | src/getopcodes.py:6-7 | an `OpCode::new(` line is kept, and its arguments are what follows |
| GetOpcodes.ParseLine | src/getopcodes.py:4-8 | the only exception one line can raise is `IndexError` |
| GetOpcodes.ParseLineMeaning | src/getopcodes.py:4-8 | a line contributes iff its stripped text starts with `OpCode::new`; it raises iff then there is no comma; the entry is fields 0 and 1 |
| GetOpcodes.PaddedLine | src/getopcodes.py:5 | leading and trailing whitespace does not change what a line contributes |
| GetOpcodes.ParseOpcodeLine | src/getopcodes.py:4-8 | an indented `OpCode::new(value,key,...)` line contributes (value, key) |
| GetOpcodes.Entries | src/getopcodes.py:4-8 | the entries of the file, at most one per line, or `IndexError` |
| GetOpcodes.EntriesFail | src/getopcodes.py:4-8 | the loop raises iff some line raises |
| GetOpcodes.FailingLine | src/getopcodes.py:4-8 | when the loop raises, a line that raises can be named |
| GetOpcodes.FailsAt | src/getopcodes.py:4-8 | one line that raises makes the loop raise |
| GetOpcodes.PrefixFails | src/getopcodes.py:4-8 | once a prefix of the file raises, the rest of the file does not matter |
| GetOpcodes.Append | src/getopcodes.py:8 | `map[key].append(value)` keeps the dictionary well formed |
| GetOpcodes.GroupLines | src/getopcodes.py:3-8 | when no line raises, the dictionary built is well formed: keys once each, in insertion order, no empty list |
| GetOpcodes.GroupEntries | src/getopcodes.py:3-8 | grouping yields an insertion-ordered dictionary with no empty group |
| GetOpcodes.GroupKeys | src/getopcodes.py:3-8 | the keys are the distinct raw field-1 texts in order of first appearance |
| GetOpcodes.GroupDomain | src/getopcodes.py:8 | a key has a group iff some entry has that key |
| GetOpcodes.GroupValues | src/getopcodes.py:8 | a group holds the values of that key in file order |
| GetOpcodes.CollectGroups | src/getopcodes.py:3-8 | the first loop returns `GroupLines` |
| GetOpcodes.Items | src/getopcodes.py:10 | `map.items()`: one (key, values) pair per key, in insertion order |
| GetOpcodes.ReportText | src/getopcodes.py:10-12 | nothing is printed iff there are no groups; otherwise the output starts with a `// ` comment and ends with a blank line |
| GetOpcodes.Report | src/getopcodes.py:10-12 | the second loop prints `ReportText` of the items |
| GetOpcodes.Script | src/getopcodes.py:1-12 | the output fails with `IndexError` iff some line has fewer than two fields |
| GetOpcodes.RunScript | src/getopcodes.py:1-12 | the whole script returns `Script` |
| GetOpcodesExamples.QuotedKey | src/getopcodes.py:11 | the header shows a quoted key without its quotes and its leading space |
| GetOpcodesExamples.GroupOne | src/getopcodes.py:8 | one entry gives one group |
| GetOpcodesExamples.GroupSame | src/getopcodes.py:8 | two entries with one key give one group in file order |
| GetOpcodesExamples.GroupDistinct | src/getopcodes.py:8 | two keys give two groups in file order |
| GetOpcodesExamples.ItemsOne | src/getopcodes.py:10 | the items of one group |
| GetOpcodesExamples.ItemsTwo | src/getopcodes.py:10 | the items of two groups, in insertion order |
| GetOpcodesExamples.EntriesOne | src/getopcodes.py:4-8 | one contributing line gives one entry |
| GetOpcodesExamples.EntriesTwo | src/getopcodes.py:4-8 | two contributing lines give two entries in order |
| GetOpcodesExamples.ScriptOne | src/getopcodes.py:1-12 | one contributing line prints that line's group |
| GetOpcodesExamples.ScriptSame | src/getopcodes.py:1-12 | two lines with one key print one group |
| GetOpcodesExamples.ScriptDistinct | src/getopcodes.py:1-12 | two lines with two keys print two groups |
| GetOpcodesExamples.EmptyFile | src/getopcodes.py:1-12 | an empty file prints nothing |
| GetOpcodesExamples.LineEntry | src/getopcodes.py:4-8 | an indented `OpCode::new` line contributes its value under its field-1 text |
| GetOpcodesExamples.QuotedEntry | src/getopcodes.py:4-8 | the key keeps its quotes and its leading space |
| GetOpcodesExamples.OneLine | src/getopcodes.py:1-12 | one line prints `// NAME`, `value => {},` and a blank line |
| GetOpcodesExamples.SameKey | src/getopcodes.py:1-12 | two lines with the same field 1 print `first \| second => {},` under one header |
| GetOpcodesExamples.TwoSpellings | src/getopcodes.py:8-11 | field 1 with and without its leading space gives two groups with the same header |
| GetOpcodesExamples.OneArgument | src/getopcodes.py:7-8 | a call with one argument raises `IndexError` and prints nothing |

## Left out

- Joypad: `src/bus.rs` reads and writes it at 0x4016, but the joypad is not
  part of this model. Its state is a generic value, and the read and write
  are function parameters.
- The PPU's address register (PPUADDR) and scroll register (PPUSCROLL) are not
  part of this model. They are generic values. Their get, increment, update
  and write operations are function parameters.
- `PPU::tick`, `poll_nmi_status`, NMI generation and the game-loop callback
  that `Bus::tick` runs on a new frame are not modelled. They belong to the
  frame-timing part, not the memory logic. `Bus.Bus.Tick` models the counter
  and the `u8` overflow of `cycles * 3` only.
- The render pass calls two accessors, `background_pattern_addr` and
  `sprite_pattern_addr`, that `src/ppu/registers/control.rs` does not define:
  it declares only the flag constants for PPUCTRL bits 4 and 3. The model
  therefore takes the two banks as parameters of `Render.Render`, each 0 or
  0x1000.
- `Frame::set_pixel`'s pixel buffer, and the `SYSTEM_PALLETE` lookup, are not
  part of this model. The frame is a map from points to palette entries. An
  entry of 64 or more, which makes the source's lookup panic, is not flagged.
- The `println!` diagnostics of the bus and the PPU are output only, and are
  left out.
- The script's `open('opcodes.rs')`: the model takes the file's lines as its
  input, and the printed text is its result.
- The CPU helpers that `src/trace.rs` calls are taken as inputs, because
  `src/cpu.rs` does not define them: `get_operand_address_from_base`,
  `calculate_jmp_indirect_bug`, `register_s`, `bus.cycles` and
  `status.bits()`. `mem_read` through the bus is taken as a pure read, since
  its side effects on PPUDATA belong to the bus model.
- `Trace.BranchTarget`: `usize` is taken to be 64 bits wide.
- The opcode table's per-section helper lemmas (`MiscWellFormed`,
  `MiscTagged`, … ) support `Opcodes.TableFacts` and have no rows of their own.
- `Cpu.CPU.Run`: the source loop is unbounded. The model runs at most `fuel`
  iterations, and a run that has not returned or panicked by then reports
  `Running`.
- `Cpu.CPU.And`, `Cpu.CPU.Lda`, `Cpu.CPU.Sta`, `Cpu.ExecAnd`, `Cpu.ExecLda` and
  `Cpu.ExecSta` require the operand and its address to lie inside memory.
  `Cpu.Step` models the out-of-range panic these otherwise hit.
- `Cpu.CPU.GetOperandAddress` and `Cpu.OperandAddress` require a mode other
  than NoneAddressing, and operand bytes inside memory. `Cpu.Step` models
  both panics.
- `Cpu.CPU.MemRead`, `Cpu.CPU.MemWrite`, `Cpu.CPU.MemReadU16`,
  `Cpu.CPU.MemWriteU16`, `Cpu.CPU.Load`, `Cpu.CPU.LoadAndRun`, `Cpu.Loaded`,
  `Cpu.WordAt`, `Cpu.WithByte` and `Cpu.WithWord` require their indices (for
  a load, 0x8000 plus the program's length) to lie inside the 0xFFFF-byte
  memory. The source panics there, and the model does not model that panic.
- `Render.Render`: requires every tile to lie inside CHR ROM and each bank to
  be 0 or 0x1000. The source panics on an out-of-range slice, and the model
  does not model that panic.
- `Ppu.PPU.OamDma`: requires exactly 256 bytes. `copy_from_slice` panics on
  any other length. The bus's only caller always fails before the copy
  (`Bus.DmaTransferAlwaysFails`); the corrected slice `Bus.DmaPageIntended`
  is 256 bytes long whenever it succeeds.

## Findings

| source | as written | input that shows it | evidently intended | confidence | as-written member | corrected member |
|---|---|---|---|---|---|---|
| src/ppu/ppu.rs:122-125 | the branch for 0x3F10/0x3F14/0x3F18/0x3F1C computes `addr - 0x10 - 0x3F00` (0x00-0x0C) and passes it to `mirror_vram_addr`, whose `- 0x2000` then underflows | a PPUDATA write with the address register at 0x3F10 | write palette byte `addr - 0x3F10`, the mirror of 0x3F00/04/08/0C | not executed | Ppu.PaletteMirrorUnderflows | Ppu.PaletteMirrorWrites |
| src/bus.rs:136-138 | the OAMDMA arm slices `cpu_vram[start..end]` with `end` at `(page << 8) + 0xFF`, 255 bytes, so `oam_dma`'s `copy_from_slice` into the 256-byte OAM panics (and from page 8 on the slice is out of range first) | any write to 0x4014, for example page 0x02 | copy the whole page, `cpu_vram[start..=end]`, 256 bytes | not executed | Bus.DmaTransferAlwaysFails | Bus.DmaPageIntended |
