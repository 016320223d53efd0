/** The 6502 core of src/cpu.rs: a register file over a flat 0xFFFF-byte
    memory, the addressing modes, the five implemented instructions and the
    fetch/dispatch loop.

    The first part is a functional model on `CpuState` values; the class
    `Cpu` at the end is the source's `CPU` struct, whose methods update its
    fields and its memory array in place and are proved to agree with the
    functional model.  Rust panics become `Panicked` outcomes of a step (an
    index outside the array, `unwrap` on a missing opcode, the unsupported
    addressing mode, an arithmetic overflow, `todo!`); the callers' duty to
    keep indices inside the array becomes a precondition wherever a single
    operation is modelled on its own. */
module Cpu {
  import opened Bits
  import opened Addressing
  import opened Opcodes

  /** The memory array has 0xFFFF cells, so address 0xFFFF is out of range. */
  const MemSize: int := 0xFFFF

  /** Bit 1 of the status register: the Z (zero) flag. */
  const ZeroFlag: bv8 := 0x02

  /** Bit 7 of the status register: the N (negative) flag. */
  const NegativeFlag: bv8 := 0x80

  datatype CpuState = CpuState(
    registerA: U8,
    registerX: U8,
    registerY: U8,
    status: bv8,
    programCounter: U16,
    memory: seq<U8>)

  predicate WellFormed(s: CpuState) {
    |s.memory| == MemSize
  }

  /** `CPU::new`: every register and every memory cell is zero. */
  function PowerOn(): (s: CpuState)
    ensures WellFormed(s)
    ensures s.registerA == s.registerX == s.registerY == 0 && s.status == 0 && s.programCounter == 0
    ensures forall i :: 0 <= i < |s.memory| ==> s.memory[i] == 0
  {
    CpuState(0, 0, 0, 0, 0, seq(MemSize, _ => 0))
  }

  /** `mem_read`: the cell at `addr`, which must be inside the array. */
  function ByteAt(s: CpuState, addr: int): U8
    requires WellFormed(s) && 0 <= addr < MemSize
  {
    s.memory[addr]
  }

  /** `mem_read_u16`: the little-endian word at `pos`; `pos + 1` must still
      be inside the array. */
  function WordAt(s: CpuState, pos: int): (w: U16)
    requires WellFormed(s) && 0 <= pos && pos + 1 < MemSize
    ensures Lo(w) == ByteAt(s, pos) && Hi(w) == ByteAt(s, pos + 1)
  {
    Word(ByteAt(s, pos), ByteAt(s, pos + 1))
  }

  /** The state after `mem_write(addr, data)`. */
  function WithByte(s: CpuState, addr: int, data: U8): (r: CpuState)
    requires WellFormed(s) && 0 <= addr < MemSize
    ensures WellFormed(r) && ByteAt(r, addr) == data
    ensures forall i :: 0 <= i < MemSize && i != addr ==> r.memory[i] == s.memory[i]
    ensures r.(memory := s.memory) == s
  {
    s.(memory := s.memory[addr := data])
  }

  /** The state after `mem_write_u16(pos, data)`: the low byte at `pos`, the
      high byte at `pos + 1`, nothing else changed. */
  function WithWord(s: CpuState, pos: int, data: U16): (r: CpuState)
    requires WellFormed(s) && 0 <= pos && pos + 1 < MemSize
    ensures WellFormed(r) && ByteAt(r, pos) == Lo(data) && ByteAt(r, pos + 1) == Hi(data)
    ensures forall i :: 0 <= i < MemSize && i != pos && i != pos + 1 ==> r.memory[i] == s.memory[i]
    ensures r.(memory := s.memory) == s
  {
    WithByte(WithByte(s, pos, Lo(data)), pos + 1, Hi(data))
  }

  /** Writing a word and reading it back at the same position gives the
      word. */
  lemma ReadU16AfterWriteU16(s: CpuState, pos: int, data: U16)
    requires WellFormed(s) && 0 <= pos && pos + 1 < MemSize
    ensures WordAt(WithWord(s, pos, data), pos) == data
  {
    WordOfHalves(data);
  }

  /** `update_zero_and_negative_flags(result)` applied to `status`: Z is set
      exactly when the result is zero, N is bit 7 of the result, and the
      other six bits are kept. */
  function ZeroNegative(status: bv8, result: U8): (st: bv8)
    ensures (st & ZeroFlag != 0) <==> result == 0
    ensures (st & NegativeFlag != 0) <==> result >= 0x80
    ensures st & 0x7D == status & 0x7D
  {
    SetNegative(if result == 0 then status | 0x02 else status & 0xFD, result)
  }

  /** The second half of `update_zero_and_negative_flags`: N follows bit 7
      of the result (`result & 0x80 != 0` is `result >= 0x80` for a byte). */
  function SetNegative(status: bv8, result: U8): (st: bv8)
    ensures (st & NegativeFlag != 0) <==> result >= 0x80
    ensures st & 0x7F == status & 0x7F
  {
    if result >= 0x80 then status | 0x80 else status & 0x7F
  }

  /** The operand bytes the mode reads from the instruction stream are
      inside the array: one byte at PC, or two for the absolute modes. */
  predicate OperandInRange(s: CpuState, mode: AddressingMode) {
    match mode
    case Absolute | AbsoluteX | AbsoluteY => s.programCounter + 1 < MemSize
    case _ => s.programCounter < MemSize
  }

  /** `ZeroPage_X` / `ZeroPage_Y`: the operand byte plus the index
      register, wrapping inside the zero page. */
  function ZeroPageIndexed(s: CpuState, index: U8): (addr: U16)
    requires WellFormed(s) && s.programCounter < MemSize
    ensures addr < 0x100
    ensures addr == ByteAt(s, s.programCounter) + index || addr == ByteAt(s, s.programCounter) + index - 0x100
  {
    (ByteAt(s, s.programCounter) + index) % 0x100
  }

  /** `Absolute_X` / `Absolute_Y`: the operand word plus the index register,
      wrapping modulo 0x10000. */
  function AbsoluteIndexed(s: CpuState, index: U8): (addr: U16)
    requires WellFormed(s) && s.programCounter + 1 < MemSize
    ensures addr == WordAt(s, s.programCounter) + index || addr == WordAt(s, s.programCounter) + index - 0x1_0000
  {
    (WordAt(s, s.programCounter) + index) % 0x1_0000
  }

  /** `Indirect_X`: the word whose low byte sits at the zero-page pointer
      operand + X and whose high byte sits at the next zero-page cell, both
      sums wrapping inside the zero page. */
  function IndexedIndirect(s: CpuState): (addr: U16)
    requires WellFormed(s) && s.programCounter < MemSize
    ensures Lo(addr) == ByteAt(s, ZeroPageIndexed(s, s.registerX))
    ensures Hi(addr) == ByteAt(s, (ZeroPageIndexed(s, s.registerX) + 1) % 0x100)
  {
    Word(ByteAt(s, ZeroPageIndexed(s, s.registerX)),
         ByteAt(s, (ZeroPageIndexed(s, s.registerX) + 1) % 0x100))
  }

  /** The little-endian word stored at a zero-page pointer, its high byte
      taken from the next zero-page cell (wrapping). */
  function ZeroPageWord(s: CpuState, ptr: U8): (w: U16)
    requires WellFormed(s)
    ensures Lo(w) == ByteAt(s, ptr) && Hi(w) == ByteAt(s, (ptr + 1) % 0x100)
  {
    Word(ByteAt(s, ptr), ByteAt(s, (ptr + 1) % 0x100))
  }

  /** `Indirect_Y`: the word at the zero-page operand (its high byte at the
      next zero-page cell, wrapping) plus Y, wrapping modulo 0x10000. */
  function IndirectIndexed(s: CpuState): (addr: U16)
    requires WellFormed(s) && s.programCounter < MemSize
    ensures addr == ZeroPageWord(s, ByteAt(s, s.programCounter)) + s.registerY
         || addr == ZeroPageWord(s, ByteAt(s, s.programCounter)) + s.registerY - 0x1_0000
  {
    (ZeroPageWord(s, ByteAt(s, s.programCounter)) + s.registerY) % 0x1_0000
  }

  /** `get_operand_address`: where the operand of the instruction whose first
      operand byte is at PC lives.  NoneAddressing panics in the source, so
      it is excluded here. */
  function OperandAddress(s: CpuState, mode: AddressingMode): (addr: U16)
    requires WellFormed(s) && OperandInRange(s, mode) && mode != NoneAddressing
    ensures mode == Immediate ==> addr == s.programCounter
    ensures mode == ZeroPage ==> addr == ByteAt(s, s.programCounter)
    ensures mode == Absolute ==> addr == WordAt(s, s.programCounter)
    ensures mode == ZeroPage || mode == ZeroPageX || mode == ZeroPageY ==> addr < 0x100
  {
    match mode
    case Immediate => s.programCounter
    case ZeroPage => ByteAt(s, s.programCounter)
    case ZeroPageX => ZeroPageIndexed(s, s.registerX)
    case ZeroPageY => ZeroPageIndexed(s, s.registerY)
    case Absolute => WordAt(s, s.programCounter)
    case AbsoluteX => AbsoluteIndexed(s, s.registerX)
    case AbsoluteY => AbsoluteIndexed(s, s.registerY)
    case IndirectX => IndexedIndirect(s)
    case IndirectY => IndirectIndexed(s)
  }

  /** An instruction with this mode can run without an index panic: its
      operand bytes and the cell it addresses are inside the array. */
  predicate Accessible(s: CpuState, mode: AddressingMode) {
    WellFormed(s) && mode != NoneAddressing && OperandInRange(s, mode) && OperandAddress(s, mode) < MemSize
  }

  /** `and`: A becomes A AND the operand; only A and the Z/N bits change. */
  function ExecAnd(s: CpuState, mode: AddressingMode): (r: CpuState)
    requires Accessible(s, mode)
    ensures r.registerA == And8(s.registerA, ByteAt(s, OperandAddress(s, mode)))
    ensures r.status == ZeroNegative(s.status, r.registerA)
    ensures r.(registerA := s.registerA, status := s.status) == s
  {
    s.(registerA := And8(s.registerA, ByteAt(s, OperandAddress(s, mode))),
       status := ZeroNegative(s.status, And8(s.registerA, ByteAt(s, OperandAddress(s, mode)))))
  }

  /** `lda`: A becomes the operand; only A and the Z/N bits change. */
  function ExecLda(s: CpuState, mode: AddressingMode): (r: CpuState)
    requires Accessible(s, mode)
    ensures r.registerA == ByteAt(s, OperandAddress(s, mode))
    ensures r.status == ZeroNegative(s.status, r.registerA)
    ensures r.(registerA := s.registerA, status := s.status) == s
  {
    s.(registerA := ByteAt(s, OperandAddress(s, mode)),
       status := ZeroNegative(s.status, ByteAt(s, OperandAddress(s, mode))))
  }

  /** `sta`: the addressed cell becomes A; nothing else changes, not even
      the flags. */
  function ExecSta(s: CpuState, mode: AddressingMode): (r: CpuState)
    requires Accessible(s, mode)
    ensures WellFormed(r) && ByteAt(r, OperandAddress(s, mode)) == s.registerA
    ensures forall i :: 0 <= i < MemSize && i != OperandAddress(s, mode) ==> r.memory[i] == s.memory[i]
    ensures r.(memory := s.memory) == s
  {
    WithByte(s, OperandAddress(s, mode), s.registerA)
  }

  /** `tax`: X becomes A; only X and the Z/N bits change. */
  function ExecTax(s: CpuState): (r: CpuState)
    ensures r.registerX == s.registerA && r.status == ZeroNegative(s.status, s.registerA)
    ensures r.(registerX := s.registerX, status := s.status) == s
  {
    s.(registerX := s.registerA, status := ZeroNegative(s.status, s.registerA))
  }

  /** `inx`: X is incremented modulo 256; only X and the Z/N bits change. */
  function ExecInx(s: CpuState): (r: CpuState)
    ensures s.registerX < 0xFF ==> r.registerX == s.registerX + 1
    ensures s.registerX == 0xFF ==> r.registerX == 0
    ensures r.status == ZeroNegative(s.status, r.registerX)
    ensures r.(registerX := s.registerX, status := s.status) == s
  {
    s.(registerX := (s.registerX + 1) % 0x100, status := ZeroNegative(s.status, (s.registerX + 1) % 0x100))
  }

  /** INX wraps: 0xFF becomes 0x00 and sets Z, clearing N. */
  lemma InxWraps(s: CpuState)
    requires s.registerX == 0xFF
    ensures ExecInx(s).registerX == 0
    ensures ExecInx(s).status & ZeroFlag != 0 && ExecInx(s).status & NegativeFlag == 0
  {
  }

  // Dispatch: the codes the loop in `run` executes.

  predicate IsAnd(c: U8) {
    c == 0x29 || c == 0x25 || c == 0x35 || c == 0x2D || c == 0x3D || c == 0x39 || c == 0x21 || c == 0x31
  }

  predicate IsLda(c: U8) {
    c == 0xA9 || c == 0xA5 || c == 0xB5 || c == 0xAD || c == 0xBD || c == 0xB9 || c == 0xA1 || c == 0xB1
  }

  predicate IsSta(c: U8) {
    c == 0x85 || c == 0x95 || c == 0x8D || c == 0x9D || c == 0x99 || c == 0x81 || c == 0x91
  }

  /** The codes the loop has a branch for, BRK excepted. */
  predicate IsImplemented(c: U8) {
    IsAnd(c) || IsLda(c) || IsSta(c) || c == 0xAA || c == 0xE8
  }

  /** The codes the loop has a branch for, BRK included. */
  predicate IsDispatched(c: U8) {
    IsImplemented(c) || c == 0x00
  }

  /** Every entry of `table` is stored under its own code and is one to
      three bytes long. */
  ghost predicate KeyedByCode(table: map<int, OpCode>) {
    forall c :: c in table ==> table[c].code == c && 1 <= table[c].len <= 3
  }

  /** Every code the loop dispatches on has an entry in `table`, and the AND,
      LDA and STA entries name an addressing mode that
      `get_operand_address` supports. */
  ghost predicate CoversDispatch(table: map<int, OpCode>) {
    (forall c: U8 :: IsDispatched(c) ==> c in table)
    && (forall c: U8 :: IsAnd(c) || IsLda(c) || IsSta(c) ==> c in table && table[c].mode != NoneAddressing)
  }

  /** What the loop relies on in the table it consults. */
  ghost predicate Decodes(table: map<int, OpCode>) {
    KeyedByCode(table) && CoversDispatch(table)
  }

  /** The entry `table` holds for the opcode byte at PC. */
  function CurrentOp(table: map<int, OpCode>, s: CpuState): OpCode
    requires WellFormed(s) && s.programCounter < MemSize && ByteAt(s, s.programCounter) in table
  {
    table[ByteAt(s, s.programCounter)]
  }

  /** Why a step panics. */
  datatype Fault =
    | IndexOutOfBounds    // a memory index of 0xFFFF or more
    | MissingOpcode       // `unwrap` on a code that is not in OPCODES_MAP
    | UnsupportedMode     // `get_operand_address` on NoneAddressing
    | ArithmeticOverflow  // `program_counter += len - 1` beyond the u16 range
    | NotImplemented      // `todo!` for an opcode without a branch

  /** Whether the loop goes on, has returned at BRK, or has panicked. */
  datatype Status = Running | Halted | Panicked(fault: Fault)

  datatype StepResult = StepResult(state: CpuState, status: Status)

  /** The closing `program_counter += opcode.len as u16 - 1` of an
      iteration: `len - 1` underflows for a zero length, and the sum must
      stay a `u16`. */
  function Advance(s: CpuState, len: U8): (r: StepResult)
    requires WellFormed(s)
    ensures r.status == Running <==> 1 <= len && s.programCounter + len - 1 < 0x1_0000
    ensures r.status == Running ==> r.state == s.(programCounter := s.programCounter + len - 1)
    ensures r.status != Running ==> r == StepResult(s, Panicked(ArithmeticOverflow))
  {
    if len == 0 || s.programCounter + (len - 1) > 0xFFFF then StepResult(s, Panicked(ArithmeticOverflow))
    else StepResult(s.(programCounter := s.programCounter + (len - 1)), Running)
  }

  /** One iteration of the loop in `run`: fetch the opcode byte at PC, look
      it up in `table` (OPCODES_MAP), move PC past it and dispatch. */
  function Step(table: map<int, OpCode>, s: CpuState): (r: StepResult)
    requires WellFormed(s)
    ensures WellFormed(r.state)
    ensures r.status == Panicked(MissingOpcode) <==>
              s.programCounter < MemSize && ByteAt(s, s.programCounter) !in table
    ensures r.status == Halted ==>
              s.programCounter < MemSize && ByteAt(s, s.programCounter) in table &&
              table[ByteAt(s, s.programCounter)].code == 0x00 &&
              r.state == s.(programCounter := s.programCounter + 1)
  {
    if s.programCounter >= MemSize then StepResult(s, Panicked(IndexOutOfBounds))
    else if ByteAt(s, s.programCounter) !in table then StepResult(s, Panicked(MissingOpcode))
    else Dispatch(s.(programCounter := s.programCounter + 1), CurrentOp(table, s))
  }

  /** The `match` of `run` on the fetched entry's code, PC already past the
      opcode byte. */
  function Dispatch(s: CpuState, op: OpCode): (r: StepResult)
    requires WellFormed(s)
    ensures WellFormed(r.state)
    ensures r.status == Halted <==> op.code == 0x00
    ensures r.status == Panicked(NotImplemented) <==> !IsDispatched(op.code)
    ensures r.status == Halted ==> r.state == s
  {
    if IsAnd(op.code) || IsLda(op.code) || IsSta(op.code) then
      if op.mode == NoneAddressing then StepResult(s, Panicked(UnsupportedMode))
      else if !Accessible(s, op.mode) then StepResult(s, Panicked(IndexOutOfBounds))
      else if IsAnd(op.code) then Advance(ExecAnd(s, op.mode), op.len)
      else if IsLda(op.code) then Advance(ExecLda(s, op.mode), op.len)
      else Advance(ExecSta(s, op.mode), op.len)
    else if op.code == 0xAA then Advance(ExecTax(s), op.len)
    else if op.code == 0xE8 then Advance(ExecInx(s), op.len)
    else if op.code == 0x00 then StepResult(s, Halted)
    else StepResult(s, Panicked(NotImplemented))
  }

  /** The byte just below PC is one whose entry in `table` is BRK. */
  predicate BrkBehind(table: map<int, OpCode>, s: CpuState) {
    WellFormed(s) && 1 <= s.programCounter <= MemSize &&
    ByteAt(s, s.programCounter - 1) in table &&
    table[ByteAt(s, s.programCounter - 1)].code == 0x00
  }

  /** `run` with at most `fuel` iterations: the result of the first step
      that halts or panics, or the state after `fuel` steps still
      `Running`. */
  function Execute(table: map<int, OpCode>, s: CpuState, fuel: nat): (r: StepResult)
    requires WellFormed(s)
    ensures WellFormed(r.state)
    ensures r.status != Running ==> fuel > 0
    ensures r.status == Halted ==> BrkBehind(table, r.state)
    decreases fuel
  {
    if fuel == 0 then StepResult(s, Running)
    else if Step(table, s).status == Running then Execute(table, Step(table, s).state, fuel - 1)
    else Step(table, s)
  }

  /** The state after `reset`: A, X and the status are cleared, PC is the
      word at the reset vector 0xFFFC, Y and the memory are kept. */
  function AfterReset(s: CpuState): (r: CpuState)
    requires WellFormed(s)
    ensures WellFormed(r) && r.registerA == 0 && r.registerX == 0 && r.status == 0
    ensures r.programCounter == WordAt(s, 0xFFFC)
    ensures r.registerY == s.registerY && r.memory == s.memory
  {
    s.(registerA := 0, registerX := 0, status := 0, programCounter := WordAt(s, 0xFFFC))
  }

  /** The state after `load(program)`: the program copied to 0x8000 onwards,
      then 0x8000 stored little-endian at the reset vector. */
  function Loaded(s: CpuState, program: seq<U8>): (r: CpuState)
    requires WellFormed(s) && 0x8000 + |program| <= MemSize
    ensures WellFormed(r)
    ensures forall i :: 0 <= i < |program| && 0x8000 + i != 0xFFFC && 0x8000 + i != 0xFFFD ==>
              r.memory[0x8000 + i] == program[i]
    ensures forall i :: 0 <= i < 0x8000 ==> r.memory[i] == s.memory[i]
    ensures forall i :: 0x8000 + |program| <= i < MemSize && i != 0xFFFC && i != 0xFFFD ==> r.memory[i] == s.memory[i]
    ensures ByteAt(r, 0xFFFC) == 0x00 && ByteAt(r, 0xFFFD) == 0x80
    ensures r.(memory := s.memory) == s
  {
    WithWord(s.(memory := s.memory[..0x8000] + program + s.memory[0x8000 + |program|..]), 0xFFFC, 0x8000)
  }

  /** `load` followed by `reset` starts the program at 0x8000 with A, X and
      the status cleared and Y untouched. */
  lemma ResetAfterLoad(s: CpuState, program: seq<U8>)
    requires WellFormed(s) && 0x8000 + |program| <= MemSize
    ensures AfterReset(Loaded(s, program)).programCounter == 0x8000
    ensures AfterReset(Loaded(s, program)).registerA == 0 && AfterReset(Loaded(s, program)).registerX == 0
    ensures AfterReset(Loaded(s, program)).status == 0 && AfterReset(Loaded(s, program)).registerY == s.registerY
  {
    assert WordAt(Loaded(s, program), 0xFFFC) == Word(0x00, 0x80);
  }

  /** OPCODES_MAP has an entry, stored under its own code, for every code
      the loop dispatches on; the AND, LDA and STA entries name an
      addressing mode that `get_operand_address` supports. */
  lemma AndInMap()
    ensures forall c: U8 :: IsAnd(c) ==> c in OpcodesMap && OpcodesMap[c].code == c && OpcodesMap[c].mode != NoneAddressing
  {
    AndOpsInTable();
    forall c: U8 | IsAnd(c)
      ensures c in OpcodesMap && OpcodesMap[c].code == c && OpcodesMap[c].mode != NoneAddressing
    {
      var i := if c == 0x29 then 0 else if c == 0x25 then 1 else if c == 0x35 then 2 else if c == 0x2D then 3 else if c == 0x3D then 4 else if c == 0x39 then 5 else if c == 0x21 then 6 else 7;
      assert AndOps[i].code == c;
      OpcodesMapEntry(AndOps[i]);
    }
  }

  lemma LdaInMap()
    ensures forall c: U8 :: IsLda(c) ==> c in OpcodesMap && OpcodesMap[c].code == c && OpcodesMap[c].mode != NoneAddressing
  {
    LdaInTable();
    forall c: U8 | IsLda(c)
      ensures c in OpcodesMap && OpcodesMap[c].code == c && OpcodesMap[c].mode != NoneAddressing
    {
      var i := if c == 0xA9 then 0 else if c == 0xA5 then 1 else if c == 0xB5 then 2 else if c == 0xAD then 3 else if c == 0xBD then 4 else if c == 0xB9 then 5 else if c == 0xA1 then 6 else 7;
      assert Lda[i].code == c;
      OpcodesMapEntry(Lda[i]);
    }
  }

  lemma StaInMap()
    ensures forall c: U8 :: IsSta(c) ==> c in OpcodesMap && OpcodesMap[c].code == c && OpcodesMap[c].mode != NoneAddressing
  {
    StaInTable();
    forall c: U8 | IsSta(c)
      ensures c in OpcodesMap && OpcodesMap[c].code == c && OpcodesMap[c].mode != NoneAddressing
    {
      var i := if c == 0x85 then 0 else if c == 0x95 then 1 else if c == 0x8D then 2 else if c == 0x9D then 3 else if c == 0x99 then 4 else if c == 0x81 then 5 else 6;
      assert Sta[i].code == c;
      OpcodesMapEntry(Sta[i]);
    }
  }

  lemma TaxInMap()
    ensures 0xAA in OpcodesMap && OpcodesMap[0xAA].code == 0xAA
  {
    TransfersInTable();
    SectionInMap(Transfers);
    assert Transfers[0].code == 0xAA;
  }

  lemma InxInMap()
    ensures 0xE8 in OpcodesMap && OpcodesMap[0xE8].code == 0xE8
  {
    IncInTable();
    SectionInMap(Inc);
    assert Inc[4].code == 0xE8;
  }

  lemma BrkInMap()
    ensures 0x00 in OpcodesMap && OpcodesMap[0x00].code == 0x00
  {
    MiscInTable();
    SectionInMap(Misc);
    assert Misc[0].code == 0x00;
  }

  /** OPCODES_MAP stores each entry under its own code. */
  lemma OpcodesMapKeyed()
    ensures KeyedByCode(OpcodesMap)
  {
    forall c | c in OpcodesMap
      ensures OpcodesMap[c].code == c && 1 <= OpcodesMap[c].len <= 3
    {
      OpcodesMapWellFormed(c);
    }
  }

  /** OPCODES_MAP has an entry for every code the loop dispatches on. */
  lemma OpcodesMapCovers()
    ensures CoversDispatch(OpcodesMap)
  {
    AndInMap();
    LdaInMap();
    StaInMap();
    TaxInMap();
    InxInMap();
    BrkInMap();
  }

  /** OPCODES_MAP has what the loop relies on. */
  lemma OpcodesMapDecodes()
    ensures Decodes(OpcodesMap)
  {
    OpcodesMapKeyed();
    OpcodesMapCovers();
  }

  /** A step that continues executed one of the implemented codes, the one
      at PC, and moved PC forward by exactly the length of its entry. */
  lemma StepAdvancesPc(table: map<int, OpCode>, s: CpuState)
    requires WellFormed(s) && Decodes(table) && Step(table, s).status == Running
    ensures s.programCounter < MemSize && ByteAt(s, s.programCounter) in table
    ensures CurrentOp(table, s).code == ByteAt(s, s.programCounter)
    ensures IsImplemented(ByteAt(s, s.programCounter))
    ensures Step(table, s).state.programCounter == s.programCounter + CurrentOp(table, s).len
  {
  }

  /** A step halts exactly when PC points at a BRK (0x00) byte. */
  lemma StepHaltsAtBrk(table: map<int, OpCode>, s: CpuState)
    requires WellFormed(s) && Decodes(table)
    ensures Step(table, s).status == Halted <==> s.programCounter < MemSize && ByteAt(s, s.programCounter) == 0x00
  {
    if s.programCounter < MemSize && ByteAt(s, s.programCounter) == 0x00 {
      assert IsDispatched(0x00);
    }
  }

  /** A step that halts only moves PC past the BRK byte. */
  lemma HaltedState(table: map<int, OpCode>, s: CpuState)
    requires WellFormed(s) && Step(table, s).status == Halted
    ensures Step(table, s).state == s.(programCounter := s.programCounter + 1)
  {
  }

  /** A step reaches `todo!` exactly when the byte at PC has an entry that
      the loop has no branch for. */
  lemma StepNotImplemented(table: map<int, OpCode>, s: CpuState)
    requires WellFormed(s) && Decodes(table)
    ensures Step(table, s).status == Panicked(NotImplemented) <==>
              s.programCounter < MemSize && ByteAt(s, s.programCounter) in table && !IsDispatched(ByteAt(s, s.programCounter))
  {
  }

  /** PC is just past a BRK (0x00) byte. */
  predicate PastBrk(s: CpuState) {
    WellFormed(s) && 1 <= s.programCounter <= MemSize && ByteAt(s, s.programCounter - 1) == 0x00
  }

  /** A step that halts leaves PC just past the BRK byte it fetched. */
  lemma HaltedPastBrk(table: map<int, OpCode>, s: CpuState)
    requires WellFormed(s) && KeyedByCode(table) && Step(table, s).status == Halted
    ensures PastBrk(Step(table, s).state)
  {
    HaltedState(table, s);
  }

  /** `run` goes on from the state a continuing step leaves. */
  lemma ExecuteContinues(table: map<int, OpCode>, s: CpuState, fuel: nat)
    requires WellFormed(s) && 0 < fuel && Step(table, s).status == Running
    ensures Execute(table, s, fuel) == Execute(table, Step(table, s).state, fuel - 1)
  {
  }

  /** `run` ends with the first step that halts or panics. */
  lemma ExecuteStops(table: map<int, OpCode>, s: CpuState, fuel: nat)
    requires WellFormed(s) && 0 < fuel && Step(table, s).status != Running
    ensures Execute(table, s, fuel) == Step(table, s)
  {
  }

  /** When `run` returns, it has just executed a BRK: the byte before the
      final PC is 0x00. */
  lemma {:induction false} ExecuteHaltsAtBrk(table: map<int, OpCode>, s: CpuState, fuel: nat)
    requires WellFormed(s) && KeyedByCode(table)
    ensures Execute(table, s, fuel).status == Halted ==> PastBrk(Execute(table, s, fuel).state)
    decreases fuel, 1
  {
    if fuel != 0 {
      var r := Step(table, s);
      if r.status == Running {
        HaltsAfterRunning(table, s, r.state, fuel - 1);
      } else if r.status == Halted {
        ExecuteStops(table, s, fuel);
        HaltedPastBrk(table, s);
      }
    }
  }

  /** The inductive step of `ExecuteHaltsAtBrk`: a run that starts with a
      continuing step goes on from the state that step leaves. */
  lemma {:induction false} HaltsAfterRunning(table: map<int, OpCode>, s: CpuState, t: CpuState, k: nat)
    requires WellFormed(s) && WellFormed(t) && KeyedByCode(table) && Step(table, s) == StepResult(t, Running)
    ensures Execute(table, s, k + 1).status == Halted ==> PastBrk(Execute(table, s, k + 1).state)
    decreases k + 1, 0
  {
    ExecuteHaltsAtBrk(table, t, k);
    ExecuteContinues(table, s, k + 1);
  }

  /** The source's `CPU` struct: the registers are fields that the methods
      update, and `memory` is the 0xFFFF-cell array they read and write in
      place.  `opcodes` is the OPCODES_MAP the loop consults. */
  class CPU {
    var registerA: U8
    var registerX: U8
    var registerY: U8
    var status: bv8
    var programCounter: U16
    const memory: array<U8>
    const opcodes: map<int, OpCode>

    ghost predicate Valid()
      reads this
    {
      memory.Length == MemSize
    }

    /** The registers and the memory contents as a `CpuState` value. */
    ghost function State(): (s: CpuState)
      reads this, memory
      requires Valid()
      ensures WellFormed(s)
    {
      CpuState(registerA, registerX, registerY, status, programCounter, memory[..])
    }

    /** `CPU::new`. */
    constructor ()
      ensures Valid() && fresh(memory) && opcodes == OpcodesMap
      ensures State() == PowerOn()
    {
      registerA, registerX, registerY, status, programCounter := 0, 0, 0, 0, 0;
      memory := new U8[MemSize](_ => 0);
      opcodes := OpcodesMap;
    }

    /** `mem_read`. */
    method MemRead(addr: int) returns (data: U8)
      requires Valid() && 0 <= addr < MemSize
      ensures data == ByteAt(State(), addr)
    {
      data := memory[addr];
    }

    /** `mem_write`. */
    method MemWrite(addr: int, data: U8)
      requires Valid() && 0 <= addr < MemSize
      modifies memory
      ensures State() == WithByte(old(State()), addr, data)
    {
      memory[addr] := data;
    }

    /** `mem_read_u16`. */
    method MemReadU16(pos: int) returns (data: U16)
      requires Valid() && 0 <= pos && pos + 1 < MemSize
      ensures data == WordAt(State(), pos)
    {
      var lo := MemRead(pos);
      var hi := MemRead(pos + 1);
      data := Word(lo, hi);
    }

    /** `mem_write_u16`. */
    method MemWriteU16(pos: int, data: U16)
      requires Valid() && 0 <= pos && pos + 1 < MemSize
      modifies memory
      ensures State() == WithWord(old(State()), pos, data)
    {
      MemWrite(pos, Lo(data));
      MemWrite(pos + 1, Hi(data));
    }

    /** `reset`. */
    method Reset()
      requires Valid()
      modifies this
      ensures State() == AfterReset(old(State()))
    {
      registerA := 0;
      registerX := 0;
      status := 0;
      programCounter := MemReadU16(0xFFFC);
    }

    /** `load`: `copy_from_slice` into 0x8000.., then the reset vector. */
    method Load(program: seq<U8>)
      requires Valid() && 0x8000 + |program| <= MemSize
      modifies memory
      ensures State() == Loaded(old(State()), program)
    {
      forall i | 0 <= i < |program| {
        memory[0x8000 + i] := program[i];
      }
      assert memory[..] == old(memory[..])[..0x8000] + program + old(memory[..])[0x8000 + |program|..];
      MemWriteU16(0xFFFC, 0x8000);
    }

    /** `update_zero_and_negative_flags`. */
    method UpdateZeroAndNegativeFlags(result: U8)
      requires Valid()
      modifies this
      ensures State() == old(State()).(status := ZeroNegative(old(status), result))
    {
      if result == 0 {
        status := status | 0x02;
      } else {
        status := status & 0xFD;
      }
      if result >= 0x80 {
        status := status | 0x80;
      } else {
        status := status & 0x7F;
      }
    }

    /** `get_operand_address`. */
    method GetOperandAddress(mode: AddressingMode) returns (addr: U16)
      requires Valid() && OperandInRange(State(), mode) && mode != NoneAddressing
      ensures addr == OperandAddress(State(), mode)
    {
      match mode
      case Immediate =>
        addr := programCounter;
      case ZeroPage =>
        addr := MemRead(programCounter);
      case Absolute =>
        addr := MemReadU16(programCounter);
      case ZeroPageX =>
        addr := ZeroPageIndexedAddress(registerX);
      case ZeroPageY =>
        addr := ZeroPageIndexedAddress(registerY);
      case AbsoluteX =>
        addr := AbsoluteIndexedAddress(registerX);
      case AbsoluteY =>
        addr := AbsoluteIndexedAddress(registerY);
      case IndirectX =>
        addr := IndexedIndirectAddress();
      case IndirectY =>
        addr := IndirectIndexedAddress();
    }

    /** The `ZeroPage_X` / `ZeroPage_Y` arms: `pos.wrapping_add(index)`. */
    method ZeroPageIndexedAddress(index: U8) returns (addr: U16)
      requires Valid() && programCounter < MemSize
      ensures addr == ZeroPageIndexed(State(), index)
    {
      var pos := MemRead(programCounter);
      addr := (pos + index) % 0x100;
    }

    /** The `Absolute_X` / `Absolute_Y` arms: the operand word
        `wrapping_add` the index. */
    method AbsoluteIndexedAddress(index: U8) returns (addr: U16)
      requires Valid() && programCounter + 1 < MemSize
      ensures addr == AbsoluteIndexed(State(), index)
    {
      var pos := MemReadU16(programCounter);
      addr := (pos + index) % 0x1_0000;
    }

    /** The `Indirect_X` arm. */
    method IndexedIndirectAddress() returns (addr: U16)
      requires Valid() && programCounter < MemSize
      ensures addr == IndexedIndirect(State())
    {
      var base := MemRead(programCounter);
      var ptr := (base + registerX) % 0x100;
      var lo := MemRead(ptr);
      var hi := MemRead((ptr + 1) % 0x100);
      addr := Word(lo, hi);
    }

    /** The `Indirect_Y` arm. */
    method IndirectIndexedAddress() returns (addr: U16)
      requires Valid() && programCounter < MemSize
      ensures addr == IndirectIndexed(State())
    {
      var base := MemRead(programCounter);
      var lo := MemRead(base);
      var hi := MemRead((base as int + 1) % 0x100);
      addr := (Word(lo, hi) + registerY) % 0x1_0000;
    }

    /** Whether the instruction's memory reads stay inside the array; the
        source panics at the first index that does not. */
    method CanAccess(mode: AddressingMode) returns (ok: bool)
      requires Valid() && mode != NoneAddressing
      ensures ok <==> Accessible(State(), mode)
    {
      var inRange := match mode
        case Absolute | AbsoluteX | AbsoluteY => programCounter + 1 < MemSize
        case _ => programCounter < MemSize;
      if !inRange {
        return false;
      }
      var addr := GetOperandAddress(mode);
      ok := addr < MemSize;
    }

    /** `and`. */
    method And(mode: AddressingMode)
      requires Valid() && Accessible(State(), mode)
      modifies this
      ensures State() == ExecAnd(old(State()), mode)
    {
      var addr := GetOperandAddress(mode);
      var data := MemRead(addr);
      registerA := And8(registerA, data);
      UpdateZeroAndNegativeFlags(registerA);
    }

    /** `lda`. */
    method Lda(mode: AddressingMode)
      requires Valid() && Accessible(State(), mode)
      modifies this
      ensures State() == ExecLda(old(State()), mode)
    {
      var addr := GetOperandAddress(mode);
      var value := MemRead(addr);
      registerA := value;
      UpdateZeroAndNegativeFlags(registerA);
    }

    /** `tax`. */
    method Tax()
      requires Valid()
      modifies this
      ensures State() == ExecTax(old(State()))
    {
      registerX := registerA;
      UpdateZeroAndNegativeFlags(registerX);
    }

    /** `inx`: `wrapping_add(1)`. */
    method Inx()
      requires Valid()
      modifies this
      ensures State() == ExecInx(old(State()))
    {
      registerX := (registerX + 1) % 0x100;
      UpdateZeroAndNegativeFlags(registerX);
    }

    /** `sta`. */
    method Sta(mode: AddressingMode)
      requires Valid() && Accessible(State(), mode)
      modifies memory
      ensures State() == ExecSta(old(State()), mode)
    {
      var target := GetOperandAddress(mode);
      MemWrite(target, registerA);
    }

    /** One iteration of the loop in `run`; the outcome says whether the loop
        goes on, returns at BRK or panics. */
    method RunOnce() returns (outcome: Status)
      requires Valid()
      modifies this, memory
      ensures StepResult(State(), outcome) == Step(opcodes, old(State()))
    {
      if programCounter >= MemSize {
        return Panicked(IndexOutOfBounds);
      }
      var code := MemRead(programCounter);
      if code !in opcodes {
        return Panicked(MissingOpcode);
      }
      var opcode := opcodes[code];
      programCounter := programCounter + 1;
      outcome := Execute1(opcode);
    }

    /** The `match` on the fetched entry and the closing PC update. */
    method Execute1(opcode: OpCode) returns (outcome: Status)
      requires Valid()
      modifies this, memory
      ensures StepResult(State(), outcome) == Dispatch(old(State()), opcode)
    {
      if IsAnd(opcode.code) || IsLda(opcode.code) || IsSta(opcode.code) {
        if opcode.mode == NoneAddressing {
          return Panicked(UnsupportedMode);
        }
        var accessible := CanAccess(opcode.mode);
        if !accessible {
          return Panicked(IndexOutOfBounds);
        }
        if IsAnd(opcode.code) {
          And(opcode.mode);
        } else if IsLda(opcode.code) {
          Lda(opcode.mode);
        } else {
          Sta(opcode.mode);
        }
      } else if opcode.code == 0xAA {
        Tax();
      } else if opcode.code == 0xE8 {
        Inx();
      } else if opcode.code == 0x00 {
        return Halted;
      } else {
        return Panicked(NotImplemented);
      }
      if opcode.len == 0 || programCounter + (opcode.len - 1) > 0xFFFF {
        return Panicked(ArithmeticOverflow);
      }
      programCounter := programCounter + (opcode.len - 1);
      outcome := Running;
    }

    /** `run`, for at most `fuel` iterations. */
    method Run(fuel: nat) returns (outcome: Status)
      requires Valid()
      modifies this, memory
      ensures StepResult(State(), outcome) == Execute(opcodes, old(State()), fuel)
    {
      ghost var result := Execute(opcodes, State(), fuel);
      var n := 0;
      outcome := Running;
      while n < fuel && outcome == Running
        invariant Valid() && n <= fuel
        invariant outcome == Running ==> result == Execute(opcodes, State(), fuel - n)
        invariant outcome != Running ==> result == StepResult(State(), outcome)
        decreases fuel - n
      {
        ghost var before := State();
        outcome := RunOnce();
        if outcome == Running {
          ExecuteContinues(opcodes, before, fuel - n);
        } else {
          ExecuteStops(opcodes, before, fuel - n);
        }
        n := n + 1;
      }
    }

    /** `load_and_run`. */
    method LoadAndRun(program: seq<U8>, fuel: nat) returns (outcome: Status)
      requires Valid() && 0x8000 + |program| <= MemSize
      modifies this, memory
      ensures StepResult(State(), outcome) == Execute(opcodes, AfterReset(Loaded(old(State()), program)), fuel)
    {
      Load(program);
      Reset();
      outcome := Run(fuel);
    }
  }
}
