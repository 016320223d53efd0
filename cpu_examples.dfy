/** The programs of the unit tests at the end of src/cpu.rs, run through
    the model of `load_and_run`.  Each instruction of a program is one
    `Step` lemma over an arbitrary state, and a program is the chain of
    those steps on the state `load` and `reset` leave. */
module CpuExamples {
  import opened Bits
  import opened Addressing
  import opened Opcodes
  import opened Cpu

  /** The five OPCODES_MAP entries the test programs use. */
  predicate HasTestEntries(table: map<int, OpCode>) {
    && 0xA9 in table && table[0xA9] == OpCode(0xA9, "LDA", 2, 2, Immediate)
    && 0x29 in table && table[0x29] == OpCode(0x29, "AND", 2, 2, Immediate)
    && 0xAA in table && table[0xAA] == OpCode(0xAA, "TAX", 1, 2, NoneAddressing)
    && 0xE8 in table && table[0xE8] == OpCode(0xE8, "INX", 1, 2, NoneAddressing)
    && 0x00 in table && table[0x00] == OpCode(0x00, "BRK", 1, 7, NoneAddressing)
    && 0xA5 in table && table[0xA5] == OpCode(0xA5, "LDA", 2, 3, ZeroPage)
    && 0x25 in table && table[0x25] == OpCode(0x25, "AND", 2, 3, ZeroPage)
    && 0x85 in table && table[0x85] == OpCode(0x85, "STA", 2, 3, ZeroPage)
  }

  /** OPCODES_MAP holds those entries. */
  lemma OpcodesMapHasTestEntries()
    ensures HasTestEntries(OpcodesMap)
  {
    LdaInTable();
    OpcodesMapEntry(Lda[0]);
    AndOpsInTable();
    OpcodesMapEntry(AndOps[0]);
    TransfersInTable();
    OpcodesMapEntry(Transfers[0]);
    IncInTable();
    OpcodesMapEntry(Inc[4]);
    MiscInTable();
    OpcodesMapEntry(Misc[0]);
    OpcodesMapEntry(Lda[1]);
    OpcodesMapEntry(AndOps[1]);
    StaInTable();
    OpcodesMapEntry(Sta[0]);
  }

  /** `LDA #imm` loads the byte after the opcode and moves PC past both. */
  lemma LdaImmediateStep(table: map<int, OpCode>, s: CpuState)
    requires WellFormed(s) && HasTestEntries(table)
    requires s.programCounter + 1 < MemSize && ByteAt(s, s.programCounter) == 0xA9
    ensures Step(table, s) == StepResult(s.(registerA := ByteAt(s, s.programCounter + 1),
                                            status := ZeroNegative(s.status, ByteAt(s, s.programCounter + 1)),
                                            programCounter := s.programCounter + 2), Running)
  {
  }

  /** `AND #imm` ANDs the byte after the opcode into A. */
  lemma AndImmediateStep(table: map<int, OpCode>, s: CpuState)
    requires WellFormed(s) && HasTestEntries(table)
    requires s.programCounter + 1 < MemSize && ByteAt(s, s.programCounter) == 0x29
    ensures Step(table, s) == StepResult(s.(registerA := And8(s.registerA, ByteAt(s, s.programCounter + 1)),
                                            status := ZeroNegative(s.status, And8(s.registerA, ByteAt(s, s.programCounter + 1))),
                                            programCounter := s.programCounter + 2), Running)
  {
  }

  /** `LDA $zz` loads the zero-page cell the byte after the opcode names. */
  lemma LdaZeroPageStep(table: map<int, OpCode>, s: CpuState)
    requires WellFormed(s) && HasTestEntries(table)
    requires s.programCounter + 1 < MemSize && ByteAt(s, s.programCounter) == 0xA5
    ensures Step(table, s) == StepResult(s.(registerA := ByteAt(s, ByteAt(s, s.programCounter + 1)),
                                            status := ZeroNegative(s.status, ByteAt(s, ByteAt(s, s.programCounter + 1))),
                                            programCounter := s.programCounter + 2), Running)
  {
  }

  /** `AND $zz` ANDs that zero-page cell into A. */
  lemma AndZeroPageStep(table: map<int, OpCode>, s: CpuState)
    requires WellFormed(s) && HasTestEntries(table)
    requires s.programCounter + 1 < MemSize && ByteAt(s, s.programCounter) == 0x25
    ensures var v := And8(s.registerA, ByteAt(s, ByteAt(s, s.programCounter + 1)));
            Step(table, s) == StepResult(s.(registerA := v, status := ZeroNegative(s.status, v),
                                            programCounter := s.programCounter + 2), Running)
  {
  }

  /** `STA $zz` stores A into that zero-page cell and leaves the flags. */
  lemma StaZeroPageStep(table: map<int, OpCode>, s: CpuState)
    requires WellFormed(s) && HasTestEntries(table)
    requires s.programCounter + 1 < MemSize && ByteAt(s, s.programCounter) == 0x85
    ensures Step(table, s) == StepResult(WithByte(s, ByteAt(s, s.programCounter + 1), s.registerA)
                                            .(programCounter := s.programCounter + 2), Running)
  {
  }

  /** `TAX` copies A to X and moves PC past the opcode. */
  lemma TaxStep(table: map<int, OpCode>, s: CpuState)
    requires WellFormed(s) && HasTestEntries(table)
    requires s.programCounter < MemSize && ByteAt(s, s.programCounter) == 0xAA
    ensures Step(table, s) == StepResult(s.(registerX := s.registerA, status := ZeroNegative(s.status, s.registerA),
                                            programCounter := s.programCounter + 1), Running)
  {
  }

  /** `INX` increments X modulo 256 and moves PC past the opcode. */
  lemma InxStep(table: map<int, OpCode>, s: CpuState)
    requires WellFormed(s) && HasTestEntries(table)
    requires s.programCounter < MemSize && ByteAt(s, s.programCounter) == 0xE8
    ensures Step(table, s) == StepResult(s.(registerX := (s.registerX + 1) % 0x100,
                                            status := ZeroNegative(s.status, (s.registerX + 1) % 0x100),
                                            programCounter := s.programCounter + 1), Running)
  {
  }

  /** `BRK` ends the run. */
  lemma BrkStep(table: map<int, OpCode>, s: CpuState, k: nat)
    requires WellFormed(s) && HasTestEntries(table)
    requires s.programCounter < MemSize && ByteAt(s, s.programCounter) == 0x00
    ensures Execute(table, s, k + 1) == StepResult(s.(programCounter := s.programCounter + 1), Halted)
  {
    ExecuteStops(table, s, k + 1);
  }

  /** The state `load(program)` and then `reset` leave on a fresh CPU. */
  function Started(program: seq<U8>): (s: CpuState)
    requires 0x8000 + |program| <= 0xFFFC
    ensures WellFormed(s) && s.programCounter == 0x8000
    ensures s.registerA == 0 && s.registerX == 0 && s.registerY == 0 && s.status == 0
    ensures forall i :: 0 <= i < |program| ==> ByteAt(s, 0x8000 + i) == program[i]
  {
    ResetAfterLoad(PowerOn(), program);
    AfterReset(Loaded(PowerOn(), program))
  }

  /** The state `mem_write(addr, data)`, `load(program)` and then `reset`
      leave on a fresh CPU. */
  function StartedAfterWrite(addr: int, data: U8, program: seq<U8>): (s: CpuState)
    requires 0 <= addr < 0x8000 && 0x8000 + |program| <= 0xFFFC
    ensures WellFormed(s) && s.programCounter == 0x8000
    ensures s.registerA == 0 && s.registerX == 0 && s.registerY == 0 && s.status == 0
    ensures forall i :: 0 <= i < |program| ==> ByteAt(s, 0x8000 + i) == program[i]
    ensures ByteAt(s, addr) == data
  {
    ResetAfterLoad(WithByte(PowerOn(), addr, data), program);
    AfterReset(Loaded(WithByte(PowerOn(), addr, data), program))
  }

  /** `test_0xa9_lda_immediate_load_data`: LDA #$05; BRK leaves A = 5 with
      Z and N clear. */
  lemma LdaImmediate(table: map<int, OpCode>, k: nat)
    requires HasTestEntries(table)
    ensures var r := Execute(table, Started([0xA9, 0x05, 0x00]), k + 2);
            r.status == Halted && r.state.registerA == 0x05
            && r.state.status & ZeroFlag == 0 && r.state.status & NegativeFlag == 0
  {
    var s0 := Started([0xA9, 0x05, 0x00]);
    LdaImmediateStep(table, s0);
    ExecuteContinues(table, s0, k + 2);
    BrkStep(table, Step(table, s0).state, k);
  }

  /** `test_0xa9_lda_zero_flag`: LDA #$00; BRK sets Z. */
  lemma LdaZeroFlag(table: map<int, OpCode>, k: nat)
    requires HasTestEntries(table)
    ensures var r := Execute(table, Started([0xA9, 0x00, 0x00]), k + 2);
            r.status == Halted && r.state.status & ZeroFlag == ZeroFlag
  {
    var s0 := Started([0xA9, 0x00, 0x00]);
    LdaImmediateStep(table, s0);
    ExecuteContinues(table, s0, k + 2);
    BrkStep(table, Step(table, s0).state, k);
  }

  /** `test_lda_from_memory`: with 0x55 written at 0x10 first, LDA $10; BRK
      leaves A = 0x55. */
  lemma LdaFromMemory(table: map<int, OpCode>, k: nat)
    requires HasTestEntries(table)
    ensures var r := Execute(table, StartedAfterWrite(0x10, 0x55, [0xA5, 0x10, 0x00]), k + 2);
            r.status == Halted && r.state.registerA == 0x55
  {
    var s0 := StartedAfterWrite(0x10, 0x55, [0xA5, 0x10, 0x00]);
    LdaZeroPageStep(table, s0);
    ExecuteContinues(table, s0, k + 2);
    BrkStep(table, Step(table, s0).state, k);
  }

  /** `test_and_zero_flag`: LDA #$05; AND #$00; BRK sets Z. */
  lemma AndZeroFlag(table: map<int, OpCode>, k: nat)
    requires HasTestEntries(table)
    ensures var r := Execute(table, Started([0xA9, 0x05, 0x29, 0x00, 0x00]), k + 3);
            r.status == Halted && r.state.status & ZeroFlag == ZeroFlag
  {
    var s0 := Started([0xA9, 0x05, 0x29, 0x00, 0x00]);
    LdaImmediateStep(table, s0);
    var s1 := Step(table, s0).state;
    ExecuteContinues(table, s0, k + 3);
    AndImmediateStep(table, s1);
    var s2 := Step(table, s1).state;
    ExecuteContinues(table, s1, k + 2);
    assert And8(0x05, 0x00) == 0x00;
    BrkStep(table, s2, k);
  }

  /** `test_and_from_memory`: with 0x51 written at 0x10 first, LDA #$55;
      AND $10; BRK leaves A = 0x51. */
  lemma AndFromMemory(table: map<int, OpCode>, k: nat)
    requires HasTestEntries(table)
    ensures var r := Execute(table, StartedAfterWrite(0x10, 0x51, [0xA9, 0x55, 0x25, 0x10, 0x00]), k + 3);
            r.status == Halted && r.state.registerA == 0x51
  {
    var s0 := StartedAfterWrite(0x10, 0x51, [0xA9, 0x55, 0x25, 0x10, 0x00]);
    LdaImmediateStep(table, s0);
    var s1 := Step(table, s0).state;
    ExecuteContinues(table, s0, k + 3);
    AndZeroPageStep(table, s1);
    var s2 := Step(table, s1).state;
    ExecuteContinues(table, s1, k + 2);
    assert And8(0x55, 0x51) == 0x51;
    BrkStep(table, s2, k);
  }

  /** `test_sta`: with A set to 0x60 after `reset`, STA $10; BRK leaves 0x60
      at 0x10. */
  lemma StoreAccumulator(table: map<int, OpCode>, k: nat)
    requires HasTestEntries(table)
    ensures var r := Execute(table, Started([0x85, 0x10, 0x00]).(registerA := 0x60), k + 2);
            r.status == Halted && ByteAt(r.state, 0x10) == 0x60
  {
    var s0 := Started([0x85, 0x10, 0x00]).(registerA := 0x60);
    StaZeroPageStep(table, s0);
    ExecuteContinues(table, s0, k + 2);
    BrkStep(table, Step(table, s0).state, k);
  }

  /** `test_0xaa_tax_move_a_to_x`: with A set to 5 after `reset`, TAX; BRK
      leaves X = 5. */
  lemma TaxMovesAToX(table: map<int, OpCode>, k: nat)
    requires HasTestEntries(table)
    ensures var r := Execute(table, Started([0xAA, 0x00]).(registerA := 5), k + 2);
            r.status == Halted && r.state.registerX == 5
  {
    var s0 := Started([0xAA, 0x00]).(registerA := 5);
    TaxStep(table, s0);
    ExecuteContinues(table, s0, k + 2);
    BrkStep(table, Step(table, s0).state, k);
  }

  /** `test_5_ops_working_together`: LDA #$C0; TAX; INX; BRK leaves X =
      0xC1 and stops after the fourth instruction, just past the BRK. */
  lemma FiveOpsWorkingTogether(table: map<int, OpCode>, k: nat)
    requires HasTestEntries(table)
    ensures Execute(table, Started([0xA9, 0xC0, 0xAA, 0xE8, 0x00]), k + 4).status == Halted
    ensures Execute(table, Started([0xA9, 0xC0, 0xAA, 0xE8, 0x00]), k + 4).state.registerX == 0xC1
    ensures Execute(table, Started([0xA9, 0xC0, 0xAA, 0xE8, 0x00]), k + 4).state.programCounter == 0x8005
  {
    var s0 := Started([0xA9, 0xC0, 0xAA, 0xE8, 0x00]);
    LdaImmediateStep(table, s0);
    var s1 := Step(table, s0).state;
    ExecuteContinues(table, s0, k + 4);
    TaxStep(table, s1);
    var s2 := Step(table, s1).state;
    ExecuteContinues(table, s1, k + 3);
    InxStep(table, s2);
    var s3 := Step(table, s2).state;
    ExecuteContinues(table, s2, k + 2);
    BrkStep(table, s3, k);
  }

  /** `test_inx_overflow`: with X = 0xFF, INX; INX; BRK leaves X = 1. */
  lemma InxOverflow(table: map<int, OpCode>, k: nat)
    requires HasTestEntries(table)
    ensures Execute(table, Started([0xE8, 0xE8, 0x00]).(registerX := 0xFF), k + 3).status == Halted
    ensures Execute(table, Started([0xE8, 0xE8, 0x00]).(registerX := 0xFF), k + 3).state.registerX == 1
  {
    var s0 := Started([0xE8, 0xE8, 0x00]).(registerX := 0xFF);
    InxStep(table, s0);
    var s1 := Step(table, s0).state;
    ExecuteContinues(table, s0, k + 3);
    InxStep(table, s1);
    var s2 := Step(table, s1).state;
    ExecuteContinues(table, s1, k + 2);
    BrkStep(table, s2, k);
  }

  /** `test_and_immediate`: LDA #$05; AND #$01; BRK leaves A = 1 with Z and
      N clear. */
  lemma AndImmediate(table: map<int, OpCode>, k: nat)
    requires HasTestEntries(table)
    ensures Execute(table, Started([0xA9, 0x05, 0x29, 0x01, 0x00]), k + 3).status == Halted
    ensures Execute(table, Started([0xA9, 0x05, 0x29, 0x01, 0x00]), k + 3).state.registerA == 0x01
    ensures Execute(table, Started([0xA9, 0x05, 0x29, 0x01, 0x00]), k + 3).state.status & ZeroFlag == 0
    ensures Execute(table, Started([0xA9, 0x05, 0x29, 0x01, 0x00]), k + 3).state.status & NegativeFlag == 0
  {
    var s0 := Started([0xA9, 0x05, 0x29, 0x01, 0x00]);
    LdaImmediateStep(table, s0);
    var s1 := Step(table, s0).state;
    ExecuteContinues(table, s0, k + 3);
    AndImmediateStep(table, s1);
    var s2 := Step(table, s1).state;
    ExecuteContinues(table, s1, k + 2);
    assert And8(0x05, 0x01) == 0x01;
    BrkStep(table, s2, k);
  }

  /** `test_5_ops_working_together` on the `CPU` class: a fresh CPU that
      loads and runs the program, for four or more iterations, ends with X =
      0xC1. */
  method FiveOpsOnFreshCpu(k: nat) returns (x: U8, outcome: Status)
    ensures x == 0xC1 && outcome == Halted
  {
    var cpu := new CPU();
    ghost var initial := cpu.State();
    outcome := cpu.LoadAndRun([0xA9, 0xC0, 0xAA, 0xE8, 0x00], k + 4);
    assert AfterReset(Loaded(initial, [0xA9, 0xC0, 0xAA, 0xE8, 0x00])) == Started([0xA9, 0xC0, 0xAA, 0xE8, 0x00]);
    OpcodesMapHasTestEntries();
    FiveOpsWorkingTogether(cpu.opcodes, k);
    x := cpu.registerX;
  }

  /** `test_sta` on the `CPU` class: A set before `load` (which `reset`
      clears) and again after `reset`, then `run` and `mem_read(0x10)`. */
  method StaOnFreshCpu(k: nat) returns (mem: U8, outcome: Status)
    ensures mem == 0x60 && outcome == Halted
  {
    var cpu := new CPU();
    cpu.registerA := 0x60;
    cpu.Load([0x85, 0x10, 0x00]);
    cpu.Reset();
    cpu.registerA := 0x60;
    assert cpu.State() == Started([0x85, 0x10, 0x00]).(registerA := 0x60);
    outcome := cpu.Run(k + 2);
    OpcodesMapHasTestEntries();
    StoreAccumulator(cpu.opcodes, k);
    mem := cpu.MemRead(0x10);
  }

  /** `test_and_from_memory` on the `CPU` class: `mem_write(0x10, 0x51)`
      on a fresh CPU, then `load_and_run`. */
  method AndFromMemoryOnFreshCpu(k: nat) returns (a: U8, outcome: Status)
    ensures a == 0x51 && outcome == Halted
  {
    var cpu := new CPU();
    ghost var initial := cpu.State();
    cpu.MemWrite(0x10, 0x51);
    outcome := cpu.LoadAndRun([0xA9, 0x55, 0x25, 0x10, 0x00], k + 3);
    assert AfterReset(Loaded(WithByte(initial, 0x10, 0x51), [0xA9, 0x55, 0x25, 0x10, 0x00]))
           == StartedAfterWrite(0x10, 0x51, [0xA9, 0x55, 0x25, 0x10, 0x00]);
    OpcodesMapHasTestEntries();
    AndFromMemory(cpu.opcodes, k);
    a := cpu.registerA;
  }

  /** `test_inx_overflow` on the `CPU` class: `load`, `reset`, X set to
      0xFF, then `run`. */
  method InxOverflowOnFreshCpu(k: nat) returns (x: U8, outcome: Status)
    ensures x == 1 && outcome == Halted
  {
    var cpu := new CPU();
    cpu.Load([0xE8, 0xE8, 0x00]);
    cpu.Reset();
    cpu.registerX := 0xFF;
    assert cpu.State() == Started([0xE8, 0xE8, 0x00]).(registerX := 0xFF);
    outcome := cpu.Run(k + 3);
    OpcodesMapHasTestEntries();
    InxOverflow(cpu.opcodes, k);
    x := cpu.registerX;
  }
}
