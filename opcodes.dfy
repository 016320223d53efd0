/** The opcode table of src/opcodes.rs: one `OpCode` record per 6502
    instruction encoding, following the MOS 6502 reference the source cites,
    with the source's own mislabels kept (the EOR encodings are tagged "CMP",
    0x28 is tagged "CLV", 0x98 is tagged "TXS"), and the code-to-entry map
    that the CPU and the trace formatter look opcodes up in. */
module Opcodes {
  import opened Bits
  import opened Addressing

  /** A table entry; `OpCode::new` is its constructor. */
  datatype OpCode = OpCode(code: U8, mnemonic: string, len: U8, cycles: U8, mode: AddressingMode)

  // The table literal, in the source's order, split at the source's section
  // comments so that facts about it can be proved one section at a time.

  /** Section 0: BRK and NOP (src/opcodes.rs:28-29). */
  const Misc: seq<OpCode> := [
    OpCode(0x00, "BRK", 1, 7, NoneAddressing),
    OpCode(0xEA, "NOP", 1, 2, NoneAddressing)
  ]

  /** Section 1: ADC, add with carry (src/opcodes.rs:36-43). */
  const Adc: seq<OpCode> := [
    OpCode(0x69, "ADC", 2, 2, Immediate),
    OpCode(0x65, "ADC", 2, 3, ZeroPage),
    OpCode(0x75, "ADC", 2, 4, ZeroPageX),
    OpCode(0x6D, "ADC", 3, 4, Absolute),
    OpCode(0x7D, "ADC", 3, 4, AbsoluteX),
    OpCode(0x79, "ADC", 3, 4, AbsoluteY),
    OpCode(0x61, "ADC", 2, 6, IndirectX),
    OpCode(0x71, "ADC", 2, 5, IndirectY)
  ]

  /** Section 2: AND, logical AND (src/opcodes.rs:50-57). */
  const AndOps: seq<OpCode> := [
    OpCode(0x29, "AND", 2, 2, Immediate),
    OpCode(0x25, "AND", 2, 3, ZeroPage),
    OpCode(0x35, "AND", 2, 4, ZeroPageX),
    OpCode(0x2D, "AND", 3, 4, Absolute),
    OpCode(0x3D, "AND", 3, 4, AbsoluteX),
    OpCode(0x39, "AND", 3, 4, AbsoluteY),
    OpCode(0x21, "AND", 2, 6, IndirectX),
    OpCode(0x31, "AND", 2, 5, IndirectY)
  ]

  /** Section 3: ASL, arithmetic shift left (src/opcodes.rs:64-68). */
  const Asl: seq<OpCode> := [
    OpCode(0x0A, "ASL", 1, 2, NoneAddressing),
    OpCode(0x06, "ASL", 2, 5, ZeroPage),
    OpCode(0x16, "ASL", 2, 6, ZeroPageX),
    OpCode(0x0E, "ASL", 3, 6, Absolute),
    OpCode(0x1E, "ASL", 3, 7, AbsoluteX)
  ]

  /** Section 4: branches (relative addressing, tagged NoneAddressing) (src/opcodes.rs:75-82). */
  const Branches: seq<OpCode> := [
    OpCode(0x90, "BCC", 2, 2, NoneAddressing),
    OpCode(0xB0, "BCS", 2, 2, NoneAddressing),
    OpCode(0xF0, "BEQ", 2, 2, NoneAddressing),
    OpCode(0x30, "BMI", 2, 2, NoneAddressing),
    OpCode(0xD0, "BNE", 2, 2, NoneAddressing),
    OpCode(0x10, "BPL", 2, 2, NoneAddressing),
    OpCode(0x50, "BVC", 2, 2, NoneAddressing),
    OpCode(0x70, "BVS", 2, 2, NoneAddressing)
  ]

  /** Section 5: BIT, bit test (src/opcodes.rs:89-90). */
  const BitTest: seq<OpCode> := [
    OpCode(0x24, "BIT", 2, 3, ZeroPage),
    OpCode(0x2C, "BIT", 3, 4, Absolute)
  ]

  /** Section 6: CLC, CLD, CLI, CLV (src/opcodes.rs:97-100). */
  const ClearFlags: seq<OpCode> := [
    OpCode(0x18, "CLC", 1, 2, NoneAddressing),
    OpCode(0xD8, "CLD", 1, 2, NoneAddressing),
    OpCode(0x58, "CLI", 1, 2, NoneAddressing),
    OpCode(0xB8, "CLV", 1, 2, NoneAddressing)
  ]

  /** Section 7: CMP, compare (src/opcodes.rs:107-114). */
  const Cmp: seq<OpCode> := [
    OpCode(0xC9, "CMP", 2, 2, Immediate),
    OpCode(0xC5, "CMP", 2, 3, ZeroPage),
    OpCode(0xD5, "CMP", 2, 4, ZeroPageX),
    OpCode(0xCD, "CMP", 3, 4, Absolute),
    OpCode(0xDD, "CMP", 3, 4, AbsoluteX),
    OpCode(0xD9, "CMP", 3, 4, AbsoluteY),
    OpCode(0xC1, "CMP", 2, 6, IndirectX),
    OpCode(0xD1, "CMP", 2, 5, IndirectY)
  ]

  /** Section 8: CPX, compare X (src/opcodes.rs:121-123). */
  const Cpx: seq<OpCode> := [
    OpCode(0xE0, "CPX", 2, 2, Immediate),
    OpCode(0xE4, "CPX", 2, 3, ZeroPage),
    OpCode(0xEC, "CPX", 3, 4, Absolute)
  ]

  /** Section 9: CPY, compare Y (src/opcodes.rs:130-132). */
  const Cpy: seq<OpCode> := [
    OpCode(0xC0, "CPY", 2, 2, Immediate),
    OpCode(0xC4, "CPY", 2, 3, ZeroPage),
    OpCode(0xCC, "CPY", 3, 4, Absolute)
  ]

  /** Section 10: DEC, then DEX and DEY (src/opcodes.rs:139-145). */
  const Dec: seq<OpCode> := [
    OpCode(0xC6, "DEC", 2, 5, ZeroPage),
    OpCode(0xD6, "DEC", 2, 6, ZeroPageX),
    OpCode(0xCE, "DEC", 3, 6, Absolute),
    OpCode(0xDE, "DEC", 3, 7, AbsoluteX),
    OpCode(0xCA, "DEX", 1, 2, NoneAddressing),
    OpCode(0x88, "DEY", 1, 2, NoneAddressing)
  ]

  /** Section 11: EOR, exclusive OR: every entry is tagged "CMP" in the table (src/opcodes.rs:152-159). */
  const Eor: seq<OpCode> := [
    OpCode(0x49, "CMP", 2, 2, Immediate),
    OpCode(0x45, "CMP", 2, 3, ZeroPage),
    OpCode(0x55, "CMP", 2, 4, ZeroPageX),
    OpCode(0x4D, "CMP", 3, 4, Absolute),
    OpCode(0x5D, "CMP", 3, 4, AbsoluteX),
    OpCode(0x59, "CMP", 3, 4, AbsoluteY),
    OpCode(0x41, "CMP", 2, 6, IndirectX),
    OpCode(0x51, "CMP", 2, 5, IndirectY)
  ]

  /** Section 12: INC, then INX and INY (src/opcodes.rs:166-172). */
  const Inc: seq<OpCode> := [
    OpCode(0xE6, "INC", 2, 5, ZeroPage),
    OpCode(0xF6, "INC", 2, 6, ZeroPageX),
    OpCode(0xEE, "INC", 3, 6, Absolute),
    OpCode(0xFE, "INC", 3, 7, AbsoluteX),
    OpCode(0xE8, "INX", 1, 2, NoneAddressing),
    OpCode(0xC8, "INY", 1, 2, NoneAddressing)
  ]

  /** Section 13: JMP (absolute, indirect) and JSR, all tagged NoneAddressing (src/opcodes.rs:179-182). */
  const Jumps: seq<OpCode> := [
    OpCode(0x4C, "JMP", 3, 3, NoneAddressing),
    OpCode(0x6C, "JMP", 3, 5, NoneAddressing),
    OpCode(0x20, "JSR", 3, 6, NoneAddressing)
  ]

  /** Section 14: LDA, load accumulator (src/opcodes.rs:189-196). */
  const Lda: seq<OpCode> := [
    OpCode(0xA9, "LDA", 2, 2, Immediate),
    OpCode(0xA5, "LDA", 2, 3, ZeroPage),
    OpCode(0xB5, "LDA", 2, 4, ZeroPageX),
    OpCode(0xAD, "LDA", 3, 4, Absolute),
    OpCode(0xBD, "LDA", 3, 4, AbsoluteX),
    OpCode(0xB9, "LDA", 3, 4, AbsoluteY),
    OpCode(0xA1, "LDA", 2, 6, IndirectX),
    OpCode(0xB1, "LDA", 2, 5, IndirectY)
  ]

  /** Section 15: LDX, load X (src/opcodes.rs:203-207). */
  const Ldx: seq<OpCode> := [
    OpCode(0xA2, "LDX", 2, 2, Immediate),
    OpCode(0xA6, "LDX", 2, 3, ZeroPage),
    OpCode(0xB6, "LDX", 2, 4, ZeroPageY),
    OpCode(0xAE, "LDX", 3, 4, Absolute),
    OpCode(0xBE, "LDX", 3, 4, AbsoluteY)
  ]

  /** Section 16: LDY, load Y (src/opcodes.rs:214-218). */
  const Ldy: seq<OpCode> := [
    OpCode(0xA0, "LDY", 2, 2, Immediate),
    OpCode(0xA4, "LDY", 2, 3, ZeroPage),
    OpCode(0xB4, "LDY", 2, 4, ZeroPageX),
    OpCode(0xAC, "LDY", 3, 4, Absolute),
    OpCode(0xBC, "LDY", 3, 4, AbsoluteX)
  ]

  /** Section 17: LSR, logical shift right (src/opcodes.rs:225-229). */
  const Lsr: seq<OpCode> := [
    OpCode(0x4A, "LSR", 1, 2, NoneAddressing),
    OpCode(0x46, "LSR", 2, 5, ZeroPage),
    OpCode(0x56, "LSR", 2, 6, ZeroPageX),
    OpCode(0x4E, "LSR", 3, 6, Absolute),
    OpCode(0x5E, "LSR", 3, 7, AbsoluteX)
  ]

  /** Section 18: ORA, inclusive OR (src/opcodes.rs:236-243). */
  const Ora: seq<OpCode> := [
    OpCode(0x09, "ORA", 2, 2, Immediate),
    OpCode(0x05, "ORA", 2, 3, ZeroPage),
    OpCode(0x15, "ORA", 2, 4, ZeroPageX),
    OpCode(0x0D, "ORA", 3, 4, Absolute),
    OpCode(0x1D, "ORA", 3, 4, AbsoluteX),
    OpCode(0x19, "ORA", 3, 4, AbsoluteY),
    OpCode(0x01, "ORA", 2, 6, IndirectX),
    OpCode(0x11, "ORA", 2, 5, IndirectY)
  ]

  /** Section 19: PHA, PHP, PLA and PLP; PLP (0x28) is tagged "CLV" in the table (src/opcodes.rs:250-253). */
  const StackOps: seq<OpCode> := [
    OpCode(0x48, "PHA", 1, 3, NoneAddressing),
    OpCode(0x08, "PHP", 1, 3, NoneAddressing),
    OpCode(0x68, "PLA", 1, 4, NoneAddressing),
    OpCode(0x28, "CLV", 1, 4, NoneAddressing)
  ]

  /** Section 20: ROL, rotate left (src/opcodes.rs:260-264). */
  const Rol: seq<OpCode> := [
    OpCode(0x2A, "ROL", 1, 2, NoneAddressing),
    OpCode(0x26, "ROL", 2, 5, ZeroPage),
    OpCode(0x36, "ROL", 2, 6, ZeroPageX),
    OpCode(0x2E, "ROL", 3, 6, Absolute),
    OpCode(0x3E, "ROL", 3, 7, AbsoluteX)
  ]

  /** Section 21: ROR, rotate right (src/opcodes.rs:271-275). */
  const Ror: seq<OpCode> := [
    OpCode(0x6A, "ROR", 1, 2, NoneAddressing),
    OpCode(0x66, "ROR", 2, 5, ZeroPage),
    OpCode(0x76, "ROR", 2, 6, ZeroPageX),
    OpCode(0x6E, "ROR", 3, 6, Absolute),
    OpCode(0x7E, "ROR", 3, 7, AbsoluteX)
  ]

  /** Section 22: RTI and RTS (src/opcodes.rs:282-283). */
  const Returns: seq<OpCode> := [
    OpCode(0x40, "RTI", 1, 6, NoneAddressing),
    OpCode(0x60, "RTS", 1, 6, NoneAddressing)
  ]

  /** Section 23: SBC, subtract with carry (src/opcodes.rs:290-297). */
  const Sbc: seq<OpCode> := [
    OpCode(0xE9, "SBC", 2, 2, Immediate),
    OpCode(0xE5, "SBC", 2, 3, ZeroPage),
    OpCode(0xF5, "SBC", 2, 4, ZeroPageX),
    OpCode(0xED, "SBC", 3, 4, Absolute),
    OpCode(0xFD, "SBC", 3, 4, AbsoluteX),
    OpCode(0xF9, "SBC", 3, 4, AbsoluteY),
    OpCode(0xE1, "SBC", 2, 6, IndirectX),
    OpCode(0xF1, "SBC", 2, 5, IndirectY)
  ]

  /** Section 24: SEC, SED, SEI (src/opcodes.rs:304-306). */
  const SetFlags: seq<OpCode> := [
    OpCode(0x38, "SEC", 1, 2, NoneAddressing),
    OpCode(0xF8, "SED", 1, 2, NoneAddressing),
    OpCode(0x78, "SEI", 1, 2, NoneAddressing)
  ]

  /** Section 25: STA, store accumulator (src/opcodes.rs:313-319). */
  const Sta: seq<OpCode> := [
    OpCode(0x85, "STA", 2, 3, ZeroPage),
    OpCode(0x95, "STA", 2, 4, ZeroPageX),
    OpCode(0x8D, "STA", 3, 4, Absolute),
    OpCode(0x9D, "STA", 3, 5, AbsoluteX),
    OpCode(0x99, "STA", 3, 5, AbsoluteY),
    OpCode(0x81, "STA", 2, 6, IndirectX),
    OpCode(0x91, "STA", 2, 6, IndirectY)
  ]

  /** Section 26: STX, store X (src/opcodes.rs:326-328). */
  const Stx: seq<OpCode> := [
    OpCode(0x86, "STX", 2, 3, ZeroPage),
    OpCode(0x96, "STX", 2, 4, ZeroPageY),
    OpCode(0x8E, "STX", 3, 4, Absolute)
  ]

  /** Section 27: STY, store Y (src/opcodes.rs:335-337). */
  const Sty: seq<OpCode> := [
    OpCode(0x84, "STY", 2, 3, ZeroPage),
    OpCode(0x94, "STY", 2, 4, ZeroPageX),
    OpCode(0x8C, "STY", 3, 4, Absolute)
  ]

  /** Section 28: TAX, TAY, TSX, TXA, TXS and TYA; TYA (0x98) is tagged "TXS" in the table (src/opcodes.rs:344-349). */
  const Transfers: seq<OpCode> := [
    OpCode(0xAA, "TAX", 1, 2, NoneAddressing),
    OpCode(0xA8, "TAY", 1, 2, NoneAddressing),
    OpCode(0xBA, "TSX", 1, 2, NoneAddressing),
    OpCode(0x8A, "TXA", 1, 2, NoneAddressing),
    OpCode(0x9A, "TXS", 1, 2, NoneAddressing),
    OpCode(0x98, "TXS", 1, 2, NoneAddressing)
  ]

  /** `CPU_OP_CODES`: the sections one after the other, in the source's order. */
  const CpuOpCodes: seq<OpCode> := Misc + Adc + AndOps + Asl + Branches + BitTest + ClearFlags + Cmp + Cpx + Cpy + Dec + Eor + Inc + Jumps + Lda + Ldx + Ldy + Lsr + Ora + StackOps + Rol + Ror + Returns + Sbc + SetFlags + Sta + Stx + Sty + Transfers

  /** Every entry is one, two or three bytes long. */
  predicate LenInRange(op: OpCode) {
    1 <= op.len <= 3
  }

  /** An instruction with a one-byte operand is two bytes long, one with a
      two-byte operand three. */
  predicate LenMatchesMode(op: OpCode) {
    (op.mode in {Immediate, ZeroPage, ZeroPageX, ZeroPageY, IndirectX, IndirectY} ==> op.len == 2)
    && (op.mode in {Absolute, AbsoluteX, AbsoluteY} ==> op.len == 3)
  }

  predicate AllWellFormed(t: seq<OpCode>) {
    forall i :: 0 <= i < |t| ==> LenInRange(t[i]) && LenMatchesMode(t[i])
  }

  /** No code is listed twice. */
  predicate CodesDistinct(t: seq<OpCode>) {
    forall i, j :: 0 <= i < j < |t| ==> t[i].code != t[j].code
  }

  /** The section a code is listed in; a device for proving that no code is
      listed in two sections. */
  ghost function SectionOf(c: U8): nat {
    match c / 16
    case 0x0 =>
      (match c % 16
      case 0x0 => 0
      case 0x1 => 18
      case 0x5 => 18
      case 0x6 => 3
      case 0x8 => 19
      case 0x9 => 18
      case 0xA => 3
      case 0xD => 18
      case 0xE => 3
      case _ => 29)
    case 0x1 =>
      (match c % 16
      case 0x0 => 4
      case 0x1 => 18
      case 0x5 => 18
      case 0x6 => 3
      case 0x8 => 6
      case 0x9 => 18
      case 0xD => 18
      case 0xE => 3
      case _ => 29)
    case 0x2 =>
      (match c % 16
      case 0x0 => 13
      case 0x1 => 2
      case 0x4 => 5
      case 0x5 => 2
      case 0x6 => 20
      case 0x8 => 19
      case 0x9 => 2
      case 0xA => 20
      case 0xC => 5
      case 0xD => 2
      case 0xE => 20
      case _ => 29)
    case 0x3 =>
      (match c % 16
      case 0x0 => 4
      case 0x1 => 2
      case 0x5 => 2
      case 0x6 => 20
      case 0x8 => 24
      case 0x9 => 2
      case 0xD => 2
      case 0xE => 20
      case _ => 29)
    case 0x4 =>
      (match c % 16
      case 0x0 => 22
      case 0x1 => 11
      case 0x5 => 11
      case 0x6 => 17
      case 0x8 => 19
      case 0x9 => 11
      case 0xA => 17
      case 0xC => 13
      case 0xD => 11
      case 0xE => 17
      case _ => 29)
    case 0x5 =>
      (match c % 16
      case 0x0 => 4
      case 0x1 => 11
      case 0x5 => 11
      case 0x6 => 17
      case 0x8 => 6
      case 0x9 => 11
      case 0xD => 11
      case 0xE => 17
      case _ => 29)
    case 0x6 =>
      (match c % 16
      case 0x0 => 22
      case 0x1 => 1
      case 0x5 => 1
      case 0x6 => 21
      case 0x8 => 19
      case 0x9 => 1
      case 0xA => 21
      case 0xC => 13
      case 0xD => 1
      case 0xE => 21
      case _ => 29)
    case 0x7 =>
      (match c % 16
      case 0x0 => 4
      case 0x1 => 1
      case 0x5 => 1
      case 0x6 => 21
      case 0x8 => 24
      case 0x9 => 1
      case 0xD => 1
      case 0xE => 21
      case _ => 29)
    case 0x8 =>
      (match c % 16
      case 0x1 => 25
      case 0x4 => 27
      case 0x5 => 25
      case 0x6 => 26
      case 0x8 => 10
      case 0xA => 28
      case 0xC => 27
      case 0xD => 25
      case 0xE => 26
      case _ => 29)
    case 0x9 =>
      (match c % 16
      case 0x0 => 4
      case 0x1 => 25
      case 0x4 => 27
      case 0x5 => 25
      case 0x6 => 26
      case 0x8 => 28
      case 0x9 => 25
      case 0xA => 28
      case 0xD => 25
      case _ => 29)
    case 0xA =>
      (match c % 16
      case 0x0 => 16
      case 0x1 => 14
      case 0x2 => 15
      case 0x4 => 16
      case 0x5 => 14
      case 0x6 => 15
      case 0x8 => 28
      case 0x9 => 14
      case 0xA => 28
      case 0xC => 16
      case 0xD => 14
      case 0xE => 15
      case _ => 29)
    case 0xB =>
      (match c % 16
      case 0x0 => 4
      case 0x1 => 14
      case 0x4 => 16
      case 0x5 => 14
      case 0x6 => 15
      case 0x8 => 6
      case 0x9 => 14
      case 0xA => 28
      case 0xC => 16
      case 0xD => 14
      case 0xE => 15
      case _ => 29)
    case 0xC =>
      (match c % 16
      case 0x0 => 9
      case 0x1 => 7
      case 0x4 => 9
      case 0x5 => 7
      case 0x6 => 10
      case 0x8 => 12
      case 0x9 => 7
      case 0xA => 10
      case 0xC => 9
      case 0xD => 7
      case 0xE => 10
      case _ => 29)
    case 0xD =>
      (match c % 16
      case 0x0 => 4
      case 0x1 => 7
      case 0x5 => 7
      case 0x6 => 10
      case 0x8 => 6
      case 0x9 => 7
      case 0xD => 7
      case 0xE => 10
      case _ => 29)
    case 0xE =>
      (match c % 16
      case 0x0 => 8
      case 0x1 => 23
      case 0x4 => 8
      case 0x5 => 23
      case 0x6 => 12
      case 0x8 => 12
      case 0x9 => 23
      case 0xA => 0
      case 0xC => 8
      case 0xD => 23
      case 0xE => 12
      case _ => 29)
    case 0xF =>
      (match c % 16
      case 0x0 => 4
      case 0x1 => 23
      case 0x5 => 23
      case 0x6 => 12
      case 0x8 => 24
      case 0x9 => 23
      case 0xD => 23
      case 0xE => 12
      case _ => 29)
    case _ => 29
  }

  ghost predicate TaggedAt(t: seq<OpCode>, k: nat) {
    forall i :: 0 <= i < |t| ==> SectionOf(t[i].code) == k
  }

  ghost predicate TaggedBelow(t: seq<OpCode>, k: nat) {
    forall i :: 0 <= i < |t| ==> SectionOf(t[i].code) < k
  }

  lemma MiscWellFormed() ensures AllWellFormed(Misc) {}
  lemma MiscTagged() ensures TaggedAt(Misc, 0) {}
  lemma MiscDistinct() ensures CodesDistinct(Misc) {}

  lemma AdcWellFormed() ensures AllWellFormed(Adc) {}
  lemma AdcTagged() ensures TaggedAt(Adc, 1) {}
  lemma AdcDistinct() ensures CodesDistinct(Adc) {}

  lemma AndOpsWellFormed() ensures AllWellFormed(AndOps) {}
  lemma AndOpsTagged() ensures TaggedAt(AndOps, 2) {}
  lemma AndOpsDistinct() ensures CodesDistinct(AndOps) {}

  lemma AslWellFormed() ensures AllWellFormed(Asl) {}
  lemma AslTagged() ensures TaggedAt(Asl, 3) {}
  lemma AslDistinct() ensures CodesDistinct(Asl) {}

  lemma BranchesWellFormed() ensures AllWellFormed(Branches) {}
  lemma BranchesTagged() ensures TaggedAt(Branches, 4) {}
  lemma BranchesDistinct() ensures CodesDistinct(Branches) {}

  lemma BitTestWellFormed() ensures AllWellFormed(BitTest) {}
  lemma BitTestTagged() ensures TaggedAt(BitTest, 5) {}
  lemma BitTestDistinct() ensures CodesDistinct(BitTest) {}

  lemma ClearFlagsWellFormed() ensures AllWellFormed(ClearFlags) {}
  lemma ClearFlagsTagged() ensures TaggedAt(ClearFlags, 6) {}
  lemma ClearFlagsDistinct() ensures CodesDistinct(ClearFlags) {}

  lemma CmpWellFormed() ensures AllWellFormed(Cmp) {}
  lemma CmpTagged() ensures TaggedAt(Cmp, 7) {}
  lemma CmpDistinct() ensures CodesDistinct(Cmp) {}

  lemma CpxWellFormed() ensures AllWellFormed(Cpx) {}
  lemma CpxTagged() ensures TaggedAt(Cpx, 8) {}
  lemma CpxDistinct() ensures CodesDistinct(Cpx) {}

  lemma CpyWellFormed() ensures AllWellFormed(Cpy) {}
  lemma CpyTagged() ensures TaggedAt(Cpy, 9) {}
  lemma CpyDistinct() ensures CodesDistinct(Cpy) {}

  lemma DecWellFormed() ensures AllWellFormed(Dec) {}
  lemma DecTagged() ensures TaggedAt(Dec, 10) {}
  lemma DecDistinct() ensures CodesDistinct(Dec) {}

  lemma EorWellFormed() ensures AllWellFormed(Eor) {}
  lemma EorTagged() ensures TaggedAt(Eor, 11) {}
  lemma EorDistinct() ensures CodesDistinct(Eor) {}

  lemma IncWellFormed() ensures AllWellFormed(Inc) {}
  lemma IncTagged() ensures TaggedAt(Inc, 12) {}
  lemma IncDistinct() ensures CodesDistinct(Inc) {}

  lemma JumpsWellFormed() ensures AllWellFormed(Jumps) {}
  lemma JumpsTagged() ensures TaggedAt(Jumps, 13) {}
  lemma JumpsDistinct() ensures CodesDistinct(Jumps) {}

  lemma LdaWellFormed() ensures AllWellFormed(Lda) {}
  lemma LdaTagged() ensures TaggedAt(Lda, 14) {}
  lemma LdaDistinct() ensures CodesDistinct(Lda) {}

  lemma LdxWellFormed() ensures AllWellFormed(Ldx) {}
  lemma LdxTagged() ensures TaggedAt(Ldx, 15) {}
  lemma LdxDistinct() ensures CodesDistinct(Ldx) {}

  lemma LdyWellFormed() ensures AllWellFormed(Ldy) {}
  lemma LdyTagged() ensures TaggedAt(Ldy, 16) {}
  lemma LdyDistinct() ensures CodesDistinct(Ldy) {}

  lemma LsrWellFormed() ensures AllWellFormed(Lsr) {}
  lemma LsrTagged() ensures TaggedAt(Lsr, 17) {}
  lemma LsrDistinct() ensures CodesDistinct(Lsr) {}

  lemma OraWellFormed() ensures AllWellFormed(Ora) {}
  lemma OraTagged() ensures TaggedAt(Ora, 18) {}
  lemma OraDistinct() ensures CodesDistinct(Ora) {}

  lemma StackOpsWellFormed() ensures AllWellFormed(StackOps) {}
  lemma StackOpsTagged() ensures TaggedAt(StackOps, 19) {}
  lemma StackOpsDistinct() ensures CodesDistinct(StackOps) {}

  lemma RolWellFormed() ensures AllWellFormed(Rol) {}
  lemma RolTagged() ensures TaggedAt(Rol, 20) {}
  lemma RolDistinct() ensures CodesDistinct(Rol) {}

  lemma RorWellFormed() ensures AllWellFormed(Ror) {}
  lemma RorTagged() ensures TaggedAt(Ror, 21) {}
  lemma RorDistinct() ensures CodesDistinct(Ror) {}

  lemma ReturnsWellFormed() ensures AllWellFormed(Returns) {}
  lemma ReturnsTagged() ensures TaggedAt(Returns, 22) {}
  lemma ReturnsDistinct() ensures CodesDistinct(Returns) {}

  lemma SbcWellFormed() ensures AllWellFormed(Sbc) {}
  lemma SbcTagged() ensures TaggedAt(Sbc, 23) {}
  lemma SbcDistinct() ensures CodesDistinct(Sbc) {}

  lemma SetFlagsWellFormed() ensures AllWellFormed(SetFlags) {}
  lemma SetFlagsTagged() ensures TaggedAt(SetFlags, 24) {}
  lemma SetFlagsDistinct() ensures CodesDistinct(SetFlags) {}

  lemma StaWellFormed() ensures AllWellFormed(Sta) {}
  lemma StaTagged() ensures TaggedAt(Sta, 25) {}
  lemma StaDistinct() ensures CodesDistinct(Sta) {}

  lemma StxWellFormed() ensures AllWellFormed(Stx) {}
  lemma StxTagged() ensures TaggedAt(Stx, 26) {}
  lemma StxDistinct() ensures CodesDistinct(Stx) {}

  lemma StyWellFormed() ensures AllWellFormed(Sty) {}
  lemma StyTagged() ensures TaggedAt(Sty, 27) {}
  lemma StyDistinct() ensures CodesDistinct(Sty) {}

  lemma TransfersWellFormed() ensures AllWellFormed(Transfers) {}
  lemma TransfersTagged() ensures TaggedAt(Transfers, 28) {}
  lemma TransfersDistinct() ensures CodesDistinct(Transfers) {}

  /** Appending a section whose codes all carry tag k to a prefix whose
      codes carry smaller tags keeps the codes distinct. */
  lemma Append(a: seq<OpCode>, b: seq<OpCode>, k: nat)
    requires AllWellFormed(a) && CodesDistinct(a) && TaggedBelow(a, k)
    requires AllWellFormed(b) && CodesDistinct(b) && TaggedAt(b, k)
    ensures AllWellFormed(a + b) && CodesDistinct(a + b) && TaggedBelow(a + b, k + 1)
  {
    forall i, j | 0 <= i < j < |a + b|
      ensures (a + b)[i].code != (a + b)[j].code
    {
      if j >= |a| && i < |a| {
        assert SectionOf((a + b)[i].code) < k == SectionOf((a + b)[j].code);
      }
    }
  }

  /** The first half of the table: well formed, no code twice, tags below 15. */
  lemma FirstSectionsFacts()
    ensures var t := Misc + Adc + AndOps + Asl + Branches + BitTest + ClearFlags + Cmp + Cpx + Cpy + Dec + Eor + Inc + Jumps + Lda;
      AllWellFormed(t) && CodesDistinct(t) && TaggedBelow(t, 15)
  {
    MiscWellFormed(); MiscTagged(); MiscDistinct();
    var t := Misc;
    assert TaggedBelow(t, 1);
    AdcWellFormed(); AdcTagged(); AdcDistinct(); Append(t, Adc, 1); t := t + Adc;
    AndOpsWellFormed(); AndOpsTagged(); AndOpsDistinct(); Append(t, AndOps, 2); t := t + AndOps;
    AslWellFormed(); AslTagged(); AslDistinct(); Append(t, Asl, 3); t := t + Asl;
    BranchesWellFormed(); BranchesTagged(); BranchesDistinct(); Append(t, Branches, 4); t := t + Branches;
    BitTestWellFormed(); BitTestTagged(); BitTestDistinct(); Append(t, BitTest, 5); t := t + BitTest;
    ClearFlagsWellFormed(); ClearFlagsTagged(); ClearFlagsDistinct(); Append(t, ClearFlags, 6); t := t + ClearFlags;
    CmpWellFormed(); CmpTagged(); CmpDistinct(); Append(t, Cmp, 7); t := t + Cmp;
    CpxWellFormed(); CpxTagged(); CpxDistinct(); Append(t, Cpx, 8); t := t + Cpx;
    CpyWellFormed(); CpyTagged(); CpyDistinct(); Append(t, Cpy, 9); t := t + Cpy;
    DecWellFormed(); DecTagged(); DecDistinct(); Append(t, Dec, 10); t := t + Dec;
    EorWellFormed(); EorTagged(); EorDistinct(); Append(t, Eor, 11); t := t + Eor;
    IncWellFormed(); IncTagged(); IncDistinct(); Append(t, Inc, 12); t := t + Inc;
    JumpsWellFormed(); JumpsTagged(); JumpsDistinct(); Append(t, Jumps, 13); t := t + Jumps;
    LdaWellFormed(); LdaTagged(); LdaDistinct(); Append(t, Lda, 14); t := t + Lda;
  }

  /** The facts about the whole table, established section by section. */
  lemma TableFacts()
    ensures AllWellFormed(CpuOpCodes) && CodesDistinct(CpuOpCodes)
  {
    FirstSectionsFacts();
    var t := Misc + Adc + AndOps + Asl + Branches + BitTest + ClearFlags + Cmp + Cpx + Cpy + Dec + Eor + Inc + Jumps + Lda;
    LdxWellFormed(); LdxTagged(); LdxDistinct(); Append(t, Ldx, 15); t := t + Ldx;
    LdyWellFormed(); LdyTagged(); LdyDistinct(); Append(t, Ldy, 16); t := t + Ldy;
    LsrWellFormed(); LsrTagged(); LsrDistinct(); Append(t, Lsr, 17); t := t + Lsr;
    OraWellFormed(); OraTagged(); OraDistinct(); Append(t, Ora, 18); t := t + Ora;
    StackOpsWellFormed(); StackOpsTagged(); StackOpsDistinct(); Append(t, StackOps, 19); t := t + StackOps;
    RolWellFormed(); RolTagged(); RolDistinct(); Append(t, Rol, 20); t := t + Rol;
    RorWellFormed(); RorTagged(); RorDistinct(); Append(t, Ror, 21); t := t + Ror;
    ReturnsWellFormed(); ReturnsTagged(); ReturnsDistinct(); Append(t, Returns, 22); t := t + Returns;
    SbcWellFormed(); SbcTagged(); SbcDistinct(); Append(t, Sbc, 23); t := t + Sbc;
    SetFlagsWellFormed(); SetFlagsTagged(); SetFlagsDistinct(); Append(t, SetFlags, 24); t := t + SetFlags;
    StaWellFormed(); StaTagged(); StaDistinct(); Append(t, Sta, 25); t := t + Sta;
    StxWellFormed(); StxTagged(); StxDistinct(); Append(t, Stx, 26); t := t + Stx;
    StyWellFormed(); StyTagged(); StyDistinct(); Append(t, Sty, 27); t := t + Sty;
    TransfersWellFormed(); TransfersTagged(); TransfersDistinct(); Append(t, Transfers, 28); t := t + Transfers;
    assert t == CpuOpCodes;
  }

  /** The map that inserting the entries of `t` one after another, keyed by
      code (as an integer: the verifier reasons poorly about maps whose keys
      are bit vectors), produces: a later entry replaces an earlier one with the same
      code, as `HashMap::insert` does. */
  function MapOf(t: seq<OpCode>): (r: map<int, OpCode>)
    ensures |r| <= |t|
  {
    if |t| == 0 then map[] else MapOf(t[..|t| - 1])[t[|t| - 1].code := t[|t| - 1]]
  }

  /** `OPCODES_MAP`, the code-to-entry map built from `CPU_OP_CODES`. */
  const OpcodesMap: map<int, OpCode> := MapOf(CpuOpCodes)

  /** The loop that builds `OPCODES_MAP`: one insertion per table entry, in
      table order. */
  method BuildOpcodesMap(table: seq<OpCode>) returns (m: map<int, OpCode>)
    ensures m == MapOf(table)
  {
    m := map[];
    for i := 0 to |table|
      invariant m == MapOf(table[..i])
    {
      assert table[..i + 1][..i] == table[..i];
      m := m[table[i].code := table[i]];
    }
    assert table[..|table|] == table;
  }

  /** The keys of the map are exactly the codes listed in the table. */
  lemma {:induction false} MapOfKeys(t: seq<OpCode>, c: int)
    ensures c in MapOf(t) <==> exists i :: 0 <= i < |t| && t[i].code == c
  {
    if |t| > 0 {
      var init := t[..|t| - 1];
      MapOfKeys(init, c);
      if c in MapOf(init) {
        var i :| 0 <= i < |init| && init[i].code == c;
        assert t[i].code == c;
      }
      if exists i :: 0 <= i < |t| && t[i].code == c {
        var i :| 0 <= i < |t| && t[i].code == c;
        if i < |t| - 1 {
          assert init[i].code == c;
        }
      }
    }
  }

  /** Every key maps to an entry with that code, and that entry is the last
      one in the table listing the code. */
  lemma {:induction false} MapOfLastWins(t: seq<OpCode>, i: nat)
    requires i < |t|
    requires forall j :: i < j < |t| ==> t[j].code != t[i].code
    ensures t[i].code in MapOf(t) && MapOf(t)[t[i].code] == t[i]
  {
    if i < |t| - 1 {
      var init := t[..|t| - 1];
      assert init[i] == t[i];
      assert t[|t| - 1].code != t[i].code;
      MapOfLastWins(init, i);
    }
    assert MapOf(t) == MapOf(t[..|t| - 1])[t[|t| - 1].code := t[|t| - 1]];
  }

  /** Every value of the map is an entry of the table, stored under its own
      code. */
  lemma {:induction false} MapOfValues(t: seq<OpCode>, c: int)
    requires c in MapOf(t)
    ensures MapOf(t)[c].code == c && MapOf(t)[c] in t
  {
    var init := t[..|t| - 1];
    assert MapOf(t) == MapOf(init)[t[|t| - 1].code := t[|t| - 1]];
    if c != t[|t| - 1].code {
      MapOfValues(init, c);
      assert t == init + [t[|t| - 1]];
    }
  }

  /** When no code is listed twice, the map has one key per entry. */
  lemma {:induction false} MapOfSize(t: seq<OpCode>)
    requires CodesDistinct(t)
    ensures |MapOf(t)| == |t|
  {
    if |t| > 0 {
      var init := t[..|t| - 1];
      assert CodesDistinct(init);
      MapOfSize(init);
      MapOfKeys(init, t[|t| - 1].code);
    }
  }

  /** For a table that lists no code twice, the map holds every entry under
      its own code, and nothing else. */
  lemma MapOfDistinct(t: seq<OpCode>)
    requires CodesDistinct(t)
    ensures |MapOf(t)| == |t|
    ensures forall i :: 0 <= i < |t| ==> t[i].code in MapOf(t) && MapOf(t)[t[i].code] == t[i]
    ensures forall c :: c in MapOf(t) ==> MapOf(t)[c].code == c && MapOf(t)[c] in t
  {
    MapOfSize(t);
    forall i | 0 <= i < |t|
      ensures t[i].code in MapOf(t) && MapOf(t)[t[i].code] == t[i]
    {
      MapOfLastWins(t, i);
    }
    forall c | c in MapOf(t)
      ensures MapOf(t)[c].code == c && MapOf(t)[c] in t
    {
      MapOfValues(t, c);
    }
  }

  /** `OPCODES_MAP` holds the 151 entries of the table, each under its own
      code, and nothing else; so looking up the code of any entry finds that
      very entry, and every entry found is well formed. */
  lemma OpcodesMapEntry(op: OpCode)
    requires op in CpuOpCodes
    ensures op.code in OpcodesMap && OpcodesMap[op.code] == op
  {
    TableFacts();
    MapOfDistinct(CpuOpCodes);
  }

  /** Every entry of `OPCODES_MAP` is a well-formed table entry stored under
      its own code. */
  lemma OpcodesMapWellFormed(c: int)
    requires c in OpcodesMap
    ensures OpcodesMap[c].code == c && OpcodesMap[c] in CpuOpCodes
    ensures LenInRange(OpcodesMap[c]) && LenMatchesMode(OpcodesMap[c])
  {
    TableFacts();
    MapOfDistinct(CpuOpCodes);
  }

  /** `OPCODES_MAP` has one key per table entry: 151. */
  lemma OpcodesMapSize()
    ensures |OpcodesMap| == |CpuOpCodes| == 151
  {
    TableFacts();
    MapOfDistinct(CpuOpCodes);
  }

  /** Every entry of a part of the table is found in `OPCODES_MAP` under its
      own code. */
  lemma SectionInMap(section: seq<OpCode>)
    requires forall op :: op in section ==> op in CpuOpCodes
    ensures forall op :: op in section ==> op.code in OpcodesMap && OpcodesMap[op.code] == op
  {
    forall op | op in section
      ensures op.code in OpcodesMap && OpcodesMap[op.code] == op
    {
      OpcodesMapEntry(op);
    }
  }

  lemma MiscInTable()
    ensures forall op :: op in Misc ==> op in CpuOpCodes
  {
  }

  lemma AndOpsInTable()
    ensures forall op :: op in AndOps ==> op in CpuOpCodes
  {
  }

  lemma IncInTable()
    ensures forall op :: op in Inc ==> op in CpuOpCodes
  {
  }

  lemma LdaInTable()
    ensures forall op :: op in Lda ==> op in CpuOpCodes
  {
  }

  lemma StaInTable()
    ensures forall op :: op in Sta ==> op in CpuOpCodes
  {
  }

  lemma TransfersInTable()
    ensures forall op :: op in Transfers ==> op in CpuOpCodes
  {
  }

  lemma EorInTable()
    ensures forall op :: op in Eor ==> op in CpuOpCodes
  {
  }

  lemma EorAsCmp()
    ensures forall op :: op in Eor ==> op.mnemonic == "CMP"
  {
  }

  lemma StackOpsInTable()
    ensures forall op :: op in StackOps ==> op in CpuOpCodes
  {
  }

  /** The map keeps the table's own labels for EOR: its eight encodings are
      found under "CMP". */
  lemma EorLabelKept()
    ensures forall op :: op in Eor ==> op.code in OpcodesMap && OpcodesMap[op.code].mnemonic == "CMP"
  {
    EorInTable();
    EorAsCmp();
    forall op | op in Eor
      ensures op.code in OpcodesMap && OpcodesMap[op.code].mnemonic == "CMP"
    {
      OpcodesMapEntry(op);
    }
  }

  /** 0x28 (PLP) is labelled "CLV" in the table, and so in the map. */
  lemma PlpLabelKept()
    ensures 0x28 in OpcodesMap && OpcodesMap[0x28].mnemonic == "CLV"
  {
    StackOpsInTable();
    OpcodesMapEntry(StackOps[3]);
  }

  /** 0x98 (TYA) is labelled "TXS" in the table, and so in the map. */
  lemma TyaLabelKept()
    ensures 0x98 in OpcodesMap && OpcodesMap[0x98].mnemonic == "TXS"
  {
    TransfersInTable();
    OpcodesMapEntry(Transfers[5]);
  }
}
