/** The two tests of src/trace.rs, on the model.  Both lay out the
    instruction part exactly as the tests expect; the line `trace` builds
    also ends with ` TICKS:` and the bus's cycle count, which the tests'
    expected text does not have. */
module TraceExamples {
  import opened Bits
  import opened Addressing
  import opened Opcodes
  import opened Outcomes
  import opened Trace

  /** The table entries the two tests use. */
  predicate HasTraceTestEntries(table: map<int, OpCode>) {
    && 0xA2 in table && table[0xA2] == OpCode(0xA2, "LDX", 2, 2, Immediate)
    && 0x11 in table && table[0x11] == OpCode(0x11, "ORA", 2, 5, IndirectY)
  }

  /** `OPCODES_MAP` holds those entries. */
  lemma OpcodesMapHasTraceTestEntries()
    ensures HasTraceTestEntries(OpcodesMap)
  {
    assert Ldx[0] in CpuOpCodes;
    OpcodesMapEntry(Ldx[0]);
    assert Ora[7] in CpuOpCodes;
    OpcodesMapEntry(Ora[7]);
  }

  // The hexadecimal text of the numbers the tests print.

  lemma ProgramCounterText()
    ensures Hex4(0x64) == "0064" && Hex4(0x400) == "0400"
  {
    Hex4Digits(0x64);
    Hex4Digits(0x400);
  }

  lemma SmallByteText()
    ensures Hex2(0x00) == "00" && Hex2(0x01) == "01" && Hex2(0x02) == "02" && Hex2(0x03) == "03"
  {
    Hex2Digits(0x00);
    Hex2Digits(0x01);
    Hex2Digits(0x02);
    Hex2Digits(0x03);
  }

  lemma StatusByteText()
    ensures Hex2(0x24) == "24" && Hex2(0xFD) == "FD"
  {
    Hex2Digits(0x24);
    Hex2Digits(0xFD);
  }

  lemma OpcodeByteText()
    ensures Hex2(0xA2) == "A2" && Hex2(0x11) == "11"
  {
    Hex2Digits(0xA2);
    Hex2Digits(0x11);
  }

  lemma OperandByteText()
    ensures Hex2(0x33) == "33" && Hex2(0xAA) == "AA"
  {
    Hex2Digits(0x33);
    Hex2Digits(0xAA);
  }

  // How `OpString` and `StatusString` lay out the parts the tests use.

  lemma HexBytesPair(a: U8, b: U8)
    ensures HexBytes([a, b]) == Hex2(a) + " " + Hex2(b)
  {
    assert [a, b][1..] == [b];
  }

  lemma PadPair(p: string)
    requires |p| == 5
    ensures PadRight(p, 8) == p + "   "
  {
    assert Repeat(' ', 3) == "   ";
  }

  lemma PadMnemonic(mn: string)
    requires |mn| == 3
    ensures PadLeft(mn, 4) == " " + mn
  {
    assert Repeat(' ', 1) == " ";
  }

  lemma OpStringTwoBytes(pc: U16, a: U8, b: U8, mn: string, operand: string)
    requires |mn| == 3
    ensures OpString(pc, [a, b], mn, operand)
            == Hex4(pc) + "  " + (Hex2(a) + " " + Hex2(b) + "   ") + " " + (" " + mn) + " " + operand
  {
    HexBytesPair(a, b);
    PadPair(Hex2(a) + " " + Hex2(b));
    PadMnemonic(mn);
  }

  lemma PadInstruction(s: string)
    requires |s| < 47
    ensures PadRight(s, 47) + " " == s + Repeat(' ', 48 - |s|)
  {
    assert Repeat(' ', 47 - |s|) + " " == Repeat(' ', 48 - |s|);
  }

  lemma LdxLiteral()
    ensures "0064" + "  " + ("A2" + " " + "01" + "   ") + " " + (" " + "LDX") + " " + "#$01"
            == "0064  A2 01     LDX #$01"
  {
    assert "A2" + " " + "01" + "   " == "A2 01   ";
    assert "0064" + "  " + "A2 01   " == "0064  A2 01   ";
    assert "0064  A2 01   " + " " + " LDX" == "0064  A2 01     LDX";
  }

  /** The instruction part of the first line of `test_format_trace`. */
  lemma LdxImmediateText()
    ensures PadRight(OpString(0x64, [0xA2, 0x01], "LDX", "#$01"), 47) + " "
            == "0064  A2 01     LDX #$01" + Repeat(' ', 24)
  {
    OpStringTwoBytes(0x64, 0xA2, 0x01, "LDX", "#$01");
    ProgramCounterText();
    SmallByteText();
    OpcodeByteText();
    LdxLiteral();
    PadInstruction("0064  A2 01     LDX #$01");
  }

  lemma OraLiteral(operand: string)
    ensures "0064" + "  " + ("11" + " " + "33" + "   ") + " " + (" " + "ORA") + " " + operand
            == "0064  11 33     ORA " + operand
  {
    assert "11" + " " + "33" + "   " == "11 33   ";
    assert "0064" + "  " + "11 33   " == "0064  11 33   ";
    assert "0064  11 33   " + " " + " ORA" + " " == "0064  11 33     ORA ";
  }

  /** The instruction part of the line of `test_format_mem_access`. */
  lemma OraIndirectYText()
    ensures PadRight(OpString(0x64, [0x11, 0x33], "ORA", "($33),Y = 0400 @ 0400 = AA"), 47) + " "
            == "0064  11 33     ORA " + "($33),Y = 0400 @ 0400 = AA" + Repeat(' ', 2)
  {
    OpStringTwoBytes(0x64, 0x11, 0x33, "ORA", "($33),Y = 0400 @ 0400 = AA");
    ProgramCounterText();
    OpcodeByteText();
    OperandByteText();
    OraLiteral("($33),Y = 0400 @ 0400 = AA");
    PadInstruction("0064  11 33     ORA " + "($33),Y = 0400 @ 0400 = AA");
  }

  lemma OraOperandLiteral()
    ensures "($" + "33" + ("),Y = " + "0400" + " @ " + "0400" + " = ") + "AA" == "($33),Y = 0400 @ 0400 = AA"
  {
    assert "),Y = " + "0400" + " @ " + "0400" + " = " == "),Y = 0400 @ 0400 = ";
  }

  /** The operand field of `ORA ($33),Y` with Y = 0 and the pointer at 0x33
      holding 0x0400. */
  lemma OraIndirectYOperand(v: TraceView)
    requires v.registerY == 0
    ensures ShortOperand(IndirectY, 0x33, v, 0x400, 0xAA) == Ok("($33),Y = 0400 @ 0400 = AA")
  {
    ProgramCounterText();
    OperandByteText();
    OraOperandLiteral();
  }

  lemma OraIndirectYOperandOf(table: map<int, OpCode>, v: TraceView)
    requires HasTraceTestEntries(table)
    requires v.pc == 0x64 && v.read(0x65) == 0x33
    requires v.operandAddress(IndirectY, 0x65) == 0x400 && v.read(0x400) == 0xAA && v.registerY == 0
    ensures MemoryOperand(IndirectY, v) == Ok((0x400, 0xAA))
    ensures OperandOf(table[0x11], v, 0x400, 0xAA) == Ok(Operand([0x33], "($33),Y = 0400 @ 0400 = AA"))
  {
    OraIndirectYOperand(v);
  }

  lemma LdxStatusLiteral()
    ensures "A:" + "01" + " X:" + "02" + " Y:" + "03" + " P:" + "24" + " SP:" + "FD" + " TICKS:"
            == "A:01 X:02 Y:03 P:24 SP:FD TICKS:"
  {
    assert "A:" + "01" + " X:" + "02" + " Y:" + "03" == "A:01 X:02 Y:03";
  }

  lemma OraStatusLiteral()
    ensures "A:" + "00" + " X:" + "00" + " Y:" + "00" + " P:" + "24" + " SP:" + "FD" + " TICKS:"
            == "A:00 X:00 Y:00 P:24 SP:FD TICKS:"
  {
    assert "A:" + "00" + " X:" + "00" + " Y:" + "00" == "A:00 X:00 Y:00";
  }

  lemma LdxStatus(v: TraceView)
    requires v.registerA == 1 && v.registerX == 2 && v.registerY == 3 && v.status == 0x24 && v.stackPointer == 0xFD
    ensures PadRight(StatusString(v), 24) == "A:01 X:02 Y:03 P:24 SP:FD TICKS:" + Decimal(v.cycles)
  {
    SmallByteText();
    StatusByteText();
    LdxStatusLiteral();
  }

  lemma OraStatus(v: TraceView)
    requires v.registerA == 0 && v.registerX == 0 && v.registerY == 0 && v.status == 0x24 && v.stackPointer == 0xFD
    ensures PadRight(StatusString(v), 24) == "A:00 X:00 Y:00 P:24 SP:FD TICKS:" + Decimal(v.cycles)
  {
    SmallByteText();
    StatusByteText();
    OraStatusLiteral();
  }

  /** `test_format_trace`, first line: `LDX #$01` at 0x0064, with A = 1,
      X = 2, Y = 3, P = 0x24 and SP = 0xFD. */
  lemma LdxImmediateLine(table: map<int, OpCode>, v: TraceView)
    requires HasTraceTestEntries(table)
    requires v.pc == 0x64 && v.read(0x64) == 0xA2 && v.read(0x65) == 0x01
    requires v.registerA == 1 && v.registerX == 2 && v.registerY == 3 && v.status == 0x24 && v.stackPointer == 0xFD
    ensures TraceLine(table, v)
            == Ok(("0064  A2 01     LDX #$01" + Repeat(' ', 24)) + ("A:01 X:02 Y:03 P:24 SP:FD TICKS:" + Decimal(v.cycles)))
  {
    SmallByteText();
    assert "#$" + "01" == "#$01";
    assert OperandOf(table[0xA2], v, 0, 0) == Ok(Operand([0x01], "#$01"));
    assert [0xA2] + [0x01] == [0xA2, 0x01];
    TraceLineParts(table, v);
    LdxImmediateText();
    LdxStatus(v);
  }

  /** `test_format_mem_access`: `ORA ($33),Y` at 0x0064 with Y = 0, the
      pointer at 0x33 holding 0x0400, and 0xAA stored there. */
  lemma OraIndirectYLine(table: map<int, OpCode>, v: TraceView)
    requires HasTraceTestEntries(table)
    requires v.pc == 0x64 && v.read(0x64) == 0x11 && v.read(0x65) == 0x33
    requires v.operandAddress(IndirectY, 0x65) == 0x400 && v.read(0x400) == 0xAA
    requires v.registerA == 0 && v.registerX == 0 && v.registerY == 0 && v.status == 0x24 && v.stackPointer == 0xFD
    ensures TraceLine(table, v)
            == Ok(("0064  11 33     ORA " + "($33),Y = 0400 @ 0400 = AA" + Repeat(' ', 2))
                  + ("A:00 X:00 Y:00 P:24 SP:FD TICKS:" + Decimal(v.cycles)))
  {
    OraIndirectYOperandOf(table, v);
    assert [0x11] + [0x33] == [0x11, 0x33];
    TraceLineParts(table, v);
    OraIndirectYText();
    OraStatus(v);
  }
}
