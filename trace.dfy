/** The log line of src/trace.rs: one line per executed instruction, in the
    layout of the well-known `nestest` log.  The line shows the program
    counter, the instruction's bytes, its mnemonic, its operand as the
    assembler would write it (with the address and value it reaches), and
    the registers.

    `trace` reads its inputs through the CPU.  This model hands them over as
    a `TraceView`: the registers, `mem_read`, and the two CPU helpers
    `get_operand_address_from_base` and `calculate_jmp_indirect_bug`, which
    are not part of this model, as plain functions.  A Rust panic becomes an
    `Err` carrying the panic's message.  The `u16` additions `current_PC + 1`
    and `current_PC + 2` panic on overflow, as in a debug build. */
module Trace {
  import opened Bits
  import opened Addressing
  import opened Opcodes
  import opened Outcomes

  const UnwrapNone: string := "called `Option::unwrap()` on a `None` value"
  const AddOverflow: string := "attempt to add with overflow"
  const UnexpectedShortMode: string := "Unexpected Addressing Mode at opcode.len = 2"
  const UnexpectedLongMode: string := "NO"

  /** What `trace` reads from the CPU. */
  datatype TraceView = TraceView(
    pc: U16,
    registerA: U8,
    registerX: U8,
    registerY: U8,
    status: U8,
    stackPointer: U8,
    cycles: nat,
    read: U16 -> U8,
    operandAddress: (AddressingMode, U16) -> U16,
    jmpIndirect: U16 -> U16)

  // ---------------------------------------------------------------------
  // Numbers as text: the formats `X`, `0wX` and plain decimal

  predicate IsHexDigit(c: char) {
    '0' <= c <= '9' || 'A' <= c <= 'F'
  }

  /** The upper-case digit for `d`. */
  function DigitChar(d: nat): (c: char)
    requires d < 16
    ensures IsHexDigit(c) && DigitValue(c) == d
  {
    if d < 10 then (48 + d) as char else (55 + d) as char
  }

  /** The value of a digit character (0 for any other character). */
  function DigitValue(c: char): nat {
    if '0' <= c <= '9' then c as int - 48
    else if 'A' <= c <= 'F' then c as int - 55
    else 0
  }

  /** The digits of `n` in `base`, most significant first, without leading
      zeros: format `X` for base 16, plain decimal for base 10. */
  function Digits(n: nat, base: nat): (s: string)
    requires 2 <= base <= 16
    ensures 1 <= |s|
    ensures forall i :: 0 <= i < |s| ==> IsHexDigit(s[i]) && DigitValue(s[i]) < base
    decreases n
  {
    if n < base then [DigitChar(n)] else Digits(n / base, base) + [DigitChar(n % base)]
  }

  /** The number a string of digits in `base` stands for. */
  function Parse(s: string, base: nat): nat {
    if |s| == 0 then 0 else Parse(s[..|s| - 1], base) * base + DigitValue(s[|s| - 1])
  }

  function Pow(b: nat, e: nat): nat {
    if e == 0 then 1 else b * Pow(b, e - 1)
  }

  /** `k` copies of `c`: the fill of a padded field, zeros for `0w` and
      spaces for `w` and `>w`. */
  function Repeat(c: char, k: nat): (s: string)
    ensures |s| == k && forall i :: 0 <= i < k ==> s[i] == c
  {
    seq(k, _ => c)
  }

  /** Format `0wX`: `n` in upper-case hexadecimal, padded with zeros to at least
      `width` digits (a wider number is printed in full). */
  function Hex(n: nat, width: nat): (s: string)
    ensures |s| == if |Digits(n, 16)| < width then width else |Digits(n, 16)|
    ensures forall i :: 0 <= i < |s| ==> IsHexDigit(s[i])
  {
    var d := Digits(n, 16);
    if |d| < width then Repeat('0', width - |d|) + d else d
  }

  /** `{}` on an unsigned integer. */
  function Decimal(n: nat): (s: string)
    ensures 1 <= |s|
  {
    Digits(n, 10)
  }

  /** Appending a digit multiplies by the base and adds the digit. */
  lemma ParseSnoc(s: string, c: char, base: nat)
    ensures Parse(s + [c], base) == Parse(s, base) * base + DigitValue(c)
  {
    assert (s + [c])[..|s|] == s;
  }

  lemma Euclid(n: nat, base: nat)
    requires base >= 2
    ensures n == n / base * base + n % base
    ensures n >= base ==> 0 < n / base < n
  {
  }

  /** The digits read back as the number they were made from. */
  lemma {:induction false} ParseDigits(n: nat, base: nat)
    requires 2 <= base <= 16
    ensures Parse(Digits(n, base), base) == n
    decreases n
  {
    if n >= base {
      var q, r := n / base, n % base;
      Euclid(n, base);
      ParseDigits(q, base);
      ParseSnoc(Digits(q, base), DigitChar(r), base);
    }
  }

  /** Digits have no leading zero: the text of a number is the shortest
      one. */
  lemma {:induction false} NoLeadingZero(n: nat, base: nat)
    requires 2 <= base <= 16 && n > 0
    ensures Digits(n, base)[0] != '0'
    decreases n
  {
    if n >= base {
      var q := n / base;
      Euclid(n, base);
      NoLeadingZero(q, base);
      assert Digits(n, base)[0] == Digits(q, base)[0];
    }
  }

  lemma {:induction false} ParseZeros(k: nat, s: string, base: nat)
    ensures Parse(Repeat('0', k) + s, base) == Parse(s, base)
    decreases |s|, k
  {
    if |s| > 0 {
      assert (Repeat('0', k) + s)[..|Repeat('0', k) + s| - 1] == Repeat('0', k) + s[..|s| - 1];
      ParseZeros(k, s[..|s| - 1], base);
    } else if k > 0 {
      assert Repeat('0', k) + s == Repeat('0', k - 1) + "0";
      assert (Repeat('0', k - 1) + "0")[..k - 1] == Repeat('0', k - 1) + "";
      ParseZeros(k - 1, "", base);
    } else {
      assert Repeat('0', k) + s == "";
    }
  }

  /** Hexadecimal text reads back as the number it was made from, whatever
      the padding. */
  lemma HexRoundTrip(n: nat, width: nat)
    ensures Parse(Hex(n, width), 16) == n
  {
    ParseDigits(n, 16);
    var d := Digits(n, 16);
    if |d| < width {
      ParseZeros(width - |d|, d, 16);
    }
  }

  lemma DivBelow(n: nat, b: nat, p: nat)
    requires b > 0 && n < b * p
    ensures n / b < p
  {
  }

  /** A number below `base^w` has at most `w` digits. */
  lemma {:induction false} DigitsFit(n: nat, base: nat, w: nat)
    requires 2 <= base <= 16 && 1 <= w && n < Pow(base, w)
    ensures |Digits(n, base)| <= w
    decreases n
  {
    if n >= base {
      Euclid(n, base);
      DivBelow(n, base, Pow(base, w - 1));
      DigitsFit(n / base, base, w - 1);
    }
  }

  lemma {:induction false} PowAdd(b: nat, m: nat, n: nat)
    ensures Pow(b, m + n) == Pow(b, m) * Pow(b, n)
  {
    if n > 0 {
      PowAdd(b, m, n - 1);
      assert Pow(b, m + n) == b * (Pow(b, m) * Pow(b, n - 1));
    }
  }

  /** Format `02X` on a `u8`: exactly two digits that read back as the byte. */
  function Hex2(b: U8): (s: string)
    ensures |s| == 2 && Parse(s, 16) == b
    ensures forall i :: 0 <= i < 2 ==> IsHexDigit(s[i])
  {
    DigitsFit(b, 16, 2);
    HexRoundTrip(b, 2);
    Hex(b, 2)
  }

  /** Format `04X` on a `u16`: exactly four digits that read back as the word. */
  function Hex4(w: U16): (s: string)
    ensures |s| == 4 && Parse(s, 16) == w
    ensures forall i :: 0 <= i < 4 ==> IsHexDigit(s[i])
  {
    assert Pow(16, 4) == 0x1_0000;
    DigitsFit(w, 16, 4);
    HexRoundTrip(w, 4);
    Hex(w, 4)
  }

  /** A digit character is the digit of its own value. */
  lemma DigitOfValue(c: char)
    requires IsHexDigit(c)
    ensures DigitValue(c) < 16 && DigitChar(DigitValue(c)) == c
  {
  }

  /** Format `02X` is the high and the low nibble of the byte, in that order. */
  lemma Hex2Digits(b: U8)
    ensures Hex2(b) == [DigitChar(b / 16), DigitChar(b % 16)]
  {
    var s := Hex2(b);
    LastDigit(s);
    assert s[..1][..0] == [];
    LastDigit(s[..1]);
  }

  /** The last digit of a string of hexadecimal digits is its value's low
      nibble, and the digits before it read as the value over 16. */
  lemma LastDigit(s: string)
    requires |s| > 0 && IsHexDigit(s[|s| - 1])
    ensures Parse(s, 16) / 16 == Parse(s[..|s| - 1], 16)
    ensures DigitChar(Parse(s, 16) % 16) == s[|s| - 1]
  {
    DigitOfValue(s[|s| - 1]);
    NibbleSplit(Parse(s[..|s| - 1], 16), DigitValue(s[|s| - 1]));
  }

  lemma NibbleSplit(q: nat, r: nat)
    requires r < 16
    ensures (q * 16 + r) / 16 == q && (q * 16 + r) % 16 == r
  {
  }

  /** Format `04X` is the four nibbles of the word, most significant first. */
  lemma Hex4Digits(w: U16)
    ensures Hex4(w) == [DigitChar(w / 16 / 16 / 16), DigitChar(w / 16 / 16 % 16), DigitChar(w / 16 % 16), DigitChar(w % 16)]
  {
    FourDigits(Hex4(w));
  }

  /** Four hexadecimal digits are the nibbles of the number they read as. */
  lemma FourDigits(s: string)
    requires |s| == 4 && forall i :: 0 <= i < 4 ==> IsHexDigit(s[i])
    requires Parse(s, 16) < 0x1_0000
    ensures var n := Parse(s, 16);
            s == [DigitChar(n / 16 / 16 / 16), DigitChar(n / 16 / 16 % 16), DigitChar(n / 16 % 16), DigitChar(n % 16)]
  {
    var n := Parse(s, 16);
    LastDigit(s);
    assert s[..3][..2] == s[..2] && s[..2][..1] == s[..1];
    LastDigit(s[..3]);
    LastDigit(s[..2]);
    FirstDigit(s[..1]);
    var n1, n2 := Parse(s[..3], 16), Parse(s[..2], 16);
    assert n / 16 == n1 && n1 / 16 == n2 && n2 / 16 == Parse(s[..1], 16);
    assert s[0] == DigitChar(n2 / 16) && s[1] == DigitChar(n2 % 16);
    assert s[2] == DigitChar(n1 % 16) && s[3] == DigitChar(n % 16);
  }

  /** A single digit reads as its own value. */
  lemma FirstDigit(s: string)
    requires |s| == 1 && IsHexDigit(s[0])
    ensures Parse(s, 16) < 16 && DigitChar(Parse(s, 16)) == s[0]
  {
    assert s[..0] == [];
    DigitOfValue(s[0]);
  }

  // ---------------------------------------------------------------------
  // Padding: format `w` and format `>w` on strings

  /** Format `w`: left-aligned, filled with spaces to at least `w` characters. */
  function PadRight(s: string, w: nat): (r: string)
    ensures |r| == if |s| < w then w else |s|
    ensures r[..|s|] == s && forall i :: |s| <= i < |r| ==> r[i] == ' '
  {
    if |s| < w then s + Repeat(' ', w - |s|) else s
  }

  lemma PadRightShort(s: string, w: nat)
    requires |s| <= w
    ensures PadRight(s, w) == s + Repeat(' ', w - |s|)
  {
    if |s| == w {
      assert Repeat(' ', 0) == [];
    }
  }

  /** Format `>w`: right-aligned, filled with spaces to at least `w` characters. */
  function PadLeft(s: string, w: nat): (r: string)
    ensures |r| == if |s| < w then w else |s|
    ensures r[|r| - |s|..] == s && forall i :: 0 <= i < |r| - |s| ==> r[i] == ' '
  {
    if |s| < w then Repeat(' ', w - |s|) + s else s
  }

  // ---------------------------------------------------------------------
  // The instruction bytes

  /** The `instruction_string`: each byte as format `02X`, joined by single
      spaces. */
  function HexBytes(bytes: seq<U8>): (s: string)
    ensures |bytes| > 0 ==> |s| == 3 * |bytes| - 1
    ensures |bytes| == 0 ==> s == ""
  {
    if |bytes| == 0 then ""
    else if |bytes| == 1 then Hex2(bytes[0])
    else Hex2(bytes[0]) + " " + HexBytes(bytes[1..])
  }

  /** Reads space-separated two-digit hexadecimal numbers from the start of
      a string, stopping at the first field that does not start with a
      digit. */
  function ReadHexBytes(s: string): seq<nat>
    decreases |s|
  {
    if |s| < 2 || !IsHexDigit(s[0]) then []
    else [Parse(s[..2], 16)] + (if |s| > 2 && s[2] == ' ' then ReadHexBytes(s[3..]) else [])
  }

  /** The instruction field, padded with spaces, reads back as the bytes. */
  lemma {:induction false} HexBytesRoundTrip(bytes: seq<U8>, pad: nat)
    requires |bytes| >= 1
    ensures ReadHexBytes(HexBytes(bytes) + Repeat(' ', pad)) == bytes
    decreases |bytes|
  {
    var s := HexBytes(bytes) + Repeat(' ', pad);
    assert s[..2] == Hex2(bytes[0]);
    if |bytes| == 1 {
      if pad > 0 {
        assert s[3..] == Repeat(' ', pad - 1);
        if pad - 1 >= 2 {
          assert s[3..][0] == ' ';
        }
      }
    } else {
      assert s[2] == ' ';
      assert s[3..] == HexBytes(bytes[1..]) + Repeat(' ', pad);
      HexBytesRoundTrip(bytes[1..], pad);
    }
  }

  // ---------------------------------------------------------------------
  // The operand field

  /** `byte as i8`. */
  function Signed(b: U8): (v: int)
    ensures -0x80 <= v < 0x80
    ensures v % 0x100 == b
  {
    if b < 0x80 then b else b - 0x100
  }

  /** The target printed for a relative branch:
      `(pc as usize + 2).wrapping_add((b as i8) as usize)` on a 64-bit
      `usize`.  It is the address after the branch moved by the signed
      offset, unless that is negative, when it wraps to just below 2^64. */
  function BranchTarget(pc: U16, b: U8): (t: nat)
    ensures 0 <= pc + 2 + Signed(b) ==> t == pc + 2 + Signed(b)
    ensures pc + 2 + Signed(b) < 0 ==> t == 0x1_0000_0000_0000_0000 + pc + 2 + Signed(b)
  {
    (pc + 2 + Signed(b)) % 0x1_0000_0000_0000_0000
  }

  /** The (address, value) pair `trace` looks up before printing: nothing
      for `Immediate` and `NoneAddressing`; otherwise the operand address
      the CPU computes from `current_PC + 1` and the byte stored there. */
  function MemoryOperand(mode: AddressingMode, v: TraceView): (r: Result<(U16, U8)>)
    ensures r.Err? <==> mode != Immediate && mode != NoneAddressing && v.pc == 0xFFFF
    ensures r.Ok? && mode != Immediate && mode != NoneAddressing ==>
              r.value.1 == v.read(r.value.0) && r.value.0 == v.operandAddress(mode, v.pc + 1)
    ensures r.Ok? && (mode == Immediate || mode == NoneAddressing) ==> r.value == (0, 0)
  {
    if mode == Immediate || mode == NoneAddressing then Ok((0, 0))
    else if v.pc + 1 > 0xFFFF then Err(AddOverflow)
    else
      var addr := v.operandAddress(mode, v.pc + 1);
      Ok((addr, v.read(addr)))
  }

  /** Characters that may open an operand before its first number. */
  predicate IsMark(c: char) {
    c == '#' || c == '$' || c == '('
  }

  function SkipMarks(s: string): string {
    if |s| > 0 && IsMark(s[0]) then SkipMarks(s[1..]) else s
  }

  function HexRun(s: string): string {
    if |s| > 0 && IsHexDigit(s[0]) then [s[0]] + HexRun(s[1..]) else ""
  }

  /** The first number written in an operand, after its `#`, `$` or `(`
      marks. */
  function LeadingNumber(s: string): nat {
    Parse(HexRun(SkipMarks(s)), 16)
  }

  /** The value written as the last `k` characters of an operand. */
  function TrailingNumber(s: string, k: nat): nat
    requires k <= |s|
  {
    Parse(s[|s| - k..], 16)
  }

  lemma {:induction false} HexRunStops(h: string, t: string)
    requires forall i :: 0 <= i < |h| ==> IsHexDigit(h[i])
    requires |t| == 0 || !IsHexDigit(t[0])
    ensures HexRun(h + t) == h
    decreases |h|
  {
    if |h| > 0 {
      assert (h + t)[1..] == h[1..] + t;
      HexRunStops(h[1..], t);
    } else {
      assert h + t == t;
    }
  }

  lemma {:induction false} SkipMarksStops(m: string, rest: string)
    requires forall i :: 0 <= i < |m| ==> IsMark(m[i])
    requires |rest| > 0 && !IsMark(rest[0])
    ensures SkipMarks(m + rest) == rest
    decreases |m|
  {
    if |m| > 0 {
      assert (m + rest)[1..] == m[1..] + rest;
      SkipMarksStops(m[1..], rest);
    } else {
      assert m + rest == rest;
    }
  }

  /** An operand written as marks, a number, and then text that does not
      start with a digit has that number as its leading number, and ends
      with its last part. */
  lemma OperandShape(m: string, h: string, mid: string, tail: string)
    requires forall i :: 0 <= i < |m| ==> IsMark(m[i])
    requires |h| > 0 && forall i :: 0 <= i < |h| ==> IsHexDigit(h[i])
    requires |mid + tail| == 0 || !IsHexDigit((mid + tail)[0])
    ensures LeadingNumber(m + h + mid + tail) == Parse(h, 16)
    ensures (m + h + mid + tail)[|m + h + mid + tail| - |tail|..] == tail
  {
    assert m + h + mid + tail == m + (h + (mid + tail));
    SkipMarksStops(m, h + (mid + tail));
    HexRunStops(h, mid + tail);
  }

  /** The operand of a two-byte instruction, whose operand byte is `b`. */
  function ShortOperand(mode: AddressingMode, b: U8, v: TraceView, memAddr: U16, memVal: U8): (r: Result<string>)
    ensures r.Err? <==> mode in {Absolute, AbsoluteX, AbsoluteY}
    ensures r.Err? ==> r.message == UnexpectedShortMode
    ensures r.Ok? ==> |r.value| <= 26
  {
    match mode
    case Immediate => Ok("#$" + Hex2(b))
    case ZeroPage => Ok("$" + Hex2(b) + " = " + Hex2(memVal))
    case ZeroPageX => Ok("$" + Hex2(b) + (",X @ " + ShortAddress(memAddr) + " = ") + Hex2(memVal))
    case ZeroPageY => Ok("$" + Hex2(b) + (",Y @ " + ShortAddress(memAddr) + " = ") + Hex2(memVal))
    case IndirectX =>
      Ok("($" + Hex2(b) + (",X) @ " + Hex2((v.registerX + b) % 0x100) + " = " + Hex4(memAddr) + " = ") + Hex2(memVal))
    case IndirectY =>
      Ok("($" + Hex2(b) + ("),Y = " + Hex4((memAddr - v.registerY) % 0x1_0000) + " @ " + Hex4(memAddr) + " = ") + Hex2(memVal))
    case NoneAddressing => Ok("$" + BranchText(v.pc, b))
    case _ => Err(UnexpectedShortMode)
  }

  /** Format `02X` on a `u16` address: two to four digits. */
  function ShortAddress(a: U16): (s: string)
    ensures 2 <= |s| <= 4 && Parse(s, 16) == a
    ensures forall i :: 0 <= i < |s| ==> IsHexDigit(s[i])
  {
    assert Pow(16, 4) == 0x1_0000;
    DigitsFit(a, 16, 4);
    HexRoundTrip(a, 2);
    Hex(a, 2)
  }

  /** Format `04X` on the branch target: four to sixteen digits. */
  function BranchText(pc: U16, b: U8): (s: string)
    ensures 4 <= |s| <= 16 && Parse(s, 16) == BranchTarget(pc, b)
    ensures forall i :: 0 <= i < |s| ==> IsHexDigit(s[i])
  {
    assert Pow(16, 4) == 0x1_0000;
    PowAdd(16, 4, 4);
    PowAdd(16, 8, 8);
    DigitsFit(BranchTarget(pc, b), 16, 16);
    HexRoundTrip(BranchTarget(pc, b), 4);
    Hex(BranchTarget(pc, b), 4)
  }

  /** The operand of a three-byte instruction, whose operand word is
      `word`.  `JMP`/`JSR` absolute print no value; `JMP` indirect prints
      where the jump lands. */
  function LongOperand(op: OpCode, word: U16, v: TraceView, memAddr: U16, memVal: U8): (r: Result<string>)
    ensures r.Err? <==> op.mode !in {Absolute, AbsoluteX, AbsoluteY, NoneAddressing}
    ensures r.Err? ==> r.message == UnexpectedLongMode
    ensures r.Ok? ==> |r.value| <= 19
  {
    match op.mode
    case Absolute =>
      if op.code == 0x4C || op.code == 0x20 then Ok("$" + Hex4(word))
      else Ok("$" + Hex4(word) + " = " + Hex2(memVal))
    case AbsoluteX => Ok("$" + Hex4(word) + (",X @ " + Hex4(memAddr) + " = ") + Hex2(memVal))
    case AbsoluteY => Ok("$" + Hex4(word) + (",Y @ " + Hex4(memAddr) + " = ") + Hex2(memVal))
    case NoneAddressing =>
      if op.code == 0x6C then Ok("($" + Hex4(word) + ") = " + Hex4(v.jmpIndirect(word)))
      else Ok("($" + Hex4(word) + ")")
    case _ => Err(UnexpectedLongMode)
  }

  /** The modes whose operand field ends with the value read from memory. */
  predicate ShowsValue(op: OpCode) {
    op.mode in {ZeroPage, ZeroPageX, ZeroPageY, IndirectX, IndirectY, AbsoluteX, AbsoluteY}
    || (op.mode == Absolute && op.code != 0x4C && op.code != 0x20)
  }

  /** A two-byte instruction's operand field starts with the operand byte
      (for a branch, with the target it leads to) and, where the mode reads
      memory, ends with the value read. */
  lemma ShortOperandShows(op: OpCode, b: U8, v: TraceView, memAddr: U16, memVal: U8)
    requires ShortOperand(op.mode, b, v, memAddr, memVal).Ok?
    ensures LeadingNumber(ShortOperand(op.mode, b, v, memAddr, memVal).value)
            == if op.mode == NoneAddressing then BranchTarget(v.pc, b) else b
    ensures ShowsValue(op) ==> TrailingNumber(ShortOperand(op.mode, b, v, memAddr, memVal).value, 2) == memVal
  {
    match op.mode {
      case Immediate =>
        OperandShape("#$", Hex2(b), "", "");
        assert "#$" + Hex2(b) + "" + "" == "#$" + Hex2(b);
      case ZeroPage => OperandShape("$", Hex2(b), " = ", Hex2(memVal));
      case ZeroPageX => ZeroPageIndexedShows(",X @ ", b, memAddr, memVal);
      case ZeroPageY => ZeroPageIndexedShows(",Y @ ", b, memAddr, memVal);
      case IndirectX => IndirectXShows(b, v, memAddr, memVal);
      case IndirectY => IndirectYShows(b, v, memAddr, memVal);
      case NoneAddressing =>
        OperandShape("$", BranchText(v.pc, b), "", "");
        assert "$" + BranchText(v.pc, b) + "" + "" == "$" + BranchText(v.pc, b);
    }
  }

  lemma IndirectXShows(b: U8, v: TraceView, memAddr: U16, memVal: U8)
    ensures var text := ShortOperand(IndirectX, b, v, memAddr, memVal).value;
            LeadingNumber(text) == b && TrailingNumber(text, 2) == memVal
  {
    var mid := ",X) @ " + Hex2((v.registerX + b) % 0x100) + " = " + Hex4(memAddr) + " = ";
    assert ShortOperand(IndirectX, b, v, memAddr, memVal) == Ok("($" + Hex2(b) + mid + Hex2(memVal));
    OperandShape("($", Hex2(b), mid, Hex2(memVal));
  }

  lemma IndirectYShows(b: U8, v: TraceView, memAddr: U16, memVal: U8)
    ensures var text := ShortOperand(IndirectY, b, v, memAddr, memVal).value;
            LeadingNumber(text) == b && TrailingNumber(text, 2) == memVal
  {
    var mid := "),Y = " + Hex4((memAddr - v.registerY) % 0x1_0000) + " @ " + Hex4(memAddr) + " = ";
    assert ShortOperand(IndirectY, b, v, memAddr, memVal) == Ok("($" + Hex2(b) + mid + Hex2(memVal));
    OperandShape("($", Hex2(b), mid, Hex2(memVal));
  }

  lemma ZeroPageIndexedShows(index: string, b: U8, memAddr: U16, memVal: U8)
    requires |index| > 0 && index[0] == ','
    ensures var text := "$" + Hex2(b) + (index + ShortAddress(memAddr) + " = ") + Hex2(memVal);
            LeadingNumber(text) == b && TrailingNumber(text, 2) == memVal
  {
    OperandShape("$", Hex2(b), index + ShortAddress(memAddr) + " = ", Hex2(memVal));
  }

  /** A three-byte instruction's operand field starts with the operand
      word; where the mode reads memory it ends with the value read, and
      for `JMP` indirect it ends with where the jump lands. */
  lemma LongOperandShows(op: OpCode, word: U16, v: TraceView, memAddr: U16, memVal: U8)
    requires LongOperand(op, word, v, memAddr, memVal).Ok?
    ensures LeadingNumber(LongOperand(op, word, v, memAddr, memVal).value) == word
    ensures ShowsValue(op) ==> TrailingNumber(LongOperand(op, word, v, memAddr, memVal).value, 2) == memVal
    ensures op.mode == NoneAddressing && op.code == 0x6C ==>
              TrailingNumber(LongOperand(op, word, v, memAddr, memVal).value, 4) == v.jmpIndirect(word)
  {
    match op.mode {
      case Absolute => AbsoluteShows(op, word, v, memAddr, memVal);
      case AbsoluteX => IndexedShows(op, word, v, memAddr, memVal);
      case AbsoluteY => IndexedShows(op, word, v, memAddr, memVal);
      case NoneAddressing => IndirectJumpShows(op, word, v, memAddr, memVal);
    }
  }

  lemma AbsoluteShows(op: OpCode, word: U16, v: TraceView, memAddr: U16, memVal: U8)
    requires op.mode == Absolute
    ensures var text := LongOperand(op, word, v, memAddr, memVal).value;
            && LeadingNumber(text) == word
            && (ShowsValue(op) ==> TrailingNumber(text, 2) == memVal)
  {
    var text := LongOperand(op, word, v, memAddr, memVal).value;
    if op.code == 0x4C || op.code == 0x20 {
      OperandShape("$", Hex4(word), "", "");
      assert text == "$" + Hex4(word) + "" + "";
    } else {
      OperandShape("$", Hex4(word), " = ", Hex2(memVal));
      assert text == "$" + Hex4(word) + " = " + Hex2(memVal);
    }
  }

  lemma IndexedShows(op: OpCode, word: U16, v: TraceView, memAddr: U16, memVal: U8)
    requires op.mode == AbsoluteX || op.mode == AbsoluteY
    ensures var text := LongOperand(op, word, v, memAddr, memVal).value;
            LeadingNumber(text) == word && TrailingNumber(text, 2) == memVal
  {
    var text := LongOperand(op, word, v, memAddr, memVal).value;
    var mid := (if op.mode == AbsoluteX then ",X @ " else ",Y @ ") + Hex4(memAddr) + " = ";
    OperandShape("$", Hex4(word), mid, Hex2(memVal));
    assert text == "$" + Hex4(word) + mid + Hex2(memVal);
  }

  lemma IndirectJumpShows(op: OpCode, word: U16, v: TraceView, memAddr: U16, memVal: U8)
    requires op.mode == NoneAddressing
    ensures var text := LongOperand(op, word, v, memAddr, memVal).value;
            && LeadingNumber(text) == word
            && (op.code == 0x6C ==> TrailingNumber(text, 4) == v.jmpIndirect(word))
  {
    var text := LongOperand(op, word, v, memAddr, memVal).value;
    if op.code == 0x6C {
      OperandShape("($", Hex4(word), ") = ", Hex4(v.jmpIndirect(word)));
      assert text == "($" + Hex4(word) + ") = " + Hex4(v.jmpIndirect(word));
    } else {
      OperandShape("($", Hex4(word), ")", "");
      assert text == "($" + Hex4(word) + ")" + "";
    }
  }

  /** The `Indirect_Y` field prints `mem_addr.wrapping_sub(y)`: when the CPU
      computes the address as the pointer plus Y modulo 2^16, that is the
      pointer itself. */
  lemma IndirectYShowsPointer(pointer: U16, y: U8)
    ensures ((pointer + y) % 0x1_0000 - y) % 0x1_0000 == pointer
  {
  }

  // ---------------------------------------------------------------------
  // The whole line

  /** The operand bytes and operand field of an instruction. */
  datatype Operand = Operand(bytes: seq<U8>, text: string)

  /** The `match opcode.len` of `trace`. */
  function OperandOf(op: OpCode, v: TraceView, memAddr: U16, memVal: U8): (r: Result<Operand>)
    ensures r.Ok? <==> && (op.len == 2 ==> v.pc + 1 <= 0xFFFF && op.mode !in {Absolute, AbsoluteX, AbsoluteY})
                       && (op.len == 3 ==> v.pc + 2 <= 0xFFFF && op.mode in {Absolute, AbsoluteX, AbsoluteY, NoneAddressing})
    ensures r.Ok? ==> |r.value.text| <= 26
    ensures r.Ok? ==> |r.value.bytes| == (if op.len == 2 || op.len == 3 then op.len - 1 else 0)
    ensures r.Ok? ==> forall i :: 0 <= i < |r.value.bytes| ==> v.pc + 1 + i <= 0xFFFF && r.value.bytes[i] == v.read(v.pc + 1 + i)
  {
    if op.len == 1 then
      Ok(Operand([], if op.code in {0x4A, 0x0A, 0x2A, 0x6A} then "A" else ""))
    else if op.len == 2 then
      if v.pc + 1 > 0xFFFF then Err(AddOverflow)
      else
        var b := v.read(v.pc + 1);
        match ShortOperand(op.mode, b, v, memAddr, memVal)
        case Ok(text) => Ok(Operand([b], text))
        case Err(message) => Err(message)
    else if op.len == 3 then
      if v.pc + 2 > 0xFFFF then Err(AddOverflow)
      else
        var lo := v.read(v.pc + 1);
        var hi := v.read(v.pc + 2);
        match LongOperand(op, Word(lo, hi), v, memAddr, memVal)
        case Ok(text) => Ok(Operand([lo, hi], text))
        case Err(message) => Err(message)
    else
      Ok(Operand([], ""))
  }

  /** `op_string`: PC, instruction bytes, mnemonic and operand. */
  function OpString(pc: U16, bytes: seq<U8>, mnemonic: string, operand: string): string {
    Hex4(pc) + "  " + PadRight(HexBytes(bytes), 8) + " " + PadLeft(mnemonic, 4) + " " + operand
  }

  /** `status_string`: the registers and the bus's cycle count. */
  function StatusString(v: TraceView): (s: string)
    ensures |s| >= 33 && s[..2] == "A:" && s[25..32] == " TICKS:"
    ensures Parse(s[2..4], 16) == v.registerA && Parse(s[7..9], 16) == v.registerX
    ensures Parse(s[12..14], 16) == v.registerY && Parse(s[17..19], 16) == v.status
    ensures Parse(s[23..25], 16) == v.stackPointer && Parse(s[32..], 10) == v.cycles
  {
    var a, x, y, p, sp, t := Hex2(v.registerA), Hex2(v.registerX), Hex2(v.registerY),
                             Hex2(v.status), Hex2(v.stackPointer), Decimal(v.cycles);
    StatusLayout(a, x, y, p, sp, t);
    ParseDigits(v.cycles, 10);
    "A:" + a + " X:" + x + " Y:" + y + " P:" + p + " SP:" + sp + " TICKS:" + t
  }

  /** Where the fields of a status string sit, given two-character registers. */
  lemma StatusLayout(a: string, x: string, y: string, p: string, sp: string, t: string)
    requires |a| == |x| == |y| == |p| == |sp| == 2
    ensures var s := "A:" + a + " X:" + x + " Y:" + y + " P:" + p + " SP:" + sp + " TICKS:" + t;
            s[..2] == "A:" && s[2..4] == a && s[7..9] == x && s[12..14] == y && s[17..19] == p
            && s[23..25] == sp && s[25..32] == " TICKS:" && s[32..] == t
  {
  }

  /** The instructions `trace` can print at `pc` without panicking: the
      operand reads stay inside the 16-bit address space and the mode is
      one the `match` for the instruction's length handles. */
  predicate Traceable(op: OpCode, pc: U16) {
    && (op.mode != Immediate && op.mode != NoneAddressing ==> pc + 1 <= 0xFFFF)
    && (op.len == 2 ==> pc + 1 <= 0xFFFF && op.mode !in {Absolute, AbsoluteX, AbsoluteY})
    && (op.len == 3 ==> pc + 2 <= 0xFFFF && op.mode in {Absolute, AbsoluteX, AbsoluteY, NoneAddressing})
  }

  /** `trace`: the log line for the instruction at PC, or the panic. */
  function TraceLine(table: map<int, OpCode>, v: TraceView): (r: Result<string>)
    ensures r.Ok? <==> v.read(v.pc) in table && Traceable(table[v.read(v.pc)], v.pc)
    ensures v.read(v.pc) !in table ==> r == Err(UnwrapNone)
  {
    var code := v.read(v.pc);
    if code !in table then Err(UnwrapNone)
    else
      var op := table[code];
      match MemoryOperand(op.mode, v)
      case Err(message) => Err(message)
      case Ok(mem) =>
        match OperandOf(op, v, mem.0, mem.1)
        case Err(message) => Err(message)
        case Ok(operand) =>
          Ok(PadRight(OpString(v.pc, [code] + operand.bytes, op.mnemonic, operand.text), 47)
             + " " + PadRight(StatusString(v), 24))
  }

  /** The `len` bytes of the instruction at PC (one byte for a length
      outside 1-3), as the instruction field shows them. */
  predicate InstructionAt(bytes: seq<U8>, op: OpCode, v: TraceView) {
    && |bytes| == (if 1 <= op.len <= 3 then op.len else 1)
    && forall i :: 0 <= i < |bytes| ==> v.pc + i <= 0xFFFF && bytes[i] == v.read(v.pc + i)
  }

  /** Where the parts of `op_string` land, for parts of the widths the
      format gives them: it never reaches column 47. */
  lemma FieldColumns(pcText: string, field: string, mn: string, operand: string)
    requires |pcText| == 4 && |field| == 8 && |mn| == 4 && |operand| <= 26
    ensures var s := pcText + "  " + field + " " + mn + " " + operand;
            && |s| <= 46
            && s[..4] == pcText
            && s[4..6] == "  "
            && s[6..14] == field
            && s[14] == ' '
            && s[15..19] == mn
            && s[19] == ' '
  {
  }

  /** The final `format!`, with widths 47 and 24, around such an `op_string`:
      its columns stay where they were, column 47 is a space, and the
      status part, never shorter than 24, follows unpadded. */
  lemma LineColumns(pcText: string, field: string, mn: string, operand: string, status: string)
    requires |pcText| == 4 && |field| == 8 && |mn| == 4 && |operand| <= 26 && |status| >= 24
    ensures var line := PadRight(pcText + "  " + field + " " + mn + " " + operand, 47) + " " + PadRight(status, 24);
            && |line| == 48 + |status|
            && line[..4] == pcText
            && line[4..6] == "  "
            && line[6..14] == field
            && line[14] == ' '
            && line[15..19] == mn
            && line[19] == ' '
            && line[47] == ' '
            && line[48..] == status
  {
    var s := pcText + "  " + field + " " + mn + " " + operand;
    FieldColumns(pcText, field, mn, operand);
    var padded := PadRight(s, 47);
    var line := padded + " " + PadRight(status, 24);
    assert line == padded + " " + status;
    assert line[..47] == padded;
    assert padded[..20] == s[..20];
    assert line[..20] == s[..20];
    assert line[..4] == s[..20][..4] && s[..4] == s[..20][..4];
    assert line[4..6] == s[..20][4..6] && s[4..6] == s[..20][4..6];
    assert line[6..14] == s[..20][6..14] && s[6..14] == s[..20][6..14];
    assert line[15..19] == s[..20][15..19] && s[15..19] == s[..20][15..19];
  }

  /** The opcode followed by the operand bytes `OperandOf` read are the
      instruction's bytes at PC. */
  lemma InstructionBytes(op: OpCode, v: TraceView, memAddr: U16, memVal: U8)
    requires OperandOf(op, v, memAddr, memVal).Ok?
    ensures InstructionAt([v.read(v.pc)] + OperandOf(op, v, memAddr, memVal).value.bytes, op, v)
  {
    var operand := OperandOf(op, v, memAddr, memVal).value.bytes;
    var bytes := [v.read(v.pc)] + operand;
    forall i | 0 <= i < |bytes|
      ensures v.pc + i <= 0xFFFF && bytes[i] == v.read(v.pc + i)
    {
      if i > 0 {
        assert bytes[i] == operand[i - 1];
      }
    }
  }

  /** The padded instruction field reads back as the instruction's bytes. */
  lemma FieldRoundTrip(bytes: seq<U8>)
    requires 1 <= |bytes| <= 3
    ensures ReadHexBytes(PadRight(HexBytes(bytes), 8)) == bytes
  {
    var h := HexBytes(bytes);
    PadRightShort(h, 8);
    HexBytesRoundTrip(bytes, 8 - |h|);
  }

  /** The log line of an instruction `trace` can print, in terms of its
      parts. */
  lemma TraceLineParts(table: map<int, OpCode>, v: TraceView)
    requires TraceLine(table, v).Ok?
    ensures var op := table[v.read(v.pc)];
            var mem := MemoryOperand(op.mode, v).value;
            var operand := OperandOf(op, v, mem.0, mem.1).value;
            TraceLine(table, v).value
            == PadRight(Hex4(v.pc) + "  " + PadRight(HexBytes([v.read(v.pc)] + operand.bytes), 8) + " "
                        + PadLeft(op.mnemonic, 4) + " " + operand.text, 47)
               + " " + PadRight(StatusString(v), 24)
  {
  }

  /** The columns of a log line: the PC in the first four characters, the
      instruction's bytes in the field from column 6, the mnemonic
      right-aligned in columns 15-18, and the registers after column 47. */
  lemma TraceColumns(table: map<int, OpCode>, v: TraceView)
    requires TraceLine(table, v).Ok?
    requires |table[v.read(v.pc)].mnemonic| <= 4
    ensures var line := TraceLine(table, v).value;
            var op := table[v.read(v.pc)];
            && |line| == 48 + |StatusString(v)|
            && Parse(line[..4], 16) == v.pc
            && line[4..6] == "  "
            && (exists bytes :: InstructionAt(bytes, op, v) && ReadHexBytes(line[6..14]) == bytes)
            && line[14] == ' '
            && line[15..19] == PadLeft(op.mnemonic, 4)
            && line[19] == ' '
            && line[47] == ' '
            && line[48..] == StatusString(v)
  {
    var op := table[v.read(v.pc)];
    var mem := MemoryOperand(op.mode, v).value;
    var operand := OperandOf(op, v, mem.0, mem.1).value;
    var bytes := [v.read(v.pc)] + operand.bytes;
    TraceLineParts(table, v);
    LineColumns(Hex4(v.pc), PadRight(HexBytes(bytes), 8), PadLeft(op.mnemonic, 4), operand.text, StatusString(v));
    InstructionBytes(op, v, mem.0, mem.1);
    FieldRoundTrip(bytes);
  }

  /** Every instruction of `OPCODES_MAP` can be traced wherever its operand
      bytes fit below 0x10000: the table never pairs a length with a mode
      the `match` rejects. */
  lemma OpcodesMapTraceable(v: TraceView)
    requires v.read(v.pc) in OpcodesMap
    requires v.pc + OpcodesMap[v.read(v.pc)].len - 1 <= 0xFFFF
    requires OpcodesMap[v.read(v.pc)].mode !in {Immediate, NoneAddressing} ==> v.pc + 1 <= 0xFFFF
    ensures TraceLine(OpcodesMap, v).Ok?
  {
    OpcodesMapWellFormed(v.read(v.pc));
  }
}
