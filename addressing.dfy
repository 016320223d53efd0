/** The 6502 addressing modes of src/cpu.rs:25-36.  They are declared in
    their own module because both the CPU and the opcode table use them. */
module Addressing {

  datatype AddressingMode =
    | Immediate
    | ZeroPage
    | ZeroPageX
    | ZeroPageY
    | Absolute
    | AbsoluteX
    | AbsoluteY
    | IndirectX
    | IndirectY
    | NoneAddressing
}
