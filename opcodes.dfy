/**
 * The 256-entry 6510 opcode table: for every opcode byte its mnemonic,
 * addressing mode and classification flags, undocumented opcodes included.
 */
module Opcodes {
  import opened Common
  import opened Addressing
  import opened Flags

  /** One table entry; `opcode` is the byte it describes. */
  datatype Opcode = Opcode(opcode: byte, addressing: AddressingMode, mnemonic: string, flags: bv32)

  // The table, entry for entry, in rows of sixteen opcodes (0x00-0x0F, 0x10-0x1F, ...),
  // the grouping the source itself uses. Note 0xDE (DEC) and 0xFE (INC), which it
  // gives as AbsoluteY.

  const Row0: seq<Opcode> :=
    [
      Opcode(0x00, AddrImplied,     "BRK", ValidOpcode),
      Opcode(0x01, AddrIndirectX,   "ORA", ValidOpcode),
      Opcode(0x02, AddrImplied,     "JAM", UndocOpcode),
      Opcode(0x03, AddrIndirectX,   "SLO", UndocOpcode),
      Opcode(0x04, AddrZeroPage,    "NOP", UndocOpcode),
      Opcode(0x05, AddrZeroPage,    "ORA", ValidOpcode),
      Opcode(0x06, AddrZeroPage,    "ASL", ValidOpcode),
      Opcode(0x07, AddrZeroPage,    "SLO", UndocOpcode),
      Opcode(0x08, AddrImplied,     "PHP", ValidOpcode),
      Opcode(0x09, AddrImmediate,   "ORA", ValidOpcode),
      Opcode(0x0A, AddrAccumulator, "ASL", ValidOpcode),
      Opcode(0x0B, AddrImmediate,   "ANC", UndocOpcode),
      Opcode(0x0C, AddrAbsolute,    "NOP", UndocOpcode),
      Opcode(0x0D, AddrAbsolute,    "ORA", ValidOpcode),
      Opcode(0x0E, AddrAbsolute,    "ASL", ValidOpcode),
      Opcode(0x0F, AddrAbsolute,    "SLO", UndocOpcode)
    ]

  const Row1: seq<Opcode> :=
    [
      Opcode(0x10, AddrRelative,    "BPL", ValidOpcode | BranchOpcode),
      Opcode(0x11, AddrIndirectY,   "ORA", ValidOpcode),
      Opcode(0x12, AddrImplied,     "JAM", UndocOpcode),
      Opcode(0x13, AddrIndirectY,   "SLO", UndocOpcode),
      Opcode(0x14, AddrZeroPageX,   "NOP", UndocOpcode),
      Opcode(0x15, AddrZeroPageX,   "ORA", ValidOpcode),
      Opcode(0x16, AddrZeroPageX,   "ASL", ValidOpcode),
      Opcode(0x17, AddrZeroPageX,   "SLO", UndocOpcode),
      Opcode(0x18, AddrImplied,     "CLC", ValidOpcode),
      Opcode(0x19, AddrAbsoluteY,   "ORA", ValidOpcode),
      Opcode(0x1A, AddrImplied,     "NOP", UndocOpcode),
      Opcode(0x1B, AddrAbsoluteY,   "SLO", UndocOpcode),
      Opcode(0x1C, AddrAbsoluteX,   "NOP", UndocOpcode),
      Opcode(0x1D, AddrAbsoluteX,   "ORA", ValidOpcode),
      Opcode(0x1E, AddrAbsoluteX,   "ASL", ValidOpcode),
      Opcode(0x1F, AddrAbsoluteX,   "SLO", UndocOpcode)
    ]

  const Row2: seq<Opcode> :=
    [
      Opcode(0x20, AddrAbsolute,    "JSR", ValidOpcode | SubroutineOpcode),
      Opcode(0x21, AddrIndirectX,   "AND", ValidOpcode),
      Opcode(0x22, AddrImplied,     "JAM", UndocOpcode),
      Opcode(0x23, AddrIndirectX,   "RLA", UndocOpcode),
      Opcode(0x24, AddrZeroPage,    "BIT", ValidOpcode),
      Opcode(0x25, AddrZeroPage,    "AND", ValidOpcode),
      Opcode(0x26, AddrZeroPage,    "ROL", ValidOpcode),
      Opcode(0x27, AddrZeroPage,    "RLA", UndocOpcode),
      Opcode(0x28, AddrImplied,     "PLP", ValidOpcode),
      Opcode(0x29, AddrImmediate,   "AND", ValidOpcode),
      Opcode(0x2A, AddrAccumulator, "ROL", ValidOpcode),
      Opcode(0x2B, AddrImmediate,   "ANC", UndocOpcode),
      Opcode(0x2C, AddrAbsolute,    "BIT", ValidOpcode),
      Opcode(0x2D, AddrAbsolute,    "AND", ValidOpcode),
      Opcode(0x2E, AddrAbsolute,    "ROL", ValidOpcode),
      Opcode(0x2F, AddrAbsolute,    "RLA", UndocOpcode)
    ]

  const Row3: seq<Opcode> :=
    [
      Opcode(0x30, AddrRelative,    "BMI", ValidOpcode | BranchOpcode),
      Opcode(0x31, AddrIndirectY,   "AND", ValidOpcode),
      Opcode(0x32, AddrImplied,     "JAM", UndocOpcode),
      Opcode(0x33, AddrIndirectY,   "RLA", UndocOpcode),
      Opcode(0x34, AddrZeroPageX,   "NOP", UndocOpcode),
      Opcode(0x35, AddrZeroPageX,   "AND", ValidOpcode),
      Opcode(0x36, AddrZeroPageX,   "ROL", ValidOpcode),
      Opcode(0x37, AddrZeroPageX,   "RLA", UndocOpcode),
      Opcode(0x38, AddrImplied,     "SEC", ValidOpcode),
      Opcode(0x39, AddrAbsoluteY,   "AND", ValidOpcode),
      Opcode(0x3A, AddrImplied,     "NOP", UndocOpcode),
      Opcode(0x3B, AddrAbsoluteY,   "RLA", UndocOpcode),
      Opcode(0x3C, AddrAbsoluteX,   "NOP", UndocOpcode),
      Opcode(0x3D, AddrAbsoluteX,   "AND", ValidOpcode),
      Opcode(0x3E, AddrAbsoluteX,   "ROL", ValidOpcode),
      Opcode(0x3F, AddrAbsoluteX,   "RLA", UndocOpcode)
    ]

  const Row4: seq<Opcode> :=
    [
      Opcode(0x40, AddrImplied,     "RTI", ValidOpcode),
      Opcode(0x41, AddrIndirectX,   "EOR", ValidOpcode),
      Opcode(0x42, AddrImplied,     "JAM", UndocOpcode),
      Opcode(0x43, AddrIndirectX,   "SRE", UndocOpcode),
      Opcode(0x44, AddrZeroPage,    "NOP", UndocOpcode),
      Opcode(0x45, AddrZeroPage,    "EOR", ValidOpcode),
      Opcode(0x46, AddrZeroPage,    "LSR", ValidOpcode),
      Opcode(0x47, AddrZeroPage,    "SRE", UndocOpcode),
      Opcode(0x48, AddrImplied,     "PHA", ValidOpcode),
      Opcode(0x49, AddrImmediate,   "EOR", ValidOpcode),
      Opcode(0x4A, AddrAccumulator, "LSR", ValidOpcode),
      Opcode(0x4B, AddrImmediate,   "ALR", UndocOpcode),
      Opcode(0x4C, AddrAbsolute,    "JMP", ValidOpcode | JmpOpcode),
      Opcode(0x4D, AddrAbsolute,    "EOR", ValidOpcode),
      Opcode(0x4E, AddrAbsolute,    "LSR", ValidOpcode),
      Opcode(0x4F, AddrAbsolute,    "SRE", UndocOpcode)
    ]

  const Row5: seq<Opcode> :=
    [
      Opcode(0x50, AddrRelative,    "BVC", ValidOpcode | BranchOpcode),
      Opcode(0x51, AddrIndirectY,   "EOR", ValidOpcode),
      Opcode(0x52, AddrImplied,     "JAM", UndocOpcode),
      Opcode(0x53, AddrIndirectY,   "SRE", UndocOpcode),
      Opcode(0x54, AddrZeroPageX,   "NOP", UndocOpcode),
      Opcode(0x55, AddrZeroPageX,   "EOR", ValidOpcode),
      Opcode(0x56, AddrZeroPageX,   "LSR", ValidOpcode),
      Opcode(0x57, AddrZeroPageX,   "SRE", UndocOpcode),
      Opcode(0x58, AddrImplied,     "CLI", ValidOpcode),
      Opcode(0x59, AddrAbsoluteY,   "EOR", ValidOpcode),
      Opcode(0x5A, AddrImplied,     "NOP", UndocOpcode),
      Opcode(0x5B, AddrAbsoluteY,   "SRE", UndocOpcode),
      Opcode(0x5C, AddrAbsoluteX,   "NOP", UndocOpcode),
      Opcode(0x5D, AddrAbsoluteX,   "EOR", ValidOpcode),
      Opcode(0x5E, AddrAbsoluteX,   "LSR", ValidOpcode),
      Opcode(0x5F, AddrAbsoluteX,   "SRE", UndocOpcode)
    ]

  const Row6: seq<Opcode> :=
    [
      Opcode(0x60, AddrImplied,     "RTS", ValidOpcode),
      Opcode(0x61, AddrIndirectX,   "ADC", ValidOpcode),
      Opcode(0x62, AddrImplied,     "JAM", UndocOpcode),
      Opcode(0x63, AddrIndirectX,   "RRA", UndocOpcode),
      Opcode(0x64, AddrZeroPage,    "NOP", UndocOpcode),
      Opcode(0x65, AddrZeroPage,    "ADC", ValidOpcode),
      Opcode(0x66, AddrZeroPage,    "ROR", ValidOpcode),
      Opcode(0x67, AddrZeroPage,    "RRA", UndocOpcode),
      Opcode(0x68, AddrImplied,     "PLA", ValidOpcode),
      Opcode(0x69, AddrImmediate,   "ADC", ValidOpcode),
      Opcode(0x6A, AddrAccumulator, "ROR", ValidOpcode),
      Opcode(0x6B, AddrImmediate,   "ARR", UndocOpcode),
      Opcode(0x6C, AddrIndirect,    "JMP", ValidOpcode | JmpOpcode),
      Opcode(0x6D, AddrAbsolute,    "ADC", ValidOpcode),
      Opcode(0x6E, AddrAbsolute,    "ROR", ValidOpcode),
      Opcode(0x6F, AddrAbsolute,    "RRA", UndocOpcode)
    ]

  const Row7: seq<Opcode> :=
    [
      Opcode(0x70, AddrRelative,    "BVS", ValidOpcode | BranchOpcode),
      Opcode(0x71, AddrIndirectY,   "ADC", ValidOpcode),
      Opcode(0x72, AddrImplied,     "JAM", UndocOpcode),
      Opcode(0x73, AddrIndirectY,   "RRA", UndocOpcode),
      Opcode(0x74, AddrZeroPageX,   "NOP", UndocOpcode),
      Opcode(0x75, AddrZeroPageX,   "ADC", ValidOpcode),
      Opcode(0x76, AddrZeroPageX,   "ROR", ValidOpcode),
      Opcode(0x77, AddrZeroPageX,   "RRA", UndocOpcode),
      Opcode(0x78, AddrImplied,     "SEI", ValidOpcode),
      Opcode(0x79, AddrAbsoluteY,   "ADC", ValidOpcode),
      Opcode(0x7A, AddrImplied,     "NOP", UndocOpcode),
      Opcode(0x7B, AddrAbsoluteY,   "RRA", UndocOpcode),
      Opcode(0x7C, AddrAbsoluteX,   "NOP", UndocOpcode),
      Opcode(0x7D, AddrAbsoluteX,   "ADC", ValidOpcode),
      Opcode(0x7E, AddrAbsoluteX,   "ROR", ValidOpcode),
      Opcode(0x7F, AddrAbsoluteX,   "RRA", UndocOpcode)
    ]

  const Row8: seq<Opcode> :=
    [
      Opcode(0x80, AddrImmediate,   "NOP", InvalidOpcode),
      Opcode(0x81, AddrIndirectX,   "STA", ValidOpcode),
      Opcode(0x82, AddrImmediate,   "NOP", UndocOpcode),
      Opcode(0x83, AddrIndirectX,   "SAX", UndocOpcode),
      Opcode(0x84, AddrZeroPage,    "STY", ValidOpcode),
      Opcode(0x85, AddrZeroPage,    "STA", ValidOpcode),
      Opcode(0x86, AddrZeroPage,    "STX", ValidOpcode),
      Opcode(0x87, AddrZeroPage,    "SAX", UndocOpcode),
      Opcode(0x88, AddrImplied,     "DEY", ValidOpcode),
      Opcode(0x89, AddrImmediate,   "NOP", UndocOpcode),
      Opcode(0x8A, AddrImplied,     "TXA", ValidOpcode),
      Opcode(0x8B, AddrImmediate,   "ANE", UndocOpcode),
      Opcode(0x8C, AddrAbsolute,    "STY", ValidOpcode),
      Opcode(0x8D, AddrAbsolute,    "STA", ValidOpcode),
      Opcode(0x8E, AddrAbsolute,    "STX", ValidOpcode),
      Opcode(0x8F, AddrAbsolute,    "SAX", UndocOpcode)
    ]

  const Row9: seq<Opcode> :=
    [
      Opcode(0x90, AddrRelative,    "BCC", ValidOpcode | BranchOpcode),
      Opcode(0x91, AddrIndirectY,   "STA", ValidOpcode),
      Opcode(0x92, AddrImplied,     "JAM", UndocOpcode),
      Opcode(0x93, AddrAbsoluteX,   "SHA", UndocOpcode),
      Opcode(0x94, AddrZeroPageX,   "STY", ValidOpcode),
      Opcode(0x95, AddrZeroPageX,   "STA", ValidOpcode),
      Opcode(0x96, AddrZeroPageY,   "STX", ValidOpcode),
      Opcode(0x97, AddrZeroPageY,   "SAX", UndocOpcode),
      Opcode(0x98, AddrImplied,     "TYA", ValidOpcode),
      Opcode(0x99, AddrAbsoluteY,   "STA", ValidOpcode),
      Opcode(0x9A, AddrImplied,     "TXS", ValidOpcode),
      Opcode(0x9B, AddrAbsoluteY,   "TAS", UndocOpcode),
      Opcode(0x9C, AddrAbsoluteX,   "SHY", UndocOpcode),
      Opcode(0x9D, AddrAbsoluteX,   "STA", ValidOpcode),
      Opcode(0x9E, AddrAbsoluteY,   "SHX", UndocOpcode),
      Opcode(0x9F, AddrAbsoluteY,   "SHA", UndocOpcode)
    ]

  const RowA: seq<Opcode> :=
    [
      Opcode(0xA0, AddrImmediate,   "LDY", ValidOpcode),
      Opcode(0xA1, AddrIndirectX,   "LDA", ValidOpcode),
      Opcode(0xA2, AddrImmediate,   "LDX", ValidOpcode),
      Opcode(0xA3, AddrIndirectX,   "LAX", UndocOpcode),
      Opcode(0xA4, AddrZeroPage,    "LDY", ValidOpcode),
      Opcode(0xA5, AddrZeroPage,    "LDA", ValidOpcode),
      Opcode(0xA6, AddrZeroPage,    "LDX", ValidOpcode),
      Opcode(0xA7, AddrZeroPage,    "LAX", UndocOpcode),
      Opcode(0xA8, AddrImplied,     "TAY", ValidOpcode),
      Opcode(0xA9, AddrImmediate,   "LDA", ValidOpcode),
      Opcode(0xAA, AddrImplied,     "TAX", ValidOpcode),
      Opcode(0xAB, AddrImmediate,   "LAX", UndocOpcode),
      Opcode(0xAC, AddrAbsolute,    "LDY", ValidOpcode),
      Opcode(0xAD, AddrAbsolute,    "LDA", ValidOpcode),
      Opcode(0xAE, AddrAbsolute,    "LDX", ValidOpcode),
      Opcode(0xAF, AddrAbsolute,    "LAX", UndocOpcode)
    ]

  const RowB: seq<Opcode> :=
    [
      Opcode(0xB0, AddrRelative,    "BCS", ValidOpcode | BranchOpcode),
      Opcode(0xB1, AddrIndirectY,   "LDA", ValidOpcode),
      Opcode(0xB2, AddrImplied,     "JAM", UndocOpcode),
      Opcode(0xB3, AddrIndirectY,   "LAX", UndocOpcode),
      Opcode(0xB4, AddrZeroPageX,   "LDY", ValidOpcode),
      Opcode(0xB5, AddrZeroPageX,   "LDA", ValidOpcode),
      Opcode(0xB6, AddrZeroPageY,   "LDX", ValidOpcode),
      Opcode(0xB7, AddrZeroPageY,   "LAX", UndocOpcode),
      Opcode(0xB8, AddrImplied,     "CLV", ValidOpcode),
      Opcode(0xB9, AddrAbsoluteY,   "LDA", ValidOpcode),
      Opcode(0xBA, AddrImplied,     "TSX", ValidOpcode),
      Opcode(0xBB, AddrAbsoluteY,   "LAS", UndocOpcode),
      Opcode(0xBC, AddrAbsoluteX,   "LDY", ValidOpcode),
      Opcode(0xBD, AddrAbsoluteX,   "LDA", ValidOpcode),
      Opcode(0xBE, AddrAbsoluteY,   "LDX", ValidOpcode),
      Opcode(0xBF, AddrAbsoluteY,   "LAX", UndocOpcode)
    ]

  const RowC: seq<Opcode> :=
    [
      Opcode(0xC0, AddrImmediate,   "CPY", ValidOpcode),
      Opcode(0xC1, AddrIndirectX,   "CMP", ValidOpcode),
      Opcode(0xC2, AddrImmediate,   "NOP", UndocOpcode),
      Opcode(0xC3, AddrIndirectX,   "DCP", UndocOpcode),
      Opcode(0xC4, AddrZeroPage,    "CPY", ValidOpcode),
      Opcode(0xC5, AddrZeroPage,    "CMP", ValidOpcode),
      Opcode(0xC6, AddrZeroPage,    "DEC", ValidOpcode),
      Opcode(0xC7, AddrZeroPage,    "DCP", UndocOpcode),
      Opcode(0xC8, AddrImplied,     "INY", ValidOpcode),
      Opcode(0xC9, AddrImmediate,   "CMP", ValidOpcode),
      Opcode(0xCA, AddrImplied,     "DEX", ValidOpcode),
      Opcode(0xCB, AddrImmediate,   "SBX", UndocOpcode),
      Opcode(0xCC, AddrAbsolute,    "CPY", ValidOpcode),
      Opcode(0xCD, AddrAbsolute,    "CMP", ValidOpcode),
      Opcode(0xCE, AddrAbsolute,    "DEC", ValidOpcode),
      Opcode(0xCF, AddrAbsolute,    "DCP", UndocOpcode)
    ]

  const RowD: seq<Opcode> :=
    [
      Opcode(0xD0, AddrRelative,    "BNE", ValidOpcode | BranchOpcode),
      Opcode(0xD1, AddrIndirectY,   "CMP", ValidOpcode),
      Opcode(0xD2, AddrImplied,     "JAM", UndocOpcode),
      Opcode(0xD3, AddrIndirectY,   "DCP", UndocOpcode),
      Opcode(0xD4, AddrZeroPageX,   "NOP", UndocOpcode),
      Opcode(0xD5, AddrZeroPageX,   "CMP", ValidOpcode),
      Opcode(0xD6, AddrZeroPageX,   "DEC", ValidOpcode),
      Opcode(0xD7, AddrZeroPageX,   "DCP", UndocOpcode),
      Opcode(0xD8, AddrImplied,     "CLD", ValidOpcode),
      Opcode(0xD9, AddrAbsoluteY,   "CMP", ValidOpcode),
      Opcode(0xDA, AddrImplied,     "NOP", UndocOpcode),
      Opcode(0xDB, AddrAbsoluteY,   "DCP", UndocOpcode),
      Opcode(0xDC, AddrAbsoluteX,   "NOP", UndocOpcode),
      Opcode(0xDD, AddrAbsoluteX,   "CMP", ValidOpcode),
      Opcode(0xDE, AddrAbsoluteY,   "DEC", ValidOpcode),
      Opcode(0xDF, AddrAbsoluteX,   "DCP", UndocOpcode)
    ]

  const RowE: seq<Opcode> :=
    [
      Opcode(0xE0, AddrImmediate,   "CPX", ValidOpcode),
      Opcode(0xE1, AddrIndirectX,   "SBC", ValidOpcode),
      Opcode(0xE2, AddrImmediate,   "NOP", UndocOpcode),
      Opcode(0xE3, AddrIndirectX,   "ISC", UndocOpcode),
      Opcode(0xE4, AddrZeroPage,    "CPX", ValidOpcode),
      Opcode(0xE5, AddrZeroPage,    "SBC", ValidOpcode),
      Opcode(0xE6, AddrZeroPage,    "INC", ValidOpcode),
      Opcode(0xE7, AddrZeroPage,    "ISC", UndocOpcode),
      Opcode(0xE8, AddrImplied,     "INX", ValidOpcode),
      Opcode(0xE9, AddrImmediate,   "SBC", ValidOpcode),
      Opcode(0xEA, AddrImplied,     "NOP", ValidOpcode),
      Opcode(0xEB, AddrImmediate,   "SBC", UndocOpcode),
      Opcode(0xEC, AddrAbsolute,    "CPX", ValidOpcode),
      Opcode(0xED, AddrAbsolute,    "SBC", ValidOpcode),
      Opcode(0xEE, AddrAbsolute,    "INC", ValidOpcode),
      Opcode(0xEF, AddrAbsolute,    "ISC", UndocOpcode)
    ]

  const RowF: seq<Opcode> :=
    [
      Opcode(0xF0, AddrRelative,    "BEQ", ValidOpcode | BranchOpcode),
      Opcode(0xF1, AddrIndirectY,   "SBC", ValidOpcode),
      Opcode(0xF2, AddrImplied,     "JAM", UndocOpcode),
      Opcode(0xF3, AddrIndirectY,   "ISC", UndocOpcode),
      Opcode(0xF4, AddrZeroPageX,   "NOP", UndocOpcode),
      Opcode(0xF5, AddrZeroPageX,   "SBC", ValidOpcode),
      Opcode(0xF6, AddrZeroPageX,   "INC", ValidOpcode),
      Opcode(0xF7, AddrZeroPageX,   "ISC", UndocOpcode),
      Opcode(0xF8, AddrImplied,     "SED", ValidOpcode),
      Opcode(0xF9, AddrAbsoluteY,   "SBC", ValidOpcode),
      Opcode(0xFA, AddrImplied,     "NOP", UndocOpcode),
      Opcode(0xFB, AddrAbsoluteY,   "ISC", UndocOpcode),
      Opcode(0xFC, AddrAbsoluteX,   "NOP", UndocOpcode),
      Opcode(0xFD, AddrAbsoluteX,   "SBC", ValidOpcode),
      Opcode(0xFE, AddrAbsoluteY,   "INC", ValidOpcode),
      Opcode(0xFF, AddrAbsoluteX,   "ISC", UndocOpcode)
    ]

  const Rows: seq<seq<Opcode>> :=
    [Row0, Row1, Row2, Row3, Row4, Row5, Row6, Row7, Row8, Row9, RowA, RowB, RowC, RowD, RowE, RowF]

  /** The table entry for opcode byte `op`. */
  function Lookup(op: byte): (e: Opcode)
    ensures e.opcode == op
  {
    EntryFacts(op);
    Rows[op / 16][op % 16]
  }

  /** `flags` has exactly one of VALID, UNDOC and INVALID. */
  predicate OneClass(flags: bv32)
  {
    (if Has(flags, ValidOpcode) then 1 else 0)
    + (if Has(flags, UndocOpcode) then 1 else 0)
    + (if Has(flags, InvalidOpcode) then 1 else 0) == 1
  }

  /** Any of the three control-flow classifications. */
  predicate ControlFlow(flags: bv32)
  {
    Has(flags, BranchOpcode | SubroutineOpcode | JmpOpcode)
  }

  /** Everything the table promises about the entry stored for opcode byte `i`. */
  predicate EntryOk(e: Opcode, i: int)
  {
    FlagsOk(e.flags, i) && ShapeOk(e, i)
  }

  /** What the flags of the entry for opcode byte `i` promise. */
  predicate FlagsOk(f: bv32, i: int)
  {
    && OneClass(f)
    && (Has(f, InvalidOpcode) <==> i == 0x80)
    && (Has(f, BranchOpcode) <==> i in {0x10, 0x30, 0x50, 0x70, 0x90, 0xB0, 0xD0, 0xF0})
    && (Has(f, SubroutineOpcode) <==> i == 0x20)
    && (Has(f, JmpOpcode) <==> i == 0x4C || i == 0x6C)
    && (ControlFlow(f) ==> Has(f, ValidOpcode) && !Has(f, UndocOpcode))
    && !Has(f, DataFlag | LoadFlag | StoreFlag | IndirectFlag)
  }

  /** What the rest of the entry for opcode byte `i` promises. */
  predicate ShapeOk(e: Opcode, i: int)
  {
    && e.opcode == i
    && |e.mnemonic| == 3
    && (Has(e.flags, BranchOpcode) <==> e.addressing == AddrRelative)
    && (e.mnemonic == "JAM" ==> e.addressing == AddrImplied && e.flags == UndocOpcode)
    && (i == 0x20 || i == 0x4C ==> e.addressing == AddrAbsolute)
    && (i == 0x6C ==> e.addressing == AddrIndirect)
  }

  // ---------------------------------------------------------------- lemmas

  // One lemma per row: each entry of the row satisfies EntryOk.

  lemma Row0Flags(c: nat)
    requires c < 16
    ensures FlagsOk(Row0[c].flags, 0x00 + c)
  {
  }

  lemma Row0Shape(c: nat)
    requires c < 16
    ensures ShapeOk(Row0[c], 0x00 + c)
  {
  }

  lemma Row1Flags(c: nat)
    requires c < 16
    ensures FlagsOk(Row1[c].flags, 0x10 + c)
  {
  }

  lemma Row1Shape(c: nat)
    requires c < 16
    ensures ShapeOk(Row1[c], 0x10 + c)
  {
  }

  lemma Row2Flags(c: nat)
    requires c < 16
    ensures FlagsOk(Row2[c].flags, 0x20 + c)
  {
  }

  lemma Row2Shape(c: nat)
    requires c < 16
    ensures ShapeOk(Row2[c], 0x20 + c)
  {
  }

  lemma Row3Flags(c: nat)
    requires c < 16
    ensures FlagsOk(Row3[c].flags, 0x30 + c)
  {
  }

  lemma Row3Shape(c: nat)
    requires c < 16
    ensures ShapeOk(Row3[c], 0x30 + c)
  {
  }

  lemma Row4Flags(c: nat)
    requires c < 16
    ensures FlagsOk(Row4[c].flags, 0x40 + c)
  {
  }

  lemma Row4Shape(c: nat)
    requires c < 16
    ensures ShapeOk(Row4[c], 0x40 + c)
  {
  }

  lemma Row5Flags(c: nat)
    requires c < 16
    ensures FlagsOk(Row5[c].flags, 0x50 + c)
  {
  }

  lemma Row5Shape(c: nat)
    requires c < 16
    ensures ShapeOk(Row5[c], 0x50 + c)
  {
  }

  lemma Row6Flags(c: nat)
    requires c < 16
    ensures FlagsOk(Row6[c].flags, 0x60 + c)
  {
  }

  lemma Row6Shape(c: nat)
    requires c < 16
    ensures ShapeOk(Row6[c], 0x60 + c)
  {
  }

  lemma Row7Flags(c: nat)
    requires c < 16
    ensures FlagsOk(Row7[c].flags, 0x70 + c)
  {
  }

  lemma Row7Shape(c: nat)
    requires c < 16
    ensures ShapeOk(Row7[c], 0x70 + c)
  {
  }

  lemma Row8Flags(c: nat)
    requires c < 16
    ensures FlagsOk(Row8[c].flags, 0x80 + c)
  {
  }

  lemma Row8Shape(c: nat)
    requires c < 16
    ensures ShapeOk(Row8[c], 0x80 + c)
  {
  }

  lemma Row9Flags(c: nat)
    requires c < 16
    ensures FlagsOk(Row9[c].flags, 0x90 + c)
  {
  }

  lemma Row9Shape(c: nat)
    requires c < 16
    ensures ShapeOk(Row9[c], 0x90 + c)
  {
  }

  lemma RowAFlags(c: nat)
    requires c < 16
    ensures FlagsOk(RowA[c].flags, 0xA0 + c)
  {
  }

  lemma RowAShape(c: nat)
    requires c < 16
    ensures ShapeOk(RowA[c], 0xA0 + c)
  {
  }

  lemma RowBFlags(c: nat)
    requires c < 16
    ensures FlagsOk(RowB[c].flags, 0xB0 + c)
  {
  }

  lemma RowBShape(c: nat)
    requires c < 16
    ensures ShapeOk(RowB[c], 0xB0 + c)
  {
  }

  lemma RowCFlags(c: nat)
    requires c < 16
    ensures FlagsOk(RowC[c].flags, 0xC0 + c)
  {
  }

  lemma RowCShape(c: nat)
    requires c < 16
    ensures ShapeOk(RowC[c], 0xC0 + c)
  {
  }

  lemma RowDFlags(c: nat)
    requires c < 16
    ensures FlagsOk(RowD[c].flags, 0xD0 + c)
  {
  }

  lemma RowDShape(c: nat)
    requires c < 16
    ensures ShapeOk(RowD[c], 0xD0 + c)
  {
  }

  lemma RowEFlags(c: nat)
    requires c < 16
    ensures FlagsOk(RowE[c].flags, 0xE0 + c)
  {
  }

  lemma RowEShape(c: nat)
    requires c < 16
    ensures ShapeOk(RowE[c], 0xE0 + c)
  {
  }

  lemma RowFFlags(c: nat)
    requires c < 16
    ensures FlagsOk(RowF[c].flags, 0xF0 + c)
  {
  }

  lemma RowFShape(c: nat)
    requires c < 16
    ensures ShapeOk(RowF[c], 0xF0 + c)
  {
  }

  /** Every one of the 256 entries satisfies EntryOk. */
  lemma EntryFacts(op: byte)
    ensures |Rows| == 16 && |Rows[op / 16]| == 16
    ensures EntryOk(Rows[op / 16][op % 16], op)
  {
    var r, c := op / 16, op % 16;
    if r == 0 {
      assert Rows[r] == Row0;
      Row0Flags(c);
      Row0Shape(c);
    } else if r == 1 {
      assert Rows[r] == Row1;
      Row1Flags(c);
      Row1Shape(c);
    } else if r == 2 {
      assert Rows[r] == Row2;
      Row2Flags(c);
      Row2Shape(c);
    } else if r == 3 {
      assert Rows[r] == Row3;
      Row3Flags(c);
      Row3Shape(c);
    } else if r == 4 {
      assert Rows[r] == Row4;
      Row4Flags(c);
      Row4Shape(c);
    } else if r == 5 {
      assert Rows[r] == Row5;
      Row5Flags(c);
      Row5Shape(c);
    } else if r == 6 {
      assert Rows[r] == Row6;
      Row6Flags(c);
      Row6Shape(c);
    } else if r == 7 {
      assert Rows[r] == Row7;
      Row7Flags(c);
      Row7Shape(c);
    } else if r == 8 {
      assert Rows[r] == Row8;
      Row8Flags(c);
      Row8Shape(c);
    } else if r == 9 {
      assert Rows[r] == Row9;
      Row9Flags(c);
      Row9Shape(c);
    } else if r == 10 {
      assert Rows[r] == RowA;
      RowAFlags(c);
      RowAShape(c);
    } else if r == 11 {
      assert Rows[r] == RowB;
      RowBFlags(c);
      RowBShape(c);
    } else if r == 12 {
      assert Rows[r] == RowC;
      RowCFlags(c);
      RowCShape(c);
    } else if r == 13 {
      assert Rows[r] == RowD;
      RowDFlags(c);
      RowDShape(c);
    } else if r == 14 {
      assert Rows[r] == RowE;
      RowEFlags(c);
      RowEShape(c);
    } else if r == 15 {
      assert Rows[r] == RowF;
      RowFFlags(c);
      RowFShape(c);
    }
  }

  /** Exactly one of VALID/UNDOC/INVALID per entry; INVALID only at 0x80. */
  lemma ClassExactlyOne(op: byte)
    ensures OneClass(Lookup(op).flags)
    ensures Has(Lookup(op).flags, InvalidOpcode) <==> op == 0x80
  {
    EntryFacts(op);
  }

  /** BRANCH marks exactly the eight Relative-mode entries. */
  lemma BranchIffRelative(op: byte)
    ensures Has(Lookup(op).flags, BranchOpcode) <==> Lookup(op).addressing == AddrRelative
    ensures Has(Lookup(op).flags, BranchOpcode) <==> op in {0x10, 0x30, 0x50, 0x70, 0x90, 0xB0, 0xD0, 0xF0}
  {
    EntryFacts(op);
  }

  /** SUBROUTINE marks only JSR at 0x20, which is Absolute. */
  lemma SubroutineOnlyJsr(op: byte)
    ensures Has(Lookup(op).flags, SubroutineOpcode) <==> op == 0x20
    ensures Lookup(0x20).mnemonic == "JSR" && Lookup(0x20).addressing == AddrAbsolute
  {
    EntryFacts(op);
  }

  /** JMP marks only 0x4C (Absolute) and 0x6C (Indirect). */
  lemma JmpOnly(op: byte)
    ensures Has(Lookup(op).flags, JmpOpcode) <==> op == 0x4C || op == 0x6C
    ensures Lookup(0x4C).addressing == AddrAbsolute && Lookup(0x6C).addressing == AddrIndirect
  {
    EntryFacts(op);
  }

  /** Control-flow flags occur only together with VALID, never with UNDOC. */
  lemma ControlFlowIsValid(op: byte)
    ensures ControlFlow(Lookup(op).flags) ==> Has(Lookup(op).flags, ValidOpcode) && !Has(Lookup(op).flags, UndocOpcode)
  {
    EntryFacts(op);
  }

  /** No entry sets the reserved DATA, LOAD, STORE or INDIRECT bits. */
  lemma NoReservedBits(op: byte)
    ensures !Has(Lookup(op).flags, DataFlag | LoadFlag | StoreFlag | IndirectFlag)
  {
    EntryFacts(op);
  }

  /** Every JAM entry is Implied and UNDOC only. */
  lemma JamIsUndocImplied(op: byte)
    ensures Lookup(op).mnemonic == "JAM" ==> Lookup(op).addressing == AddrImplied && Lookup(op).flags == UndocOpcode
  {
    EntryFacts(op);
  }

  lemma MnemonicsThreeChars(op: byte)
    ensures |Lookup(op).mnemonic| == 3
  {
    EntryFacts(op);
  }

  /** The two entries whose mode the table gives as AbsoluteY, where the
      instruction set has AbsoluteX. */
  lemma AbsoluteYQuirks()
    ensures Lookup(0xDE).mnemonic == "DEC" && Lookup(0xDE).addressing == AddrAbsoluteY
    ensures Lookup(0xFE).mnemonic == "INC" && Lookup(0xFE).addressing == AddrAbsoluteY
  {
  }

  /** The table as one sequence indexed by opcode byte (the source's OPCODES_TABLE). */
  const OpcodesTable: seq<Opcode> := seq(256, i requires 0 <= i < 256 => Lookup(i))

  /** A table with 256 entries, each satisfying everything EntryOk promises for its index. */
  predicate TableOk(t: seq<Opcode>)
  {
    |t| == 256 && forall i :: 0 <= i < 256 ==> EntryOk(t[i], i)
  }

  /** The opcode table has exactly 256 entries, each indexed by its own opcode
      byte and each satisfying the classification and shape rules. */
  lemma OpcodesTableOk()
    ensures TableOk(OpcodesTable)
    ensures forall i :: 0 <= i < 256 ==> OpcodesTable[i].opcode == i
  {
    forall i | 0 <= i < 256
      ensures EntryOk(OpcodesTable[i], i)
    {
      EntryFacts(i);
    }
  }
}
