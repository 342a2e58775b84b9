/** One disassembled line and its kind, as the decoder fills them in. */
module LineTypes {
  import opened Common
  import opened Flags

  datatype LineType = None | Instruction | UnknownInstruction | Comment

  /** The fixed 16-byte raw-byte buffer of a line (Rust's `[u8; 16]`). */
  type ByteCode = s: seq<byte> | |s| == 16 witness seq(16, _ => 0)

  datatype DisassembledLine = DisassembledLine(
    lineType: LineType,
    instrSize: byte,
    address: u32,
    addressRef: u32,
    offset: u32,
    returnAddress: u32,
    byteCode: ByteCode,
    opcode: string,
    operand: string,
    labelName: string,
    comment: string,
    flags: bv32)
  {
    /** The blank line every decode starts from. */
    static function New(): (l: DisassembledLine)
      ensures l.lineType == LineType.None
      ensures l.instrSize == 0 && l.address == 0 && l.addressRef == 0
      ensures l.offset == 0 && l.returnAddress == 0
      ensures forall i :: 0 <= i < 16 ==> l.byteCode[i] == 0
      ensures l.opcode == "" && l.operand == "" && l.labelName == "" && l.comment == ""
      ensures l.flags == UninitializedOpcode
    {
      DisassembledLine(LineType.None, 0, 0, 0, 0, 0, seq(16, _ => 0), "", "", "", "", UninitializedOpcode)
    }
  }
}
