/**
 * The 6510 decoder object: a 16-bit program counter over a loaded image.
 * Each call of DisassembleNext fills in one line field by field, as the
 * source does, and is proved to produce exactly what Decoder.Decode specifies.
 */
module Mos6510 {
  import opened Common
  import opened Bits
  import opened Addressing
  import opened Flags
  import opened Opcodes
  import opened Memory
  import opened LineTypes
  import opened Decoder

  /** The low byte of a word, taken with the mask 0x00FF. */
  method LowByte(w: u16) returns (b: byte)
    ensures b == w % 256
  {
    LowByteMask(w);
    b := And(w, 0x00FF);
  }

  /** The high byte of a word, taken with the mask 0xFF00 and a shift by 8. */
  method HighByte(w: u16) returns (b: byte)
    ensures b == w / 256
  {
    HighByteMask(w);
    b := ShiftRight(And(w, 0xFF00), 8);
  }

  class Cpu6510 {
    var pc: u16
    const memory: BinaryBuffer
    /** The opcode table the decoder reads; the source reads its static table directly. */
    const table: seq<Opcode>

    predicate Valid()
    {
      TableOk(table)
    }

    /** The counter starts at the load address cut to 16 bits. */
    constructor (memory: BinaryBuffer)
      ensures this.memory == memory && pc == Wrap16(memory.GetLoadedAddress())
      ensures table == OpcodesTable && Valid()
    {
      OpcodesTableOk();
      this.memory := memory;
      this.table := OpcodesTable;
      pc := Wrap16(memory.GetLoadedAddress());
    }

    /** Sets the counter to `pc` cut to 16 bits; the image is untouched. */
    method SetPc(pc: u32)
      modifies this`pc
      ensures this.pc == Wrap16(pc)
    {
      this.pc := Wrap16(pc);
    }

    /** One fetch-and-decode step: None past the end of the image, otherwise
        the line for the instruction at `pc`, with `pc` moved past it. */
    method DisassembleNext() returns (r: Option<DisassembledLine>)
      requires Valid() && CanDecode(table, memory, pc)
      modifies this`pc
      ensures var d := Decode(table, memory, old(pc));
        if d.Some? then r == Some(d.value.line) && pc == d.value.nextPc
        else r == Option.None && pc == old(pc)
    {
      if pc >= |memory.data| {
        return Option.None;
      }
      var currentAddress: u32 := pc + memory.GetLoadedAddress();
      var fetchedOpcode := memory.ReadByte(pc);
      var opcode := table[fetchedOpcode];
      assert EntryOk(opcode, fetchedOpcode);
      var dasmLine := DisassembledLine.New();

      dasmLine := dasmLine.(address := currentAddress);
      dasmLine := dasmLine.(flags := opcode.flags);

      if Has(opcode.flags, UndocOpcode) {
        dasmLine := dasmLine.(opcode := "???");
        dasmLine := dasmLine.(lineType := UnknownInstruction);
        pc := pc + 1;
        return Some(dasmLine);
      }

      ghost var start := pc;
      assert DocumentedOk(memory, pc, opcode);
      var pcInc := GetPcInc(opcode.addressing);
      dasmLine := dasmLine.(instrSize := pcInc - 1);

      var address: u16 := 0;

      dasmLine := dasmLine.(opcode := opcode.mnemonic);
      dasmLine := dasmLine.(byteCode := dasmLine.byteCode[0 := opcode.opcode]);
      assert dasmLine.operand == "";

      if dasmLine.instrSize != 0 {
        dasmLine, address := DecodeOperand(opcode, dasmLine);
      }

      pc := pc + pcInc;
      if pcInc == 1 {
        InstructionBytesByUpdates(memory, start, pcInc);
      }
      assert dasmLine == DocumentedLine(memory, start, opcode);
      return Some(dasmLine);
    }

    /** The operand part of a decode step for a documented opcode with an
        operand (one or two operand bytes), ending with the reference address,
        which is set unless the mode is Immediate. */
    method DecodeOperand(opcode: Opcode, line: DisassembledLine) returns (line': DisassembledLine, address: u16)
      requires Valid() && DocumentedOk(memory, pc, opcode) && opcode.opcode == memory.data[pc]
      requires GetPcInc(opcode.addressing) >= 2 && line.instrSize == GetPcInc(opcode.addressing) - 1
      requires line.byteCode == DisassembledLine.New().byteCode[0 := opcode.opcode]
      requires line.operand == "" && line.addressRef == 0
      ensures address == OperandValue(memory, pc, opcode)
      ensures line' == line.(
        byteCode := InstructionBytes(memory, pc, GetPcInc(opcode.addressing)),
        operand := OperandText(opcode, address),
        addressRef := if opcode.addressing == AddrImmediate then 0 else address)
    {
      if line.instrSize == 1 {
        line', address := ByteOperand(opcode, line);
      } else {
        line', address := WordOperand(opcode, line);
      }
      if opcode.addressing != AddrImmediate {
        line' := line'.(addressRef := address);
      }
    }

    /** A one-byte operand: the byte itself, or for a branch the target
        computed from the signed offset; a non-negative offset already sets
        the reference address here. */
    method ByteOperand(opcode: Opcode, line: DisassembledLine) returns (line': DisassembledLine, address: u16)
      requires DocumentedOk(memory, pc, opcode) && opcode.opcode == memory.data[pc]
      requires GetPcInc(opcode.addressing) == 2
      requires line.byteCode == DisassembledLine.New().byteCode[0 := opcode.opcode]
      requires line.operand == "" && line.addressRef == 0
      ensures address == OperandValue(memory, pc, opcode)
      ensures line' == line.(
        byteCode := InstructionBytes(memory, pc, 2),
        operand := OperandText(opcode, address),
        addressRef := if opcode.addressing == AddrRelative && memory.ReadSignedByte(pc + 1) >= 0 then address else 0)
    {
      InstructionBytesByUpdates(memory, pc, 2);
      var currentAddress: u32 := pc + memory.GetLoadedAddress();
      line' := line;
      if opcode.addressing != AddrRelative {
        var byte := memory.ReadByte(pc + 1);
        line' := line'.(byteCode := line'.byteCode[1 := byte]);
        address := byte;
      } else {
        var byte := memory.ReadSignedByte(pc + 1);
        line' := line'.(byteCode := line'.byteCode[1 := byte % 256]);
        line', address := BranchTarget(line', currentAddress, byte);
      }
      assert line'.byteCode == InstructionBytes(memory, pc, 2);
      var text := FormatOperand(opcode, address);
      line' := line'.(operand := line'.operand + text);
    }

    /** The target of a branch with signed offset `offset` at `current`,
        cut to 16 bits; only a forward (non-negative) offset sets the
        reference address here. */
    method BranchTarget(line: DisassembledLine, current: u32, offset: int) returns (line': DisassembledLine, address: u16)
      requires -128 <= offset < 128 && RelativeOk(current, offset)
      ensures address == RelativeTarget(current, offset)
      ensures line' == if offset >= 0 then line.(addressRef := address) else line
    {
      line' := line;
      if offset < 0 {
        address := Wrap16(current - Abs(offset) + 2);
      } else {
        address := Wrap16(current + Abs(offset) + 2);
        line' := line'.(addressRef := address);
      }
    }

    /** A two-byte operand: the little-endian word, split back into the raw
        bytes with masks, and for JSR/JMP absolute a SUB__ or JUMP__ marker. */
    method WordOperand(opcode: Opcode, line: DisassembledLine) returns (line': DisassembledLine, address: u16)
      requires DocumentedOk(memory, pc, opcode) && opcode.opcode == memory.data[pc]
      requires GetPcInc(opcode.addressing) == 3
      requires line.byteCode == DisassembledLine.New().byteCode[0 := opcode.opcode]
      requires line.operand == "" && line.addressRef == 0
      ensures address == OperandValue(memory, pc, opcode)
      ensures line' == line.(byteCode := InstructionBytes(memory, pc, 3), operand := OperandText(opcode, address))
    {
      InstructionBytesByUpdates(memory, pc, 3);
      line' := line;
      address := memory.ReadWordLe(pc + 1);
      WordBytes(memory, pc + 1);
      var low := LowByte(address);
      var high := HighByte(address);
      line' := line'.(byteCode := line'.byteCode[1 := low]);
      line' := line'.(byteCode := line'.byteCode[2 := high]);
      var text := FormatOperand(opcode, address);
      line' := line'.(operand := line'.operand + text);
    }
  }

  /** The operand text for `address`: the formatted value, behind a SUB__ or
      JUMP__ marker for JSR/JMP absolute. */
  method FormatOperand(opcode: Opcode, address: u16) returns (text: string)
    requires GetPcInc(opcode.addressing) >= 2
    ensures text == OperandText(opcode, address)
  {
    var formatted := FormatString(opcode.addressing, address);
    if GetPcInc(opcode.addressing) == 3 && (opcode.opcode == 0x20 || opcode.opcode == 0x4C) {
      if Has(opcode.flags, SubroutineOpcode) {
        text := "SUB__" + formatted;
      } else {
        text := "JUMP__" + formatted;
      }
    } else {
      text := formatted;
    }
  }
}
