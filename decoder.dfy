/**
 * What one fetch-and-decode step of the 6510 produces: the line for the
 * instruction at offset `pc` of the image and the offset after it. This is
 * the specification the imperative decoder in module Mos6510 is proved
 * against.
 */
module Decoder {
  import opened Common
  import opened Numerals
  import opened Addressing
  import opened Flags
  import opened Opcodes
  import opened Memory
  import opened LineTypes

  /** A decoded line and the cursor after it. */
  datatype Step = Step(line: DisassembledLine, nextPc: u16)

  function Abs(x: int): nat
  {
    if x < 0 then -x else x
  }

  /** Truncation to 16 bits (Rust's `as u16`). */
  function Wrap16(x: int): u16
  {
    x % 0x1_0000
  }

  /** The relative-branch arithmetic neither underflows nor overflows a u32, and
      the offset is not -128 (whose absolute value does not fit an i8). */
  predicate RelativeOk(current: int, offset: int)
  {
    if offset < 0 then offset != -128 && current >= Abs(offset) && current - Abs(offset) + 2 <= MaxU32
    else current + offset + 2 <= MaxU32
  }

  /** Decoding at `pc` does not panic: either the image is exhausted, or the
      absolute address fits a u32, the instruction lies inside the image, the
      cursor does not overflow a u16, and a branch's arithmetic is in range. */
  predicate CanDecode(table: seq<Opcode>, mem: BinaryBuffer, pc: u16)
    requires TableOk(table)
  {
    pc >= |mem.data| ||
    (mem.loadedAddress + pc <= MaxU32 &&
     var e := table[mem.data[pc]];
     if Has(e.flags, UndocOpcode) then pc + 1 <= MaxU16
     else
       var n := GetPcInc(e.addressing);
       pc + n <= |mem.data| && pc + n <= MaxU16 &&
       (e.addressing == AddrRelative ==> RelativeOk(mem.loadedAddress + pc, mem.ReadSignedByte(pc + 1))))
  }

  /** The source's branch-target computation: subtract or add the offset's
      absolute value depending on its sign, add 2, keep the low 16 bits. */
  function RelativeTarget(current: u32, offset: int): (t: u16)
    requires -128 <= offset < 128 && RelativeOk(current, offset)
    ensures t == Wrap16(current + 2 + offset)
  {
    if offset < 0 then Wrap16(current - Abs(offset) + 2)
    else Wrap16(current + Abs(offset) + 2)
  }

  /** The operand value the decoder computes (the local `address`): the byte
      operand, the branch target, or the little-endian word; 0 without operand. */
  function OperandValue(mem: BinaryBuffer, pc: u16, e: Opcode): (v: u16)
    requires pc + GetPcInc(e.addressing) <= |mem.data| && pc + GetPcInc(e.addressing) <= MaxU16
    requires e.addressing == AddrRelative ==> RelativeOk(mem.loadedAddress + pc, mem.ReadSignedByte(pc + 1))
    requires mem.loadedAddress + pc <= MaxU32
  {
    var n := GetPcInc(e.addressing);
    if n == 1 then 0
    else if n == 2 then
      if e.addressing == AddrRelative then RelativeTarget(mem.loadedAddress + pc, mem.ReadSignedByte(pc + 1))
      else mem.data[pc + 1]
    else mem.ReadWordLe(pc + 1)
  }

  /** The operand text: empty without operand, the formatted value, or for
      JSR/JMP absolute the formatted value behind a SUB__/JUMP__ marker. */
  function OperandText(e: Opcode, value: u16): string
  {
    var n := GetPcInc(e.addressing);
    if n == 1 then ""
    else if n == 3 && (e.opcode == 0x20 || e.opcode == 0x4C) then
      (if Has(e.flags, SubroutineOpcode) then "SUB__" else "JUMP__") + FormatString(e.addressing, value)
    else FormatString(e.addressing, value)
  }

  /** The raw bytes of an instruction of length `n` at `pc`, zero-filled to 16. */
  function InstructionBytes(mem: BinaryBuffer, pc: u16, n: nat): (b: ByteCode)
    requires 1 <= n <= 3 && pc + n <= |mem.data|
  {
    seq(16, k requires 0 <= k < 16 => if k < n then mem.data[pc + k] else 0)
  }

  /** The raw-byte buffer as the decoder builds it: zeros, then one update per byte. */
  lemma InstructionBytesByUpdates(mem: BinaryBuffer, pc: u16, n: nat)
    requires 1 <= n <= 3 && pc + n <= |mem.data|
    ensures var z := DisassembledLine.New().byteCode[0 := mem.data[pc]];
      && (n == 1 ==> InstructionBytes(mem, pc, n) == z)
      && (n == 2 ==> InstructionBytes(mem, pc, n) == z[1 := mem.data[pc + 1]])
      && (n == 3 ==> InstructionBytes(mem, pc, n) == z[1 := mem.data[pc + 1]][2 := mem.data[pc + 2]])
  {
  }

  /** The line for an undocumented opcode: only address, flags, "???" and its type. */
  function UndocLine(address: u32, e: Opcode): DisassembledLine
  {
    DisassembledLine.New().(address := address, flags := e.flags, lineType := UnknownInstruction, opcode := "???")
  }

  /** The line for a documented opcode `e` at `pc`. */
  function DocumentedLine(mem: BinaryBuffer, pc: u16, e: Opcode): DisassembledLine
    requires pc + GetPcInc(e.addressing) <= |mem.data| && pc + GetPcInc(e.addressing) <= MaxU16
    requires e.addressing == AddrRelative ==> RelativeOk(mem.loadedAddress + pc, mem.ReadSignedByte(pc + 1))
    requires mem.loadedAddress + pc <= MaxU32
  {
    var n := GetPcInc(e.addressing);
    var value := OperandValue(mem, pc, e);
    DisassembledLine.New().(
      address := mem.loadedAddress + pc,
      flags := e.flags,
      instrSize := n - 1,
      byteCode := InstructionBytes(mem, pc, n),
      opcode := e.mnemonic,
      operand := OperandText(e, value),
      addressRef := if n == 1 || e.addressing == AddrImmediate then 0 else value)
  }

  /** One decode step at offset `pc`: None once `pc` is past the image,
      otherwise the line and a cursor strictly further on, still inside the image. */
  function Decode(table: seq<Opcode>, mem: BinaryBuffer, pc: u16): (r: Option<Step>)
    requires TableOk(table) && CanDecode(table, mem, pc)
    ensures r.None? <==> pc >= |mem.data|
    ensures r.Some? ==> pc < r.value.nextPc <= |mem.data|
  {
    if pc >= |mem.data| then Option.None
    else
      var e := table[mem.data[pc]];
      if Has(e.flags, UndocOpcode) then Some(Step(UndocLine(mem.loadedAddress + pc, e), pc + 1))
      else Some(Step(DocumentedLine(mem, pc, e), pc + GetPcInc(e.addressing)))
  }

  // ---------------------------------------------------------------- lemmas

  /** Every decoded line carries the absolute address `loaded + pc` and the
      table entry's flags; an undocumented opcode yields a one-byte "???" line
      of unknown type with no raw bytes, operand or reference. */
  lemma DecodeAddressAndUndoc(table: seq<Opcode>, mem: BinaryBuffer, pc: u16)
    requires TableOk(table) && CanDecode(table, mem, pc) && pc < |mem.data|
    ensures var s := Decode(table, mem, pc).value; var e := table[mem.data[pc]];
      && s.line.address == mem.loadedAddress + pc
      && s.line.flags == e.flags
      && (Has(e.flags, UndocOpcode) <==> s.line.lineType == UnknownInstruction)
      && (Has(e.flags, UndocOpcode) ==>
            s.line.opcode == "???" && s.line.instrSize == 0 && s.nextPc == pc + 1
            && s.line.operand == "" && s.line.addressRef == 0 && s.line.byteCode[0] == 0)
  {
  }

  /** The preconditions of DocumentedLine, which CanDecode supplies for a documented opcode. */
  predicate DocumentedOk(mem: BinaryBuffer, pc: u16, e: Opcode)
  {
    && pc + GetPcInc(e.addressing) <= |mem.data| && pc + GetPcInc(e.addressing) <= MaxU16
    && (e.addressing == AddrRelative ==> RelativeOk(mem.loadedAddress + pc, mem.ReadSignedByte(pc + 1)))
    && mem.loadedAddress + pc <= MaxU32
  }

  /** Decoding a documented opcode is DocumentedLine for its table entry. */
  lemma DecodeDocumented(table: seq<Opcode>, mem: BinaryBuffer, pc: u16)
    requires TableOk(table) && CanDecode(table, mem, pc) && pc < |mem.data|
    requires !Has(table[mem.data[pc]].flags, UndocOpcode)
    ensures DocumentedOk(mem, pc, table[mem.data[pc]])
    ensures Decode(table, mem, pc).value == Step(DocumentedLine(mem, pc, table[mem.data[pc]]), pc + GetPcInc(table[mem.data[pc]].addressing))
  {
  }

  lemma LengthAndBytes(mem: BinaryBuffer, pc: u16, e: Opcode)
    requires DocumentedOk(mem, pc, e)
    ensures var l := DocumentedLine(mem, pc, e); var n := GetPcInc(e.addressing);
      && l.instrSize == n - 1 && l.opcode == e.mnemonic
      && l.byteCode[..n] == mem.data[pc..pc + n]
      && (forall k :: n <= k < 16 ==> l.byteCode[k] == 0)
  {
    var l := DocumentedLine(mem, pc, e);
    var n := GetPcInc(e.addressing);
    assert forall k :: 0 <= k < n ==> l.byteCode[..n][k] == mem.data[pc..pc + n][k];
  }

  /** A documented opcode advances the cursor by its mode's length, records
      one less as `instr_size`, and copies exactly those bytes of the image into
      the raw-byte buffer, the rest staying zero. */
  lemma DecodeLengthAndBytes(table: seq<Opcode>, mem: BinaryBuffer, pc: u16)
    requires TableOk(table) && CanDecode(table, mem, pc) && pc < |mem.data|
    requires !Has(table[mem.data[pc]].flags, UndocOpcode)
    ensures var s := Decode(table, mem, pc).value; var e := table[mem.data[pc]]; var n := GetPcInc(e.addressing);
      && s.nextPc == pc + n
      && s.line.instrSize == n - 1
      && s.line.opcode == e.mnemonic
      && s.line.byteCode[..n] == mem.data[pc..pc + n]
      && (forall k :: n <= k < 16 ==> s.line.byteCode[k] == 0)
  {
    DecodeDocumented(table, mem, pc);
    LengthAndBytes(mem, pc, table[mem.data[pc]]);
  }

  lemma WordOperand(mem: BinaryBuffer, pc: u16, e: Opcode)
    requires DocumentedOk(mem, pc, e) && GetPcInc(e.addressing) == 3
    ensures var l := DocumentedLine(mem, pc, e);
      && l.addressRef == l.byteCode[1] as int + 256 * (l.byteCode[2] as int)
      && (e.opcode != 0x20 && e.opcode != 0x4C ==> l.operand == FormatString(e.addressing, l.addressRef))
      && (e.addressing == AddrAbsolute && e.opcode != 0x20 && e.opcode != 0x4C ==>
            |l.operand| == 5 && l.operand[0] == '$' && ParseDigits(l.operand[1..], 16) == l.addressRef)
  {
    var l := DocumentedLine(mem, pc, e);
    assert l.addressRef == mem.ReadWordLe(pc + 1);
    if e.addressing == AddrAbsolute && e.opcode != 0x20 && e.opcode != 0x4C {
      assert l.operand == FormatString(AddrAbsolute, l.addressRef);
      WordShapes(l.addressRef);
      AbsoluteRoundTrip(l.addressRef);
    }
  }

  /** A three-byte instruction's operand is the little-endian word of its two
      operand bytes; apart from JSR and JMP absolute its text is exactly the
      mode's rendering of that word, which for Absolute is `$` and four hex
      digits that read back to the reference address. */
  lemma DecodeWordOperand(table: seq<Opcode>, mem: BinaryBuffer, pc: u16)
    requires TableOk(table) && CanDecode(table, mem, pc) && pc < |mem.data|
    requires var e := table[mem.data[pc]]; !Has(e.flags, UndocOpcode) && GetPcInc(e.addressing) == 3
    ensures var l := Decode(table, mem, pc).value.line; var e := table[mem.data[pc]];
      && l.addressRef == l.byteCode[1] as int + 256 * (l.byteCode[2] as int)
      && (mem.data[pc] != 0x20 && mem.data[pc] != 0x4C ==> l.operand == FormatString(e.addressing, l.addressRef))
      && (e.addressing == AddrAbsolute && mem.data[pc] != 0x20 && mem.data[pc] != 0x4C ==>
            |l.operand| == 5 && l.operand[0] == '$' && ParseDigits(l.operand[1..], 16) == l.addressRef)
  {
    assert EntryOk(table[mem.data[pc]], mem.data[pc]);
    DecodeDocumented(table, mem, pc);
    WordOperand(mem, pc, table[mem.data[pc]]);
  }

  /** JSR and JMP absolute are rendered behind a marker that says which of
      the two they are. */
  lemma DecodeJumpMarkers(table: seq<Opcode>, mem: BinaryBuffer, pc: u16)
    requires TableOk(table) && CanDecode(table, mem, pc) && pc < |mem.data|
    requires mem.data[pc] == 0x20 || mem.data[pc] == 0x4C
    ensures var l := Decode(table, mem, pc).value.line; var t := FormatString(AddrAbsolute, l.addressRef);
      (mem.data[pc] == 0x20 ==> l.operand == "SUB__" + t) &&
      (mem.data[pc] == 0x4C ==> l.operand == "JUMP__" + t)
  {
    var e := table[mem.data[pc]];
    assert EntryOk(e, mem.data[pc]);
    assert e.addressing == AddrAbsolute && !Has(e.flags, UndocOpcode);
    DecodeDocumented(table, mem, pc);
    var l := DocumentedLine(mem, pc, e);
    assert l.operand == OperandText(e, l.addressRef);
  }

  lemma AddressRef(mem: BinaryBuffer, pc: u16, e: Opcode)
    requires DocumentedOk(mem, pc, e)
    ensures var l := DocumentedLine(mem, pc, e);
      && (GetPcInc(e.addressing) == 1 || e.addressing == AddrImmediate ==> l.addressRef == 0)
      && (e.addressing == AddrRelative ==>
            l.addressRef == Wrap16(l.address + 2 + mem.ReadSignedByte(pc + 1)))
      && (GetPcInc(e.addressing) == 2 && e.addressing != AddrImmediate && e.addressing != AddrRelative ==>
            l.addressRef == mem.data[pc + 1])
  {
    var l := DocumentedLine(mem, pc, e);
    var n := GetPcInc(e.addressing);
    PcIncGroups(e.addressing);
    if n == 2 && e.addressing != AddrImmediate {
      assert l.addressRef == OperandValue(mem, pc, e);
    }
  }

  /** The reference address: 0 for undocumented opcodes, lines without an
      operand and Immediate; otherwise the operand value, the branch target
      included whatever the sign of its offset. */
  lemma DecodeAddressRef(table: seq<Opcode>, mem: BinaryBuffer, pc: u16)
    requires TableOk(table) && CanDecode(table, mem, pc) && pc < |mem.data|
    ensures var l := Decode(table, mem, pc).value.line; var e := table[mem.data[pc]];
      Has(e.flags, UndocOpcode) || GetPcInc(e.addressing) == 1 || e.addressing == AddrImmediate ==> l.addressRef == 0
    ensures var l := Decode(table, mem, pc).value.line; var e := table[mem.data[pc]];
      !Has(e.flags, UndocOpcode) && e.addressing == AddrRelative ==>
        l.addressRef == Wrap16(l.address + 2 + mem.ReadSignedByte(pc + 1))
    ensures var l := Decode(table, mem, pc).value.line; var e := table[mem.data[pc]];
      !Has(e.flags, UndocOpcode) && GetPcInc(e.addressing) == 2 && e.addressing != AddrImmediate && e.addressing != AddrRelative ==>
        l.addressRef == mem.data[pc + 1]
  {
    var e := table[mem.data[pc]];
    if Has(e.flags, UndocOpcode) {
      assert Decode(table, mem, pc).value.line == UndocLine(mem.loadedAddress + pc, e);
    } else {
      DecodeDocumented(table, mem, pc);
      var l := DocumentedLine(mem, pc, e);
      AddressRef(mem, pc, e);
      assert Decode(table, mem, pc).value.line == l;
    }
  }

  lemma OperandTextFacts(mem: BinaryBuffer, pc: u16, e: Opcode)
    requires DocumentedOk(mem, pc, e)
    ensures var l := DocumentedLine(mem, pc, e);
      && (l.operand == "" <==> GetPcInc(e.addressing) == 1)
      && (GetPcInc(e.addressing) == 2 ==>
            l.operand == FormatString(e.addressing, if e.addressing == AddrRelative then l.addressRef else mem.data[pc + 1]))
  {
    EmptyIffNoOperand(e.addressing, OperandValue(mem, pc, e));
  }

  /** Without an operand the operand text is empty, and only then; with a
      byte operand it is the formatted byte value or branch target. */
  lemma DecodeOperandText(table: seq<Opcode>, mem: BinaryBuffer, pc: u16)
    requires TableOk(table) && CanDecode(table, mem, pc) && pc < |mem.data|
    requires !Has(table[mem.data[pc]].flags, UndocOpcode)
    ensures var l := Decode(table, mem, pc).value.line; var e := table[mem.data[pc]];
      && (l.operand == "" <==> GetPcInc(e.addressing) == 1)
      && (GetPcInc(e.addressing) == 2 ==>
            l.operand == FormatString(e.addressing, if e.addressing == AddrRelative then l.addressRef else mem.data[pc + 1]))
  {
    DecodeDocumented(table, mem, pc);
    OperandTextFacts(mem, pc, table[mem.data[pc]]);
  }

  /** At 0x0600, BNE with offset 0x05 targets 0x0607 and is two bytes long. */
  lemma ForwardBranchExample()
    ensures TableOk(OpcodesTable)
    ensures var m := BinaryBuffer.New([0xD0, 0x05], 0x0600);
      CanDecode(OpcodesTable, m, 0) && Decode(OpcodesTable, m, 0).value.line.addressRef == 0x0607
      && Decode(OpcodesTable, m, 0).value.nextPc == 2
  {
    OpcodesTableOk();
    var m := BinaryBuffer.New([0xD0, 0x05], 0x0600);
    assert m.data[0] == 0xD0 && m.data[1] == 0x05;
    assert OpcodesTable[0xD0] == Opcode(0xD0, AddrRelative, "BNE", ValidOpcode | BranchOpcode);
    assert m.ReadSignedByte(1) == 5;
    assert CanDecode(OpcodesTable, m, 0);
    DecodeDocumented(OpcodesTable, m, 0);
    DecodeAddressRef(OpcodesTable, m, 0);
  }

  /** At 0x0600, BNE with offset 0xFB (-5) targets 0x05FD. */
  lemma BackwardBranchExample()
    ensures TableOk(OpcodesTable)
    ensures var m := BinaryBuffer.New([0xD0, 0xFB], 0x0600);
      CanDecode(OpcodesTable, m, 0) && Decode(OpcodesTable, m, 0).value.line.addressRef == 0x05FD
  {
    OpcodesTableOk();
    var m := BinaryBuffer.New([0xD0, 0xFB], 0x0600);
    assert m.data[0] == 0xD0 && m.data[1] == 0xFB;
    assert OpcodesTable[0xD0] == Opcode(0xD0, AddrRelative, "BNE", ValidOpcode | BranchOpcode);
    assert m.ReadSignedByte(1) == -5;
    assert CanDecode(OpcodesTable, m, 0);
    DecodeDocumented(OpcodesTable, m, 0);
    DecodeAddressRef(OpcodesTable, m, 0);
  }

}
