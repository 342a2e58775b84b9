/**
 * The linear sweep pass 1 performs: decode at the cursor, move past the
 * instruction, repeat until the decoder reports the end of the image.
 */
module LinearSweep {
  import opened Common
  import opened Flags
  import opened Opcodes
  import opened Memory
  import opened LineTypes
  import opened Decoder

  /** Every decode step of the sweep from `pc` is free of panics. */
  predicate SweepOk(table: seq<Opcode>, mem: BinaryBuffer, pc: u16)
    requires TableOk(table)
    decreases |mem.data| - pc
  {
    CanDecode(table, mem, pc) &&
    (pc < |mem.data| ==> SweepOk(table, mem, Decode(table, mem, pc).value.nextPc))
  }

  /** The lines decoded from `pc` to the end of the image, in decode order. */
  function Sweep(table: seq<Opcode>, mem: BinaryBuffer, pc: u16): (lines: seq<DisassembledLine>)
    requires TableOk(table) && SweepOk(table, mem, pc)
    ensures lines == [] <==> pc >= |mem.data|
    decreases |mem.data| - pc
  {
    if pc >= |mem.data| then []
    else
      var s := Decode(table, mem, pc).value;
      [s.line] + Sweep(table, mem, s.nextPc)
  }

  /** Line addresses strictly increase. */
  predicate Increasing(lines: seq<DisassembledLine>)
  {
    forall i, j :: 0 <= i < j < |lines| ==> lines[i].address < lines[j].address
  }

  // ---------------------------------------------------------------- lemmas

  /** The sweep is one decode step followed by the sweep from the next cursor,
      and it is empty exactly when the cursor is past the image. */
  lemma SweepUnfold(table: seq<Opcode>, mem: BinaryBuffer, pc: u16)
    requires TableOk(table) && SweepOk(table, mem, pc)
    ensures Sweep(table, mem, pc) == [] <==> Decode(table, mem, pc).None?
    ensures Decode(table, mem, pc).Some? ==>
      var s := Decode(table, mem, pc).value;
      SweepOk(table, mem, s.nextPc) && Sweep(table, mem, pc) == [s.line] + Sweep(table, mem, s.nextPc)
  {
  }

  /** Every line of the sweep from `pc` lies at or after the absolute address of `pc`. */
  lemma {:induction false} SweepAddressesFrom(table: seq<Opcode>, mem: BinaryBuffer, pc: u16)
    requires TableOk(table) && SweepOk(table, mem, pc)
    ensures forall i :: 0 <= i < |Sweep(table, mem, pc)| ==> Sweep(table, mem, pc)[i].address >= mem.loadedAddress + pc
    decreases |mem.data| - pc
  {
    if pc < |mem.data| {
      var s := Decode(table, mem, pc).value;
      DecodeAddressAndUndoc(table, mem, pc);
      SweepAddressesFrom(table, mem, s.nextPc);
      var rest := Sweep(table, mem, s.nextPc);
      var lines := Sweep(table, mem, pc);
      assert lines == [s.line] + rest;
      forall i | 0 <= i < |lines|
        ensures lines[i].address >= mem.loadedAddress + pc
      {
        if i > 0 {
          assert lines[i] == rest[i - 1];
        }
      }
    }
  }

  /** Because each decode moves the cursor forward, the sweep's line
      addresses strictly increase. */
  lemma {:induction false} SweepIncreasing(table: seq<Opcode>, mem: BinaryBuffer, pc: u16)
    requires TableOk(table) && SweepOk(table, mem, pc)
    ensures Increasing(Sweep(table, mem, pc))
    decreases |mem.data| - pc
  {
    if pc < |mem.data| {
      var s := Decode(table, mem, pc).value;
      DecodeAddressAndUndoc(table, mem, pc);
      SweepIncreasing(table, mem, s.nextPc);
      SweepAddressesFrom(table, mem, s.nextPc);
      var rest := Sweep(table, mem, s.nextPc);
      var lines := Sweep(table, mem, pc);
      assert lines == [s.line] + rest;
      forall i, j | 0 <= i < j < |lines|
        ensures lines[i].address < lines[j].address
      {
        assert lines[j] == rest[j - 1];
        assert rest[j - 1].address >= mem.loadedAddress + s.nextPc;
        if i > 0 {
          assert lines[i] == rest[i - 1];
        }
      }
    }
  }

  /** Every swept line records at most two operand bytes. */
  lemma {:induction false} SweepInstrSize(table: seq<Opcode>, mem: BinaryBuffer, pc: u16)
    requires TableOk(table) && SweepOk(table, mem, pc)
    ensures forall i :: 0 <= i < |Sweep(table, mem, pc)| ==> Sweep(table, mem, pc)[i].instrSize <= 2
    decreases |mem.data| - pc
  {
    if pc < |mem.data| {
      var s := Decode(table, mem, pc).value;
      DecodeAddressAndUndoc(table, mem, pc);
      if !Has(table[mem.data[pc]].flags, UndocOpcode) {
        DecodeLengthAndBytes(table, mem, pc);
      }
      SweepInstrSize(table, mem, s.nextPc);
      var rest := Sweep(table, mem, s.nextPc);
      var lines := Sweep(table, mem, pc);
      assert lines == [s.line] + rest;
      forall i | 0 <= i < |lines|
        ensures lines[i].instrSize <= 2
      {
        if i > 0 {
          assert lines[i] == rest[i - 1];
        }
      }
    }
  }
}
