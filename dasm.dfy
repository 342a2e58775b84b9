/**
 * The orchestrator: sets the decoder's cursor, runs pass 1 (decode every
 * instruction, label the control-flow ones, collect the lines), runs the
 * empty pass 2, and renders the collected lines.
 */
module Orchestrator {
  import opened Common
  import opened Numerals
  import opened Flags
  import opened Opcodes
  import opened LineTypes
  import opened Decoder
  import Memory
  import opened Mos6510
  import opened LinearSweep
  import opened Labels
  import opened Rendering

  class Dasm {
    const cpu: Cpu6510
    const startPc: u32
    var labelsMap: map<u32, string>
    var lines: seq<DisassembledLine>
    var relativeLabelId: nat
    var subroutineLabelId: nat
    var jumpLabelId: nat

    /** The label map and the counters as one value. */
    function State(): LabelState
      reads this
    {
      LabelState(labelsMap, relativeLabelId, subroutineLabelId, jumpLabelId)
    }

    /** No labels, no lines, every counter at 0. */
    constructor (cpu: Cpu6510, startPc: u32)
      ensures this.cpu == cpu && this.startPc == startPc
      ensures State() == Initial && lines == []
    {
      this.cpu := cpu;
      this.startPc := startPc;
      labelsMap := map[];
      lines := [];
      relativeLabelId := 0;
      jumpLabelId := 0;
      subroutineLabelId := 0;
    }

    /** Sets the cursor, runs both passes, and returns the printed lines. */
    method Run() returns (output: seq<string>)
      requires cpu.Valid() && SweepOk(cpu.table, cpu.memory, Wrap16(startPc)) && Renderable(lines)
      modifies this, cpu`pc
      ensures var r := LabelLines(old(State()), Sweep(cpu.table, cpu.memory, Wrap16(startPc)));
        State() == r.0 && lines == old(lines) + r.1
      ensures Renderable(lines) && output == Render(lines)
    {
      cpu.SetPc(startPc);
      RenderableAfterPass1(cpu.table, cpu.memory, cpu.pc, State(), lines);
      Pass1();
      Pass2();
      output := PrintDasm();
    }

    /** Decodes until the image is exhausted, labelling each line that
        needs a label and appending every line, in decode order. */
    method Pass1()
      requires cpu.Valid() && SweepOk(cpu.table, cpu.memory, cpu.pc)
      modifies this, cpu`pc
      ensures var r := LabelLines(old(State()), Sweep(cpu.table, cpu.memory, old(cpu.pc)));
        State() == r.0 && lines == old(lines) + r.1
    {
      ghost var table, mem, pc0 := cpu.table, cpu.memory, cpu.pc;
      ghost var st0, lines0 := State(), lines;
      ghost var done: seq<DisassembledLine> := [];
      while true
        invariant cpu.Valid() && SweepOk(table, mem, cpu.pc)
        invariant Sweep(table, mem, pc0) == done + Sweep(table, mem, cpu.pc)
        invariant State() == LabelLines(st0, done).0 && lines == lines0 + LabelLines(st0, done).1
        decreases |mem.data| - cpu.pc
      {
        var res := NextLine();
        if res.None? {
          assert done + [] == done;
          return;
        }
        ghost var prev := LabelLines(st0, done);
        LabelLinesSnoc(st0, done, res.value);
        ConcatAssoc(lines0, prev.1, [Pass1Step(prev.0, res.value).1]);
        ConcatAssoc(done, [res.value], Sweep(table, mem, cpu.pc));
        Collect(res.value);
        done := done + [res.value];
      }
    }

    /** One line of pass 1: labelled when its flags call for a label, then appended. */
    method Collect(line: DisassembledLine)
      modifies this`labelsMap, this`relativeLabelId, this`subroutineLabelId, this`jumpLabelId, this`lines
      ensures var step := Pass1Step(old(State()), line);
        State() == step.0 && lines == old(lines) + [step.1]
    {
      var line' := line;
      if NeedsLabel(line.flags) {
        line' := GenerateLabel(line);
      }
      lines := lines + [line'];
    }

    /** The decoder's next line seen through the sweep: None exactly when the
        sweep from the cursor is empty, otherwise its first line, with the
        cursor moved to where the rest of the sweep starts. */
    method NextLine() returns (r: Option<DisassembledLine>)
      requires cpu.Valid() && SweepOk(cpu.table, cpu.memory, cpu.pc)
      modifies cpu`pc
      ensures SweepOk(cpu.table, cpu.memory, cpu.pc)
      ensures r.None? <==> Sweep(cpu.table, cpu.memory, old(cpu.pc)) == []
      ensures r.None? ==> cpu.pc == old(cpu.pc)
      ensures r.Some? ==> Sweep(cpu.table, cpu.memory, old(cpu.pc)) == [r.value] + Sweep(cpu.table, cpu.memory, cpu.pc)
      ensures r.Some? ==> old(cpu.pc) < cpu.pc <= |cpu.memory.data|
    {
      SweepUnfold(cpu.table, cpu.memory, cpu.pc);
      r := cpu.DisassembleNext();
    }

    /** Pass 2 does nothing. */
    method Pass2()
    {
    }

    /** generate_label on `line`: the stored name when the line's address is
        already a key, otherwise a new name from the counter of the line's
        kind, recorded under the line's address, and a comment. */
    method GenerateLabel(line: DisassembledLine) returns (line': DisassembledLine)
      modifies this`labelsMap, this`relativeLabelId, this`subroutineLabelId, this`jumpLabelId
      ensures (State(), line') == LabelStep(old(State()), line)
    {
      if line.address in labelsMap {
        line' := line.(operand := labelsMap[line.address]);
      } else {
        if Has(line.flags, BranchOpcode) {
          line' := line.(operand := LabelName("LABEL", relativeLabelId));
          relativeLabelId := relativeLabelId + 1;
        } else if Has(line.flags, SubroutineOpcode) {
          line' := line.(operand := LabelName("SUBRT", subroutineLabelId));
          subroutineLabelId := subroutineLabelId + 1;
        } else {
          line' := line.(operand := LabelName("JUMP_", jumpLabelId));
          jumpLabelId := jumpLabelId + 1;
        }
        labelsMap := labelsMap[line.address := line'.operand];
        var sign := if line'.addressRef > line'.address then "+" else "-";
        line' := line'.(comment := "$" + Hex(line'.addressRef, 4) + " " + sign);
      }
    }

    /** The text of every collected line, built column by column. */
    method PrintDasm() returns (output: seq<string>)
      requires Renderable(lines)
      ensures output == Render(lines)
    {
      output := [];
      var outputLine := "";
      for n := 0 to |lines|
        invariant Renderable(lines[..n]) && output == Render(lines[..n]) && outputLine == ""
      {
        var line := lines[n];
        ghost var address := Hex(line.address, 4) + "    ";
        outputLine := outputLine + (Hex(line.address, 4) + "    ");
        assert outputLine == address + ByteColumn(line.byteCode, 0);
        for i := 0 to line.instrSize + 1
          invariant outputLine == address + ByteColumn(line.byteCode, i)
        {
          ConcatAssoc(address, ByteColumn(line.byteCode, i), Hex(line.byteCode[i], 2) + " ");
          outputLine := outputLine + (Hex(line.byteCode[i], 2) + " ");
        }
        if line.instrSize == 0 {
          outputLine := outputLine + "      ";
        } else if line.instrSize == 1 {
          outputLine := outputLine + "   ";
        } else {
          assert outputLine == outputLine + Padding(line.instrSize);
        }
        outputLine := outputLine + (line.opcode + " ");
        outputLine := outputLine + (line.operand + " ");
        assert outputLine == Columns(line);
        if |line.comment| > 0 {
          outputLine := outputLine + ("   ; " + line.comment);
        } else {
          assert outputLine == outputLine + CommentColumn(line.comment);
        }
        RenderSnoc(lines, n);
        output := output + [outputLine];
        outputLine := "";
      }
      assert lines[..|lines|] == lines;
    }
  }

  /** Appending the lines of pass 1 over a sweep keeps every line renderable,
      since swept lines have at most two operand bytes. */
  lemma RenderableAfterPass1(table: seq<Opcode>, mem: Memory.BinaryBuffer, pc: u16, st: LabelState, lines: seq<DisassembledLine>)
    requires TableOk(table) && SweepOk(table, mem, pc) && Renderable(lines)
    ensures Renderable(lines + LabelLines(st, Sweep(table, mem, pc)).1)
  {
    var swept := Sweep(table, mem, pc);
    var all := lines + LabelLines(st, swept).1;
    SweepInstrSize(table, mem, pc);
    forall i | 0 <= i < |all|
      ensures all[i].instrSize < 16
    {
      if i >= |lines| {
        assert all[i] == LabelLines(st, swept).1[i - |lines|];
      }
    }
  }

  lemma ConcatAssoc<T>(a: seq<T>, b: seq<T>, c: seq<T>)
    ensures a + (b + c) == (a + b) + c
  {
  }
}
