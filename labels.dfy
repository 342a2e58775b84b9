/**
 * Label generation in pass 1: a map from line address to label name and one
 * counter per kind of label. A line whose own address is already a key gets
 * the stored name; otherwise it gets a fresh name from the counter of its
 * kind, a comment with its reference address, and its address becomes a key.
 */
module Labels {
  import opened Common
  import opened Numerals
  import opened Addressing
  import opened Flags
  import opened Opcodes
  import opened Memory
  import opened LineTypes
  import opened LinearSweep

  /** The label map and the three counters of the orchestrator. */
  datatype LabelState = LabelState(
    labels: map<u32, string>,
    relativeLabelId: nat,
    subroutineLabelId: nat,
    jumpLabelId: nat)

  /** No labels yet, every counter at 0. */
  const Initial: LabelState := LabelState(map[], 0, 0, 0)

  /** Pass 1 labels a line that branches, calls a subroutine, or jumps
      without the INDIRECT flag. No table entry sets that flag, so every jump
      is labelled, the indirect JMP included (see LabelledOpcodes). */
  predicate NeedsLabel(flags: bv32)
  {
    Has(flags, BranchOpcode) || Has(flags, SubroutineOpcode) || (Has(flags, JmpOpcode) && !Has(flags, IndirectFlag))
  }

  /** A five-character prefix followed by the counter, zero-filled to 8 decimal digits. */
  function LabelName(prefix: string, id: nat): string
  {
    prefix + Decimal(id, 8)
  }

  /** The comment of a newly labelled line: its reference address in 4 hex
      digits, then "+" if the reference lies after the line and "-" otherwise. */
  function LabelComment(line: DisassembledLine): string
  {
    "$" + Hex(line.addressRef, 4) + " " + (if line.addressRef > line.address then "+" else "-")
  }

  /** What generate_label does to the state and the line. */
  function LabelStep(st: LabelState, line: DisassembledLine): (LabelState, DisassembledLine)
  {
    if line.address in st.labels then (st, line.(operand := st.labels[line.address]))
    else
      var name :=
        if Has(line.flags, BranchOpcode) then LabelName("LABEL", st.relativeLabelId)
        else if Has(line.flags, SubroutineOpcode) then LabelName("SUBRT", st.subroutineLabelId)
        else LabelName("JUMP_", st.jumpLabelId);
      var st' :=
        if Has(line.flags, BranchOpcode) then st.(relativeLabelId := st.relativeLabelId + 1)
        else if Has(line.flags, SubroutineOpcode) then st.(subroutineLabelId := st.subroutineLabelId + 1)
        else st.(jumpLabelId := st.jumpLabelId + 1);
      (st'.(labels := st.labels[line.address := name]), line.(operand := name, comment := LabelComment(line)))
  }

  /** One line of pass 1: labelled when it needs a label, kept otherwise. */
  function Pass1Step(st: LabelState, line: DisassembledLine): (LabelState, DisassembledLine)
  {
    if NeedsLabel(line.flags) then LabelStep(st, line) else (st, line)
  }

  /** Pass 1 over `lines` in order, from state `st`: the final state and the
      lines as pushed. Each output line is its input line with at most the
      operand and the comment replaced, and a line that needs no label is kept whole. */
  function LabelLines(st: LabelState, lines: seq<DisassembledLine>): (r: (LabelState, seq<DisassembledLine>))
    ensures |r.1| == |lines|
    ensures forall i :: 0 <= i < |lines| ==>
      r.1[i].(operand := lines[i].operand, comment := lines[i].comment) == lines[i]
    ensures forall i :: 0 <= i < |lines| && !NeedsLabel(lines[i].flags) ==> r.1[i] == lines[i]
    decreases |lines|
  {
    if lines == [] then (st, [])
    else
      var prev := LabelLines(st, lines[..|lines| - 1]);
      var step := Pass1Step(prev.0, lines[|lines| - 1]);
      (step.0, prev.1 + [step.1])
  }

  // ---------------------------------------------------------------- lemmas

  /** The opcodes pass 1 labels are exactly the eight branches, JSR and both
      JMPs: the indirect JMP at 0x6C carries no INDIRECT flag, so it is labelled too. */
  lemma LabelledOpcodes(op: byte)
    ensures NeedsLabel(Lookup(op).flags) <==>
      op in {0x10, 0x30, 0x50, 0x70, 0x90, 0xB0, 0xD0, 0xF0, 0x20, 0x4C, 0x6C}
    ensures NeedsLabel(Lookup(0x6C).flags) && Lookup(0x6C).addressing == AddrIndirect
  {
    EntryFacts(op);
    EntryFacts(0x6C);
  }

  /** Pass 1 over one more line is one more step from the state reached so far. */
  lemma LabelLinesSnoc(st: LabelState, lines: seq<DisassembledLine>, line: DisassembledLine)
    ensures var prev := LabelLines(st, lines); var step := Pass1Step(prev.0, line);
      LabelLines(st, lines + [line]) == (step.0, prev.1 + [step.1])
  {
    assert (lines + [line])[..|lines|] == lines;
  }

  /** A line whose address is already a key takes the stored name as its
      operand; the comment, the counters and the map stay as they were. */
  lemma ReuseExisting(st: LabelState, line: DisassembledLine)
    requires line.address in st.labels
    ensures LabelStep(st, line).0 == st
    ensures LabelStep(st, line).1 == line.(operand := st.labels[line.address])
  {
  }

  /** A line whose address is not a key gets the name of its kind from that
      kind's counter (branch before subroutine before jump), exactly that
      counter goes up by one, the map gains its address with the new name,
      and the comment gives the reference address and its direction. */
  lemma FreshLabel(st: LabelState, line: DisassembledLine)
    requires line.address !in st.labels
    ensures var (st', line') := LabelStep(st, line);
      && line' == line.(operand := line'.operand, comment := LabelComment(line))
      && st'.labels == st.labels[line.address := line'.operand]
      && (Has(line.flags, BranchOpcode) ==>
            line'.operand == LabelName("LABEL", st.relativeLabelId)
            && st'.relativeLabelId == st.relativeLabelId + 1
            && st'.subroutineLabelId == st.subroutineLabelId && st'.jumpLabelId == st.jumpLabelId)
      && (!Has(line.flags, BranchOpcode) && Has(line.flags, SubroutineOpcode) ==>
            line'.operand == LabelName("SUBRT", st.subroutineLabelId)
            && st'.subroutineLabelId == st.subroutineLabelId + 1
            && st'.relativeLabelId == st.relativeLabelId && st'.jumpLabelId == st.jumpLabelId)
      && (!Has(line.flags, BranchOpcode) && !Has(line.flags, SubroutineOpcode) ==>
            line'.operand == LabelName("JUMP_", st.jumpLabelId)
            && st'.jumpLabelId == st.jumpLabelId + 1
            && st'.relativeLabelId == st.relativeLabelId && st'.subroutineLabelId == st.subroutineLabelId)
  {
  }

  /** Label names are 13 characters while the counter has at most 8 digits. */
  lemma LabelNameLength(prefix: string, id: nat)
    requires |prefix| == 5 && id < 100_000_000
    ensures |LabelName(prefix, id)| == 13
    ensures ParseDigits(LabelName(prefix, id)[5..], 10) == id
  {
    assert Pow(10, 8) == 100_000_000;
    FormattedWidth(id, 10, 8);
    assert LabelName(prefix, id)[5..] == Decimal(id, 8);
    ParseFormatted(id, 10, 8);
  }

  /** The comment's sign is "+" exactly when the reference address is after the line. */
  lemma CommentSign(line: DisassembledLine)
    requires line.addressRef <= 0xFFFF
    ensures var c := LabelComment(line);
      |c| == 7 && c[0] == '$' && ParseDigits(c[1..5], 16) == line.addressRef && c[5] == ' '
      && (c[6] == '+' <==> line.addressRef > line.address)
      && (c[6] == '-' <==> line.addressRef <= line.address)
  {
    var c := LabelComment(line);
    HexWidth4(line.addressRef);
    assert c[1..5] == Hex(line.addressRef, 4);
    ParseFormatted(line.addressRef, 16, 4);
  }

  /** The map only grows: no key is removed or rebound, and the line's
      address maps to the operand the line ends up with. */
  lemma StepGrowsMap(st: LabelState, line: DisassembledLine)
    ensures var (st', line') := LabelStep(st, line);
      && (forall a :: a in st.labels ==> a in st'.labels && st'.labels[a] == st.labels[a])
      && line.address in st'.labels && st'.labels[line.address] == line'.operand
      && st'.labels.Keys == st.labels.Keys + {line.address}
  {
  }

  /** All keys lie below `bound`. */
  predicate KeysBelow(st: LabelState, bound: int)
  {
    forall a :: a in st.labels ==> a < bound
  }

  /** Pass 1 over lines all below `bound` keeps every key below `bound`. */
  lemma {:induction false} LabelLinesKeysBelow(st: LabelState, lines: seq<DisassembledLine>, bound: int)
    requires KeysBelow(st, bound)
    requires forall i :: 0 <= i < |lines| ==> lines[i].address < bound
    ensures KeysBelow(LabelLines(st, lines).0, bound)
    decreases |lines|
  {
    if lines != [] {
      LabelLinesKeysBelow(st, lines[..|lines| - 1], bound);
    }
  }

  /** Every key ever inserted stays, bound to the same name. */
  lemma {:induction false} LabelLinesGrowsMap(st: LabelState, lines: seq<DisassembledLine>)
    ensures forall a :: a in st.labels ==>
      a in LabelLines(st, lines).0.labels && LabelLines(st, lines).0.labels[a] == st.labels[a]
    decreases |lines|
  {
    if lines != [] {
      var prev := LabelLines(st, lines[..|lines| - 1]);
      LabelLinesGrowsMap(st, lines[..|lines| - 1]);
      StepGrowsMap(prev.0, lines[|lines| - 1]);
    }
  }

  /** After pass 1, the operand of every labelled line is the name the final
      map holds for that line's address. */
  lemma {:induction false} LabelLinesOperandsInMap(st: LabelState, lines: seq<DisassembledLine>)
    ensures var r := LabelLines(st, lines);
      forall i :: 0 <= i < |lines| && NeedsLabel(lines[i].flags) ==>
        lines[i].address in r.0.labels && r.0.labels[lines[i].address] == r.1[i].operand
    decreases |lines|
  {
    if lines != [] {
      var init := lines[..|lines| - 1];
      var last := lines[|lines| - 1];
      var prev := LabelLines(st, init);
      var r := LabelLines(st, lines);
      LabelLinesOperandsInMap(st, init);
      LabelLinesGrowsMap(prev.0, [last]);
      assert LabelLines(prev.0, [last]).0 == r.0 by {
        assert [last][..0] == [];
      }
      StepGrowsMap(prev.0, last);
      forall i | 0 <= i < |lines| && NeedsLabel(lines[i].flags)
        ensures lines[i].address in r.0.labels && r.0.labels[lines[i].address] == r.1[i].operand
      {
        if i < |init| {
          assert lines[i] == init[i] && r.1[i] == prev.1[i];
        }
      }
    }
  }

  /** In pass 1 over lines with strictly increasing addresses, from a state
      whose keys all lie below the first line, no labelled line finds its
      address already in the map: the reuse branch is never taken. */
  lemma IncreasingNeverReuses(st: LabelState, lines: seq<DisassembledLine>)
    requires Increasing(lines)
    requires forall i :: 0 <= i < |lines| ==> KeysBelow(st, lines[i].address)
    ensures forall k :: 0 <= k < |lines| ==> lines[k].address !in LabelLines(st, lines[..k]).0.labels
  {
    forall k | 0 <= k < |lines|
      ensures lines[k].address !in LabelLines(st, lines[..k]).0.labels
    {
      LabelLinesKeysBelow(st, lines[..k], lines[k].address);
    }
  }

  /** The counter that hands out names with `prefix`. */
  function Counter(st: LabelState, prefix: string): nat
  {
    if prefix == "LABEL" then st.relativeLabelId
    else if prefix == "SUBRT" then st.subroutineLabelId
    else st.jumpLabelId
  }

  /** The label names the counters of `st` have handed out so far. */
  predicate Issued(name: string, st: LabelState)
  {
    |name| >= 5 && (name[..5] == "LABEL" || name[..5] == "SUBRT" || name[..5] == "JUMP_") &&
    var id := ParseDigits(name[5..], 10);
    name == LabelName(name[..5], id) && id < Counter(st, name[..5])
  }

  /** Every name in the map was handed out, and no two keys share a name. */
  predicate NamesOk(st: LabelState)
  {
    && (forall a :: a in st.labels ==> Issued(st.labels[a], st))
    && (forall a, b :: a in st.labels && b in st.labels && a != b ==> st.labels[a] != st.labels[b])
  }

  /** A label name splits back into its prefix and its counter value. */
  lemma NameParts(prefix: string, id: nat)
    requires |prefix| == 5
    ensures var n := LabelName(prefix, id);
      |n| >= 5 && n[..5] == prefix && ParseDigits(n[5..], 10) == id
  {
    var n := LabelName(prefix, id);
    assert n[..5] == prefix && n[5..] == Decimal(id, 8);
    ParseFormatted(id, 10, 8);
  }

  /** The name a counter hands out now differs from every name it handed out before. */
  lemma FreshDiffers(name: string, st: LabelState, prefix: string)
    requires Issued(name, st) && |prefix| == 5
    ensures name != LabelName(prefix, Counter(st, prefix))
  {
    NameParts(prefix, Counter(st, prefix));
  }

  /** Once the counter for `prefix` has moved past its old value, the name it
      handed out is issued, and names issued before stay issued. */
  lemma IssuedAfterStep(st: LabelState, st': LabelState, prefix: string, name: string)
    requires prefix == "LABEL" || prefix == "SUBRT" || prefix == "JUMP_"
    requires Counter(st', prefix) == Counter(st, prefix) + 1
    requires forall q :: Counter(st', q) >= Counter(st, q)
    ensures Issued(LabelName(prefix, Counter(st, prefix)), st')
    ensures Issued(name, st) ==> Issued(name, st')
  {
    NameParts(prefix, Counter(st, prefix));
  }

  /** The prefix generate_label chooses for a line with `flags`. */
  function KindPrefix(flags: bv32): (p: string)
    ensures p == "LABEL" || p == "SUBRT" || p == "JUMP_"
  {
    if Has(flags, BranchOpcode) then "LABEL"
    else if Has(flags, SubroutineOpcode) then "SUBRT" else "JUMP_"
  }

  /** A fresh step takes the name from the counter of the line's kind and
      moves only that counter. */
  lemma FreshStepByKind(st: LabelState, line: DisassembledLine)
    requires line.address !in st.labels
    ensures var (st', line') := LabelStep(st, line); var p := KindPrefix(line.flags);
      && line'.operand == LabelName(p, Counter(st, p))
      && st'.labels == st.labels[line.address := line'.operand]
      && Counter(st', p) == Counter(st, p) + 1
      && forall q :: Counter(st', q) >= Counter(st, q)
  {
  }

  /** Binding a new key to a name different from every name already present
      keeps the names distinct. */
  lemma InsertKeepsNamesOk(st: LabelState, st': LabelState, key: u32, name: string)
    requires NamesOk(st) && key !in st.labels && st'.labels == st.labels[key := name]
    requires Issued(name, st')
    requires forall a :: a in st.labels ==> st.labels[a] != name && Issued(st.labels[a], st')
    ensures NamesOk(st')
  {
  }

  /** One labelling step keeps every name in the map distinct. */
  lemma StepKeepsNamesOk(st: LabelState, line: DisassembledLine)
    requires NamesOk(st)
    ensures NamesOk(LabelStep(st, line).0)
  {
    if line.address !in st.labels {
      var r := LabelStep(st, line);
      var p := KindPrefix(line.flags);
      var name := r.1.operand;
      FreshStepByKind(st, line);
      IssuedAfterStep(st, r.0, p, name);
      forall a | a in st.labels
        ensures st.labels[a] != name && Issued(st.labels[a], r.0)
      {
        FreshDiffers(st.labels[a], st, p);
        IssuedAfterStep(st, r.0, p, st.labels[a]);
      }
      InsertKeepsNamesOk(st, r.0, line.address, name);
    }
  }

  /** Pass 1 over any lines, from a state whose names are distinct and issued
      (the initial state included), leaves the names distinct. */
  lemma {:induction false} LabelLinesKeepNamesOk(st: LabelState, lines: seq<DisassembledLine>)
    requires NamesOk(st)
    ensures NamesOk(LabelLines(st, lines).0)
    decreases |lines|
  {
    if lines != [] {
      var prev := LabelLines(st, lines[..|lines| - 1]);
      LabelLinesKeepNamesOk(st, lines[..|lines| - 1]);
      if NeedsLabel(lines[|lines| - 1].flags) {
        StepKeepsNamesOk(prev.0, lines[|lines| - 1]);
      }
    }
  }

  /** Pass 1 of a whole sweep from the initial state: every labelled line
      finds its address absent and so gets a fresh label with a comment, and
      no two labelled lines share a label name. */
  lemma SweepLabelsFresh(table: seq<Opcode>, mem: BinaryBuffer, pc: u16)
    requires TableOk(table) && SweepOk(table, mem, pc)
    ensures var lines := Sweep(table, mem, pc); var r := LabelLines(Initial, lines);
      && (forall k :: 0 <= k < |lines| ==> lines[k].address !in LabelLines(Initial, lines[..k]).0.labels)
      && (forall i, j :: 0 <= i < j < |lines| && NeedsLabel(lines[i].flags) && NeedsLabel(lines[j].flags) ==>
            r.1[i].operand != r.1[j].operand)
  {
    var lines := Sweep(table, mem, pc);
    var r := LabelLines(Initial, lines);
    SweepIncreasing(table, mem, pc);
    IncreasingNeverReuses(Initial, lines);
    LabelLinesOperandsInMap(Initial, lines);
    LabelLinesKeepNamesOk(Initial, lines);
    forall i, j | 0 <= i < j < |lines| && NeedsLabel(lines[i].flags) && NeedsLabel(lines[j].flags)
      ensures r.1[i].operand != r.1[j].operand
    {
      assert lines[i].address < lines[j].address;
    }
  }
}
