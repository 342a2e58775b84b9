/**
 * The text print_dasm prints for one line: the address in 4 hex digits, the
 * raw bytes in a 9-column field, the mnemonic, the operand, and a comment
 * column only when there is a comment.
 */
module Rendering {
  import opened Numerals
  import opened LineTypes

  /** The first `n` raw bytes, each as 2 hex digits and a space. */
  function ByteColumn(bytes: ByteCode, n: nat): string
    requires n <= 16
  {
    if n == 0 then "" else ByteColumn(bytes, n - 1) + (Hex(bytes[n - 1], 2) + " ")
  }

  /** The spaces that fill the raw-byte field after one or two bytes; none after three. */
  function Padding(instrSize: nat): string
  {
    if instrSize == 0 then "      " else if instrSize == 1 then "   " else ""
  }

  /** The comment column: empty for an empty comment. */
  function CommentColumn(comment: string): string
  {
    if |comment| > 0 then "   ; " + comment else ""
  }

  /** Everything of a rendered line before the comment column. */
  function Columns(line: DisassembledLine): string
    requires line.instrSize < 16
  {
    (Hex(line.address, 4) + "    ") + ByteColumn(line.byteCode, line.instrSize + 1) + Padding(line.instrSize)
    + (line.opcode + " ") + (line.operand + " ")
  }

  /** The line print_dasm prints for `line`. */
  function RenderLine(line: DisassembledLine): string
    requires line.instrSize < 16
  {
    Columns(line) + CommentColumn(line.comment)
  }

  predicate Renderable(lines: seq<DisassembledLine>)
  {
    forall i :: 0 <= i < |lines| ==> lines[i].instrSize < 16
  }

  /** Every line rendered, in order. */
  function Render(lines: seq<DisassembledLine>): (out: seq<string>)
    requires Renderable(lines)
    ensures |out| == |lines|
  {
    seq(|lines|, i requires 0 <= i < |lines| => RenderLine(lines[i]))
  }

  // ---------------------------------------------------------------- lemmas

  /** Rendering one more line appends its text. */
  lemma RenderSnoc(lines: seq<DisassembledLine>, n: nat)
    requires Renderable(lines) && n < |lines|
    ensures Renderable(lines[..n]) && Renderable(lines[..n + 1])
    ensures Render(lines[..n + 1]) == Render(lines[..n]) + [RenderLine(lines[n])]
  {
    assert lines[..n + 1] == lines[..n] + [lines[n]];
  }

  /** Each byte takes three characters: its two hex digits, then a space. */
  lemma {:induction false} ByteColumnLayout(bytes: ByteCode, n: nat)
    requires n <= 16
    ensures |ByteColumn(bytes, n)| == 3 * n
    ensures forall k :: 0 <= k < n ==>
      ByteColumn(bytes, n)[3 * k..3 * k + 2] == Hex(bytes[k], 2) && ByteColumn(bytes, n)[3 * k + 2] == ' '
  {
    if n > 0 {
      ByteColumnLayout(bytes, n - 1);
      HexWidth2(bytes[n - 1]);
      var c := ByteColumn(bytes, n);
      var p := ByteColumn(bytes, n - 1);
      assert c == p + (Hex(bytes[n - 1], 2) + " ");
      forall k | 0 <= k < n
        ensures c[3 * k..3 * k + 2] == Hex(bytes[k], 2) && c[3 * k + 2] == ' '
      {
        if k < n - 1 {
          assert c[3 * k..3 * k + 2] == p[3 * k..3 * k + 2];
          assert c[3 * k + 2] == p[3 * k + 2];
        } else {
          assert c[3 * k..3 * k + 2] == Hex(bytes[n - 1], 2);
        }
      }
    }
  }

  /** For one to three bytes the raw-byte field is always 9 characters. */
  lemma RawFieldWidth(bytes: ByteCode, instrSize: nat)
    requires instrSize <= 2
    ensures |ByteColumn(bytes, instrSize + 1) + Padding(instrSize)| == 9
  {
    ByteColumnLayout(bytes, instrSize + 1);
  }

  /** The comment column appears exactly when the comment is non-empty, and
      then it is "   ; " and the comment. */
  lemma CommentOnlyWhenPresent(line: DisassembledLine)
    requires line.instrSize < 16
    ensures |RenderLine(line)| == |Columns(line)| <==> line.comment == ""
    ensures line.comment != "" ==> RenderLine(line)[|Columns(line)|..] == "   ; " + line.comment
  {
  }

  /** The column layout of a line of one to three bytes at a 16-bit address:
      the address reads back from the first four characters, four spaces
      follow, the raw-byte field takes the next nine, and the mnemonic starts
      at column 17. */
  lemma LineLayout(line: DisassembledLine)
    requires line.instrSize <= 2 && line.address <= 0xFFFF
    ensures var r := RenderLine(line);
      && |r| >= 17 + |line.opcode|
      && ParseDigits(r[..4], 16) == line.address
      && r[4..8] == "    "
      && r[8..17] == ByteColumn(line.byteCode, line.instrSize + 1) + Padding(line.instrSize)
      && r[17..17 + |line.opcode|] == line.opcode
  {
    var r := RenderLine(line);
    var h := Hex(line.address, 4);
    var raw := ByteColumn(line.byteCode, line.instrSize + 1) + Padding(line.instrSize);
    HexWidth4(line.address);
    RawFieldWidth(line.byteCode, line.instrSize);
    ParseFormatted(line.address, 16, 4);
    var tail := (line.opcode + " ") + (line.operand + " ") + CommentColumn(line.comment);
    assert r == h + "    " + raw + tail;
    assert r[..4] == h;
    assert r[4..8] == "    ";
    assert r[8..17] == raw;
    assert r[17..17 + |line.opcode|] == tail[..|line.opcode|];
  }
}
