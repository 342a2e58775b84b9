# A verified model of the dasm MOS 6510 disassembler

`dasm` turns a binary image of MOS 6502/6510 machine code, loaded at some
address, into assembly text. It decodes one instruction after another from a
start address (a linear sweep), gives every branch, subroutine call and
jump a generated label (the indirect JMP included, since no table entry sets
the INDIRECT flag that would exempt it), and prints one line per instruction: the
address, the raw bytes, the mnemonic, the operand and an optional comment.
A separate scanner lists the runs of printable bytes in an image.

This project models that core in Dafny and proves what it promises:

- **Addressing** (`addressing.dfy`): the 13 addressing modes, the length of an
  instruction in each (`GetPcInc`) and the operand text (`FormatString`),
  with Rust's `{:02X}`/`{:04X}` formatting modelled in `numerals.dfy`.
- **Flags** (`flags.dfy`): the classification bitmask constants.
- **Opcodes** (`opcodes.dfy`): the 256-entry opcode table transcribed entry
  for entry, quirks included, with its classification rules proved for every
  entry.
- **Memory** (`memory.dfy`): the read-only image with its load address and
  its byte, signed-byte and word reads; the bitwise operations the word reads
  use are defined bit by bit on naturals in `bits.dfy`.
- **Decoder** (`decoder.dfy`, `cpu.dfy`): `Decoder.Decode` specifies one
  fetch-and-decode step as a function; the class `Mos6510.Cpu6510` holds the
  16-bit program counter and its method `DisassembleNext` fills in the line
  field by field, as the source does, and is proved equal to `Decode`.
- **Orchestrator** (`sweep.dfy`, `labels.dfy`, `render.dfy`, `dasm.dfy`):
  `LinearSweep.Sweep`, `Labels.LabelLines` and `Rendering.Render` specify
  pass 1, label generation and printing; the class `Orchestrator.Dasm` holds
  the label map, the collected lines and the three label counters, and its
  methods `Run`, `Pass1`, `GenerateLabel` and `PrintDasm` are proved against
  those functions.
- **ASCII runs** (`ascii.dfy`): `Utils.ExtractAsciiReferences`, the one-pass
  scanner, proved equal to the specification `Utils.Expected`, with the
  shape of every reported run proved about `Expected`.

The label map is keyed by the address of the labelled line itself, not by
the address it refers to. The model keeps that key. A consequence, proved as
`Labels.SweepLabelsFresh`: within one sweep from the initial state, line
addresses strictly increase, so no labelled line ever finds its address in
the map. Every labelled line gets a fresh name and a comment, and no two
labelled lines share a name. So the reuse branch of label generation is
never taken, and two branches to the same target get different labels.

Where the code and its accompanying description disagree, the model follows
the code:

- The decoder shown returns a line unconditionally, but the trait in
  `src/disassembler.rs` and the loop in `pass1` expect an optional line. The
  model returns `None` once the cursor is past the image.
- The decoder imports its table from a module `opcodes6510`, which is not part
  of this model. The model uses the table of `src/cpus/mos65xx.rs:50-323`,
  whose `Opcode` record has no opcode-byte field. The model stores each
  entry's index as its opcode byte, which the decoder copies into the raw
  bytes.
- A line of an undocumented opcode leaves its first raw byte at 0, because
  the decoder returns before storing the opcode byte. The model keeps this.

## Model

| member | source | states |
|---|---|---|
| Addressing.GetPcInc | src/cpus/mos6510/addressing.rs:38-51 | every mode has an instruction length between 1 and 3 |
| Addressing.PcIncGroups | src/cpus/mos6510/addressing.rs:38-51 | length 1 exactly for Implied/Accumulator; 2 exactly for Immediate, the zero-page forms, IndirectX/Y and Relative; 3 exactly for Absolute(X/Y) and Indirect |
| Addressing.EmptyIffNoOperand | src/cpus/mos6510/addressing.rs:20-23 | the operand text is empty exactly for the operand-less modes, whatever the value |
| Addressing.ImmediateShape | src/cpus/mos6510/addressing.rs:24 | Immediate is `#$` and at least two hex digits, exactly two for a byte value |
| Addressing.ZeroPageShapes | src/cpus/mos6510/addressing.rs:25-32 | for a byte value the zero-page and indexed-indirect forms are two hex digits with `$`, `,X`, `,Y`, `($..,X)` and `($..),Y` around them |
| Addressing.WordShapes | src/cpus/mos6510/addressing.rs:28-34 | Absolute and Relative print the same `$hhhh` of exactly four digits; Indirect wraps it in parentheses, AbsoluteX/Y append `,X`/`,Y` |
| Addressing.AbsoluteRoundTrip | src/cpus/mos6510/addressing.rs:28 | the four digits of the Absolute text read back as the value, for every 16-bit value |
| Addressing.FormatShape | src/cpus/mos6510/addressing.rs:24-34 | every operand text is a mode prefix, the zero-filled hex value and a mode suffix |
| Addressing.Decorations | src/cpus/mos6510/addressing.rs:24-34 | the decorations around the digits contain no hex digit |
| Addressing.CountDecorated | src/cpus/mos6510/addressing.rs:24-34 | a decorated numeral has exactly as many hex digits as the numeral |
| Addressing.OperandDigitsMatchLength | src/cpus/mos6510/addressing.rs:20-51 | for a byte operand the text shows two hex digits per operand byte, except Relative, which shows a four-digit target |
| Numerals.DigitChar | src/cpus/mos6510/addressing.rs:24-34 | the character printed for a digit is a digit of every larger base and reads back as that digit |
| Numerals.ToDigitsFacts | src/cpus/mos6510/addressing.rs:24-34 | the shortest numeral is non-empty, all digits, and starts with '0' only for zero |
| Numerals.PadZeroFacts | src/disassembler/dasm.rs:75 | zero fill reaches the width, never truncates, and keeps the numeral as the suffix behind '0's |
| Numerals.ParseToDigits | src/cpus/mos6510/addressing.rs:24-34 | the shortest numeral reads back as its value |
| Numerals.ParseZeros | src/cpus/mos6510/addressing.rs:24-34 | a string of '0's reads as zero |
| Numerals.ParseZerosPrefix | src/cpus/mos6510/addressing.rs:24-34 | leading zeros do not change the value of a numeral |
| Numerals.ParseFormatted | src/cpus/mos6510/addressing.rs:24-34 | a zero-filled numeral reads back as the printed value |
| Numerals.FormattedInjective | src/disassembler/dasm.rs:74-83 | distinct values print as distinct numerals at a fixed base and width |
| Numerals.ToDigitsLength | src/cpus/mos6510/addressing.rs:24-34 | a value below base^k has at most k digits |
| Numerals.FormattedWidth | src/cpus/mos6510/addressing.rs:24-34 | a value below base^w prints in exactly w characters |
| Numerals.FormattedAllDigits | src/cpus/mos6510/addressing.rs:24-34 | a zero-filled numeral consists of digits and is at least as wide as asked |
| Numerals.HexWidth2 | src/cpus/mos6510/addressing.rs:24-27 | `{:02X}` of a byte is exactly two hex digits |
| Numerals.HexWidth4 | src/cpus/mos6510/addressing.rs:28-30 | `{:04X}` of a 16-bit value is exactly four hex digits |
| Numerals.CountDigitsAppend | src/cpus/mos6510/addressing.rs:24-34 | digit counts add up over concatenation |
| Numerals.CountAllDigits | src/cpus/mos6510/addressing.rs:24-34 | a string of digits counts its length |
| Numerals.CountFormatted | src/cpus/mos6510/addressing.rs:24-34 | a numeral's digit count is its length |
| Numerals.CountNoDigits | src/cpus/mos6510/addressing.rs:24-34 | text without digit characters counts zero digits |
| Flags.FlagValues | src/disassembler.rs:9-19 | UNINITIALIZED is 0 and the ten flags are 1, 4, 8, ..., 1024 in order |
| Flags.SingleBits | src/disassembler.rs:10-19 | each flag is a single bit, and bit value 2 belongs to none |
| Flags.UnionTest | src/disassembler.rs:10-19 | distinct flags are disjoint, and a flag tests non-zero against the union of two flags exactly when it is one of them |
| Opcodes.Lookup | src/cpus/mos65xx.rs:50-323 | the entry for an opcode byte describes that byte |
| Opcodes.Row0Flags | src/cpus/mos65xx.rs:51-66 | every entry of the 0x00-0x0F row satisfies the flag rules for its index: one class, BRANCH/SUBROUTINE/JMP/INVALID exactly at their opcodes, control flow only with VALID, no reserved bit |
| Opcodes.Row0Shape | src/cpus/mos65xx.rs:51-66 | every entry of the 0x00-0x0F row has its index as opcode byte, a 3-letter mnemonic, Relative mode iff BRANCH, JAM only as Implied UNDOC, and the JSR/JMP modes |
| Opcodes.Row1Flags | src/cpus/mos65xx.rs:68-83 | every entry of the 0x10-0x1F row satisfies the flag rules for its index: one class, BRANCH/SUBROUTINE/JMP/INVALID exactly at their opcodes, control flow only with VALID, no reserved bit |
| Opcodes.Row1Shape | src/cpus/mos65xx.rs:68-83 | every entry of the 0x10-0x1F row has its index as opcode byte, a 3-letter mnemonic, Relative mode iff BRANCH, JAM only as Implied UNDOC, and the JSR/JMP modes |
| Opcodes.Row2Flags | src/cpus/mos65xx.rs:85-100 | every entry of the 0x20-0x2F row satisfies the flag rules for its index: one class, BRANCH/SUBROUTINE/JMP/INVALID exactly at their opcodes, control flow only with VALID, no reserved bit |
| Opcodes.Row2Shape | src/cpus/mos65xx.rs:85-100 | every entry of the 0x20-0x2F row has its index as opcode byte, a 3-letter mnemonic, Relative mode iff BRANCH, JAM only as Implied UNDOC, and the JSR/JMP modes |
| Opcodes.Row3Flags | src/cpus/mos65xx.rs:102-117 | every entry of the 0x30-0x3F row satisfies the flag rules for its index: one class, BRANCH/SUBROUTINE/JMP/INVALID exactly at their opcodes, control flow only with VALID, no reserved bit |
| Opcodes.Row3Shape | src/cpus/mos65xx.rs:102-117 | every entry of the 0x30-0x3F row has its index as opcode byte, a 3-letter mnemonic, Relative mode iff BRANCH, JAM only as Implied UNDOC, and the JSR/JMP modes |
| Opcodes.Row4Flags | src/cpus/mos65xx.rs:119-134 | every entry of the 0x40-0x4F row satisfies the flag rules for its index: one class, BRANCH/SUBROUTINE/JMP/INVALID exactly at their opcodes, control flow only with VALID, no reserved bit |
| Opcodes.Row4Shape | src/cpus/mos65xx.rs:119-134 | every entry of the 0x40-0x4F row has its index as opcode byte, a 3-letter mnemonic, Relative mode iff BRANCH, JAM only as Implied UNDOC, and the JSR/JMP modes |
| Opcodes.Row5Flags | src/cpus/mos65xx.rs:136-151 | every entry of the 0x50-0x5F row satisfies the flag rules for its index: one class, BRANCH/SUBROUTINE/JMP/INVALID exactly at their opcodes, control flow only with VALID, no reserved bit |
| Opcodes.Row5Shape | src/cpus/mos65xx.rs:136-151 | every entry of the 0x50-0x5F row has its index as opcode byte, a 3-letter mnemonic, Relative mode iff BRANCH, JAM only as Implied UNDOC, and the JSR/JMP modes |
| Opcodes.Row6Flags | src/cpus/mos65xx.rs:153-168 | every entry of the 0x60-0x6F row satisfies the flag rules for its index: one class, BRANCH/SUBROUTINE/JMP/INVALID exactly at their opcodes, control flow only with VALID, no reserved bit |
| Opcodes.Row6Shape | src/cpus/mos65xx.rs:153-168 | every entry of the 0x60-0x6F row has its index as opcode byte, a 3-letter mnemonic, Relative mode iff BRANCH, JAM only as Implied UNDOC, and the JSR/JMP modes |
| Opcodes.Row7Flags | src/cpus/mos65xx.rs:170-185 | every entry of the 0x70-0x7F row satisfies the flag rules for its index: one class, BRANCH/SUBROUTINE/JMP/INVALID exactly at their opcodes, control flow only with VALID, no reserved bit |
| Opcodes.Row7Shape | src/cpus/mos65xx.rs:170-185 | every entry of the 0x70-0x7F row has its index as opcode byte, a 3-letter mnemonic, Relative mode iff BRANCH, JAM only as Implied UNDOC, and the JSR/JMP modes |
| Opcodes.Row8Flags | src/cpus/mos65xx.rs:187-202 | every entry of the 0x80-0x8F row satisfies the flag rules for its index: one class, BRANCH/SUBROUTINE/JMP/INVALID exactly at their opcodes, control flow only with VALID, no reserved bit |
| Opcodes.Row8Shape | src/cpus/mos65xx.rs:187-202 | every entry of the 0x80-0x8F row has its index as opcode byte, a 3-letter mnemonic, Relative mode iff BRANCH, JAM only as Implied UNDOC, and the JSR/JMP modes |
| Opcodes.Row9Flags | src/cpus/mos65xx.rs:204-219 | every entry of the 0x90-0x9F row satisfies the flag rules for its index: one class, BRANCH/SUBROUTINE/JMP/INVALID exactly at their opcodes, control flow only with VALID, no reserved bit |
| Opcodes.Row9Shape | src/cpus/mos65xx.rs:204-219 | every entry of the 0x90-0x9F row has its index as opcode byte, a 3-letter mnemonic, Relative mode iff BRANCH, JAM only as Implied UNDOC, and the JSR/JMP modes |
| Opcodes.RowAFlags | src/cpus/mos65xx.rs:221-236 | every entry of the 0xA0-0xAF row satisfies the flag rules for its index: one class, BRANCH/SUBROUTINE/JMP/INVALID exactly at their opcodes, control flow only with VALID, no reserved bit |
| Opcodes.RowAShape | src/cpus/mos65xx.rs:221-236 | every entry of the 0xA0-0xAF row has its index as opcode byte, a 3-letter mnemonic, Relative mode iff BRANCH, JAM only as Implied UNDOC, and the JSR/JMP modes |
| Opcodes.RowBFlags | src/cpus/mos65xx.rs:238-253 | every entry of the 0xB0-0xBF row satisfies the flag rules for its index: one class, BRANCH/SUBROUTINE/JMP/INVALID exactly at their opcodes, control flow only with VALID, no reserved bit |
| Opcodes.RowBShape | src/cpus/mos65xx.rs:238-253 | every entry of the 0xB0-0xBF row has its index as opcode byte, a 3-letter mnemonic, Relative mode iff BRANCH, JAM only as Implied UNDOC, and the JSR/JMP modes |
| Opcodes.RowCFlags | src/cpus/mos65xx.rs:255-270 | every entry of the 0xC0-0xCF row satisfies the flag rules for its index: one class, BRANCH/SUBROUTINE/JMP/INVALID exactly at their opcodes, control flow only with VALID, no reserved bit |
| Opcodes.RowCShape | src/cpus/mos65xx.rs:255-270 | every entry of the 0xC0-0xCF row has its index as opcode byte, a 3-letter mnemonic, Relative mode iff BRANCH, JAM only as Implied UNDOC, and the JSR/JMP modes |
| Opcodes.RowDFlags | src/cpus/mos65xx.rs:272-287 | every entry of the 0xD0-0xDF row satisfies the flag rules for its index: one class, BRANCH/SUBROUTINE/JMP/INVALID exactly at their opcodes, control flow only with VALID, no reserved bit |
| Opcodes.RowDShape | src/cpus/mos65xx.rs:272-287 | every entry of the 0xD0-0xDF row has its index as opcode byte, a 3-letter mnemonic, Relative mode iff BRANCH, JAM only as Implied UNDOC, and the JSR/JMP modes |
| Opcodes.RowEFlags | src/cpus/mos65xx.rs:289-304 | every entry of the 0xE0-0xEF row satisfies the flag rules for its index: one class, BRANCH/SUBROUTINE/JMP/INVALID exactly at their opcodes, control flow only with VALID, no reserved bit |
| Opcodes.RowEShape | src/cpus/mos65xx.rs:289-304 | every entry of the 0xE0-0xEF row has its index as opcode byte, a 3-letter mnemonic, Relative mode iff BRANCH, JAM only as Implied UNDOC, and the JSR/JMP modes |
| Opcodes.RowFFlags | src/cpus/mos65xx.rs:306-321 | every entry of the 0xF0-0xFF row satisfies the flag rules for its index: one class, BRANCH/SUBROUTINE/JMP/INVALID exactly at their opcodes, control flow only with VALID, no reserved bit |
| Opcodes.RowFShape | src/cpus/mos65xx.rs:306-321 | every entry of the 0xF0-0xFF row has its index as opcode byte, a 3-letter mnemonic, Relative mode iff BRANCH, JAM only as Implied UNDOC, and the JSR/JMP modes |
| Opcodes.EntryFacts | src/cpus/mos65xx.rs:50-323 | the table has 16 rows of 16, and every entry satisfies the flag and shape rules for its index |
| Opcodes.ClassExactlyOne | src/cpus/mos65xx.rs:51-321 | every entry carries exactly one of VALID, UNDOC and INVALID, and INVALID exactly at 0x80 |
| Opcodes.BranchIffRelative | src/cpus/mos65xx.rs:68-306 | BRANCH is set exactly on the Relative entries, which are exactly 0x10, 0x30, ..., 0xF0 |
| Opcodes.SubroutineOnlyJsr | src/cpus/mos65xx.rs:85 | SUBROUTINE is set exactly on 0x20, JSR Absolute |
| Opcodes.JmpOnly | src/cpus/mos65xx.rs:131-165 | JMP is set exactly on 0x4C (Absolute) and 0x6C (Indirect) |
| Opcodes.ControlFlowIsValid | src/cpus/mos65xx.rs:68-321 | control-flow flags occur only with VALID and never with UNDOC |
| Opcodes.NoReservedBits | src/cpus/mos65xx.rs:51-321 | no entry sets the DATA, LOAD, STORE or INDIRECT bits |
| Opcodes.JamIsUndocImplied | src/cpus/mos65xx.rs:53-308 | every JAM entry is Implied and UNDOC only |
| Opcodes.MnemonicsThreeChars | src/cpus/mos65xx.rs:51-321 | every mnemonic has three characters |
| Opcodes.AbsoluteYQuirks | src/cpus/mos65xx.rs:286-320 | 0xDE (DEC) and 0xFE (INC) are given as AbsoluteY, as written |
| Opcodes.OpcodesTableOk | src/cpus/mos65xx.rs:50-323 | the table has 256 entries, each indexed by its own opcode byte and satisfying every rule above |
| Bits.Or | src/memory.rs:32 | bitwise or is at least each operand and at most their sum |
| Bits.And | src/cpus/mos6510/disassembler.rs:56-57 | bitwise and is at most each operand |
| Bits.ShiftLeft | src/memory.rs:31 | an unbounded left shift does not decrease and is zero only for zero |
| Bits.ShiftLeft16 | src/memory.rs:38 | a 16-bit left shift stays below 2^16 and equals the unbounded shift when that fits |
| Bits.ShiftRight | src/cpus/mos6510/disassembler.rs:57 | a right shift does not increase |
| Bits.OrCommutes | src/memory.rs:32 | bitwise or commutes |
| Bits.ShiftLeftMul | src/memory.rs:31 | shifting left by k multiplies by 2^k |
| Bits.ShiftRightDiv | src/cpus/mos6510/disassembler.rs:57 | shifting right by k divides by 2^k |
| Bits.ShiftByByte | src/memory.rs:31 | shifting by 8 multiplies or divides by 256 |
| Bits.OrDisjoint | src/memory.rs:30-32 | or-ing a value shifted by k with one below 2^k adds them |
| Bits.AndLowMask | src/cpus/mos6510/disassembler.rs:56 | masking with 2^k - 1 is the remainder modulo 2^k |
| Bits.AndShiftedMask | src/cpus/mos6510/disassembler.rs:57 | masking with a shifted mask and shifting back is shifting first and masking |
| Bits.LowByteMask | src/cpus/mos6510/disassembler.rs:56 | `w & 0x00FF` is the low byte |
| Bits.HighByteMask | src/cpus/mos6510/disassembler.rs:57 | `(w & 0xFF00) >> 8` is the high byte of a 16-bit value |
| Bits.WordFromBytes | src/memory.rs:29-40 | a byte shifted left by 8 in 16 bits, or-ed with a byte in either order, is the word with the first byte high |
| Memory.BinaryBuffer.New | src/memory.rs:11-17 | the new buffer records the data's length as its size and keeps the data and the load address unchanged |
| Memory.BinaryBuffer.ReadSignedByte | src/memory.rs:26-28 | the signed reading lies in -128..127 and is congruent to the byte modulo 256 |
| Memory.BinaryBuffer.ReadWordLe | src/memory.rs:29-34 | the word is the byte at the offset plus 256 times the next byte |
| Memory.BinaryBuffer.ReadWordBe | src/memory.rs:36-40 | as written, the same value as the little-endian read |
| Memory.BinaryBuffer.ReadWordBeCorrected | src/memory.rs:36-40 | the big-endian word: 256 times the byte at the offset plus the next byte |
| Memory.SplitWord | src/memory.rs:29-34 | a word made of two bytes divides back into them |
| Memory.SignedByteRoundTrip | src/memory.rs:26-28 | the signed reading agrees with the byte modulo 256 and is non-negative exactly when the byte is below 128 |
| Memory.WordBytes | src/memory.rs:29-34 | the little-endian word's remainder and quotient by 256 are the two bytes read |
| Memory.BeDiffersFromCorrected | src/memory.rs:36-40 | the as-written and the big-endian reads agree exactly when the two bytes are equal |
| Memory.ReadWordBeIsLittleEndian | src/memory.rs:36-40 | on the bytes 0x12 0x34 the as-written read gives 0x3412 where big-endian order gives 0x1234 |
| LineTypes.DisassembledLine.New | src/disassembler/types.rs:28-43 | the blank line has type None, zero sizes, addresses and 16 zero raw bytes, empty strings and UNINITIALIZED flags |
| Decoder.RelativeTarget | src/cpus/mos6510/disassembler.rs:42-50 | the sign-split computation is the address plus 2 plus the signed offset, cut to 16 bits |
| Decoder.InstructionBytesByUpdates | src/cpus/mos6510/disassembler.rs:32-57 | the raw bytes are the zero buffer updated with the opcode byte and then each operand byte |
| Decoder.Decode | src/cpus/mos6510/disassembler.rs:7-81 | None exactly when the cursor is past the image; otherwise the cursor moves strictly forward and stays within the image |
| Decoder.DecodeAddressAndUndoc | src/cpus/mos6510/disassembler.rs:8-24 | the line has the absolute address and the entry's flags; an undocumented opcode gives a one-byte "???" line of unknown type, and only then |
| Decoder.DecodeDocumented | src/cpus/mos6510/disassembler.rs:26-81 | a documented opcode decodes to its documented line, with the cursor moved by the mode's length |
| Decoder.LengthAndBytes | src/cpus/mos6510/disassembler.rs:26-57 | a documented line records one less than the length, the mnemonic, exactly the instruction's bytes, and zeros behind them |
| Decoder.DecodeLengthAndBytes | src/cpus/mos6510/disassembler.rs:26-79 | the same for a decode step, with the cursor advanced by the mode's length |
| Decoder.WordOperand | src/cpus/mos6510/disassembler.rs:54-69 | a three-byte instruction refers to the little-endian word of its operand bytes; apart from JSR and JMP absolute its text is exactly the mode's rendering of that word, for Absolute `$` and four digits that read back to it |
| Decoder.DecodeWordOperand | src/cpus/mos6510/disassembler.rs:54-76 | the same for a decode step, for opcodes other than 0x20 and 0x4C |
| Decoder.DecodeJumpMarkers | src/cpus/mos6510/disassembler.rs:59-66 | JSR shows `SUB__` and JMP Absolute `JUMP__` before the formatted target |
| Decoder.AddressRef | src/cpus/mos6510/disassembler.rs:45-76 | the reference is 0 without operand or for Immediate, the branch target for Relative whatever the sign, and the byte otherwise |
| Decoder.DecodeAddressRef | src/cpus/mos6510/disassembler.rs:45-76 | the same for a decode step, and 0 for undocumented opcodes |
| Decoder.OperandTextFacts | src/cpus/mos6510/disassembler.rs:34-53 | the operand text is empty exactly without operand, and a byte operand shows the formatted byte or branch target |
| Decoder.DecodeOperandText | src/cpus/mos6510/disassembler.rs:34-53 | the same for a decode step |
| Decoder.ForwardBranchExample | src/cpus/mos6510/disassembler.rs:47-49 | BNE +5 at 0x0600 targets 0x0607 and is two bytes long |
| Decoder.BackwardBranchExample | src/cpus/mos6510/disassembler.rs:45-46 | BNE with offset 0xFB at 0x0600 targets 0x05FD |
| Mos6510.LowByte | src/cpus/mos6510/disassembler.rs:56 | the masked low byte is the word modulo 256 |
| Mos6510.HighByte | src/cpus/mos6510/disassembler.rs:57 | the masked and shifted high byte is the word divided by 256 |
| Mos6510.Cpu6510.constructor | src/cpus/mos6510.rs:25-30 | keeps the buffer and starts the counter at the load address cut to 16 bits |
| Mos6510.Cpu6510.SetPc | src/cpus/mos6510.rs:18-20 | sets the counter to the argument modulo 65536 and changes nothing else |
| Mos6510.Cpu6510.DisassembleNext | src/cpus/mos6510/disassembler.rs:7-81 | returns exactly the line of Decode and moves the counter to its next cursor; None and no move past the image |
| Mos6510.Cpu6510.DecodeOperand | src/cpus/mos6510/disassembler.rs:34-76 | the operand branch yields the specified operand value, raw bytes, operand text and reference |
| Mos6510.Cpu6510.ByteOperand | src/cpus/mos6510/disassembler.rs:35-53 | a one-byte operand yields the specified value, raw byte and text |
| Mos6510.Cpu6510.BranchTarget | src/cpus/mos6510/disassembler.rs:45-50 | the branch target is RelativeTarget, recorded as the reference at once only for a non-negative offset |
| Mos6510.Cpu6510.WordOperand | src/cpus/mos6510/disassembler.rs:54-69 | a two-byte operand yields the specified word, the instruction's raw bytes and its text |
| LinearSweep.Sweep | src/disassembler/dasm.rs:26-40 | the sweep is empty exactly when the cursor starts past the image |
| LinearSweep.SweepUnfold | src/disassembler/dasm.rs:27-39 | the sweep is one decode step followed by the sweep from the next cursor, and ends at the first None |
| LinearSweep.SweepAddressesFrom | src/cpus/mos6510/disassembler.rs:8 | every swept line lies at or after the absolute address of the start |
| LinearSweep.SweepIncreasing | src/cpus/mos6510/disassembler.rs:22-79 | swept line addresses strictly increase |
| LinearSweep.SweepInstrSize | src/cpus/mos6510/disassembler.rs:26-27 | every swept line records at most two operand bytes |
| Labels.LabelLines | src/disassembler/dasm.rs:26-40 | one output line per input line, in order; each differs from its input only in operand and comment, and a line that needs no label is kept whole |
| Labels.LabelledOpcodes | src/disassembler/dasm.rs:34 | the labelled opcodes are exactly the eight branches, JSR, JMP absolute and JMP indirect, which carries no INDIRECT flag in the table |
| Labels.LabelLinesSnoc | src/disassembler/dasm.rs:27-39 | labelling one more line is one more step from the state reached so far |
| Labels.ReuseExisting | src/disassembler/dasm.rs:71-72 | a line whose own address is a key takes the stored name; comment, counters and map unchanged |
| Labels.FreshLabel | src/disassembler/dasm.rs:73-87 | otherwise the name is LABEL/SUBRT/JUMP_ with that kind's counter, branch before subroutine before jump, exactly that counter goes up by one, the map gains the address and the comment is set |
| Labels.LabelNameLength | src/disassembler/dasm.rs:75-81 | a name is 13 characters, and its digits read back as the counter, for counters below 10^8 |
| Labels.CommentSign | src/disassembler/dasm.rs:86-87 | the comment is `$`, four hex digits that read back as the reference, a space and `+` exactly when the reference lies after the line |
| Labels.StepGrowsMap | src/disassembler/dasm.rs:71-85 | the map only grows, never rebinds a key, and binds the line's address to the line's final operand |
| Labels.LabelLinesKeysBelow | src/disassembler/dasm.rs:85 | labelling lines below a bound keeps every key below it |
| Labels.LabelLinesGrowsMap | src/disassembler/dasm.rs:71-85 | over a whole pass every key stays, bound to the same name |
| Labels.LabelLinesOperandsInMap | src/disassembler/dasm.rs:34-85 | after the pass, every labelled line's operand is the name the map holds for its address |
| Labels.IncreasingNeverReuses | src/disassembler/dasm.rs:71 | over lines with increasing addresses above every key, no labelled line finds its address in the map |
| Labels.NameParts | src/disassembler/dasm.rs:75-81 | a name splits back into its prefix and its counter |
| Labels.FreshDiffers | src/disassembler/dasm.rs:74-83 | a counter's next name differs from every name handed out before |
| Labels.IssuedAfterStep | src/disassembler/dasm.rs:74-83 | after a counter moves on, its name counts as handed out, and earlier names stay so |
| Labels.KindPrefix | src/disassembler/dasm.rs:74-83 | the chosen prefix is one of LABEL, SUBRT and JUMP_ |
| Labels.FreshStepByKind | src/disassembler/dasm.rs:73-85 | a fresh step names the line from its kind's counter, binds it, and moves only that counter forward |
| Labels.InsertKeepsNamesOk | src/disassembler/dasm.rs:85 | binding a new key to a name not yet present keeps the map's names distinct |
| Labels.StepKeepsNamesOk | src/disassembler/dasm.rs:70-89 | one labelling step keeps the names distinct and handed out |
| Labels.LabelLinesKeepNamesOk | src/disassembler/dasm.rs:26-40 | a whole pass keeps the names distinct |
| Labels.SweepLabelsFresh | src/disassembler/dasm.rs:71-85 | in a sweep from the initial state no labelled line finds its address in the map, and no two labelled lines share a name |
| Rendering.Render | src/disassembler/dasm.rs:46-69 | one text line per collected line |
| Rendering.RenderSnoc | src/disassembler/dasm.rs:48-68 | rendering one more line appends its text |
| Rendering.ByteColumnLayout | src/disassembler/dasm.rs:51-53 | the raw-byte column takes three characters per byte: two hex digits and a space |
| Rendering.RawFieldWidth | src/disassembler/dasm.rs:51-58 | for one to three bytes the raw-byte field is always 9 characters wide |
| Rendering.CommentOnlyWhenPresent | src/disassembler/dasm.rs:62-64 | the comment column appears exactly for a non-empty comment, as `   ; ` and the comment |
| Rendering.LineLayout | src/disassembler/dasm.rs:49-60 | the first four characters read back as the address, then four spaces, the 9-column raw field, and the mnemonic at column 17 |
| Orchestrator.Dasm.constructor | src/disassembler/dasm.rs:6-16 | keeps the decoder and the start address, with an empty map, no lines and every counter at 0 |
| Orchestrator.Dasm.Run | src/disassembler/dasm.rs:18-24 | sets the cursor to the start address, leaves the labels and lines that pass 1 produces over the sweep from there, and returns their rendering |
| Orchestrator.Dasm.Pass1 | src/disassembler/dasm.rs:26-40 | the new state and the appended lines are LabelLines over the sweep from the cursor |
| Orchestrator.Dasm.Collect | src/disassembler/dasm.rs:34-38 | one line of pass 1: the state after the step and the stepped line appended |
| Orchestrator.Dasm.NextLine | src/disassembler/dasm.rs:28-31 | the next decoded line is the head of the sweep from the cursor, and the cursor moves to the rest; None exactly at its end |
| Orchestrator.Dasm.GenerateLabel | src/disassembler/dasm.rs:70-89 | the new state and line are those of LabelStep |
| Orchestrator.Dasm.PrintDasm | src/disassembler/dasm.rs:46-69 | returns the rendering of the collected lines |
| Orchestrator.RenderableAfterPass1 | src/disassembler/dasm.rs:38 | the lines of pass 1 over a sweep can all be rendered, having at most two operand bytes |
| Utils.AsciiReference.New | src/utils/mod.rs:10-15 | the empty reference: offset 0, empty text |
| Utils.AsciiReference.From | src/utils/mod.rs:17-22 | keeps the given offset and text |
| Utils.Text | src/utils/mod.rs:34 | reading bytes as characters keeps the length |
| Utils.RunLength | src/utils/mod.rs:33-41 | a run before index i is at most i long |
| Utils.ExtractAsciiReferences | src/utils/mod.rs:27-47 | the scan returns exactly the references Expected specifies |
| Utils.TextSnoc | src/utils/mod.rs:34 | pushing a byte as a character appends it |
| Utils.RunIsMaximal | src/utils/mod.rs:33-41 | the run before an index is printable throughout and cannot be extended to the left |
| Utils.ExpectedReported | src/utils/mod.rs:35-43 | every reference lies at a reported index and is the run that ends there |
| Utils.RefShape | src/utils/mod.rs:33-43 | each reference is printable, longer than the minimum, ends at the non-printable byte at its offset, equals the input's bytes before it, and cannot be extended to the left |
| Utils.OffsetsIncrease | src/utils/mod.rs:39-43 | reported offsets strictly increase |
| Utils.ReportedIff | src/utils/mod.rs:35-40 | an index is a reported offset exactly when a long enough printable run ends there at a non-printable byte |
| Utils.TrailingRunNotReported | src/utils/mod.rs:32-46 | a printable run at the end of the input is never reported |
| Utils.AtMostOnePerTerminator | src/utils/mod.rs:35-41 | there are at most as many references as non-printable bytes |

## Left out

- `src/main.rs`: file reading, the command line and the driver loop are I/O; the image is a parameter of the model.
- `calculate_entropy` (`src/utils/mod.rs:49-66`): it uses floating point, and nothing calls it.
- The `Cpu65xx` registers and its stub decoder (`src/cpus/mos65xx.rs:3-19,325-352`): they do nothing but print.
- `src/cpus/mc680x0.rs`: an empty stub.
- `src/cpus.rs`: the dynamic dispatch over CPUs is replaced by the concrete 6510 decoder.
- `src/dasm.rs`: an older snapshot of the line type, superseded by `src/disassembler/types.rs`.
- The `println!` calls of `print_dasm`: `PrintDasm` returns the printed lines as strings.
- Pass 2 is empty in the source; `Orchestrator.Dasm.Pass2` is an empty method.
- `Mos6510.Cpu6510.DisassembleNext`: the program's panics are preconditions, not modelled faults. These are an out-of-range read, a u32 overflow of the absolute address, a u16 overflow of the counter, `i8::abs(-128)`, and a u32 underflow or overflow in the branch arithmetic. `Decoder.CanDecode` and `LinearSweep.SweepOk` collect them.
- `Orchestrator.Dasm.Run`: it requires a sweep free of panics (`LinearSweep.SweepOk`) from the start address cut to 16 bits.
- `Orchestrator.Dasm`: the three label counters are unbounded naturals, so u32 wrap-around is not modelled. At most 65536 lines fit in one sweep, so it cannot occur.
- `Mos6510.Cpu6510`: the decoder reads its table through a constant field, set to the table of `src/cpus/mos65xx.rs`. The module `opcodes6510` it imports is not part of this model.
- `Memory`: a read cannot change the buffer, because the buffer is an immutable value with function reads; `buffer_size` is kept as a field that `New` sets to the data's length.
- `Bits`: bitwise and, or and shifts are defined on naturals one bit at a time, with a 16-bit shift where the source shifts a `u16`.

## Findings

| source | as written | input that shows it | evidently intended | confidence | as-written member | corrected member |
|---|---|---|---|---|---|---|
| src/memory.rs:36-40 | `read_word_be` puts the byte at the offset in the low half and the next byte in the high half, the same as `read_word_le` | the bytes 0x12 0x34 at offset 0 read as 0x3412 | big-endian order, 0x1234: the byte at the offset in the high half | not executed | Memory.BinaryBuffer.ReadWordBe, Memory.ReadWordBeIsLittleEndian | Memory.BinaryBuffer.ReadWordBeCorrected |
