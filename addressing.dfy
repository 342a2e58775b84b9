/**
 * The 6510 addressing modes: how many bytes an instruction in each mode
 * occupies and how its operand is written in assembly syntax.
 */
module Addressing {
  import opened Common
  import opened Numerals

  datatype AddressingMode =
    | AddrImplied
    | AddrAccumulator
    | AddrImmediate
    | AddrZeroPage
    | AddrZeroPageX
    | AddrZeroPageY
    | AddrAbsolute
    | AddrAbsoluteX
    | AddrAbsoluteY
    | AddrIndirectX
    | AddrIndirectY
    | AddrRelative
    | AddrIndirect

  /** Operand text for `value` in `mode`: upper-case hex, 2 digits for the
      byte-operand forms and 4 for the word forms (more only if the value needs them). */
  function FormatString(mode: AddressingMode, value: u16): string
  {
    match mode
    case AddrImplied | AddrAccumulator => ""
    case AddrImmediate => "#$" + Hex(value, 2)
    case AddrZeroPage => "$" + Hex(value, 2)
    case AddrZeroPageX => "$" + Hex(value, 2) + ",X"
    case AddrZeroPageY => "$" + Hex(value, 2) + ",Y"
    case AddrAbsolute => "$" + Hex(value, 4)
    case AddrAbsoluteX => "$" + Hex(value, 4) + ",X"
    case AddrAbsoluteY => "$" + Hex(value, 4) + ",Y"
    case AddrIndirectX => "($" + Hex(value, 2) + ",X)"
    case AddrIndirectY => "($" + Hex(value, 2) + "),Y"
    case AddrRelative => "$" + Hex(value, 4)
    case AddrIndirect => "($" + Hex(value, 4) + ")"
  }

  /** Total instruction length in bytes (opcode plus operand) for `mode`. */
  function GetPcInc(mode: AddressingMode): (n: nat)
    ensures 1 <= n <= 3
  {
    match mode
    case AddrImplied | AddrAccumulator => 1
    case AddrImmediate | AddrZeroPage | AddrZeroPageX | AddrZeroPageY
      | AddrIndirectX | AddrIndirectY | AddrRelative => 2
    case _ => 3
  }

  // ---------------------------------------------------------------- lemmas

  /** The three length classes, each stated as an equivalence. */
  lemma PcIncGroups(mode: AddressingMode)
    ensures GetPcInc(mode) == 1 <==> mode in {AddrImplied, AddrAccumulator}
    ensures GetPcInc(mode) == 2 <==>
      mode in {AddrImmediate, AddrZeroPage, AddrZeroPageX, AddrZeroPageY, AddrIndirectX, AddrIndirectY, AddrRelative}
    ensures GetPcInc(mode) == 3 <==> mode in {AddrAbsolute, AddrAbsoluteX, AddrAbsoluteY, AddrIndirect}
  {
  }

  /** Only the operand-less modes render as the empty string, whatever the value. */
  lemma EmptyIffNoOperand(mode: AddressingMode, value: u16)
    ensures FormatString(mode, value) == "" <==> GetPcInc(mode) == 1
  {
  }

  /** Immediate: `#$` and at least two hex digits, exactly two for a byte value. */
  lemma ImmediateShape(value: u16)
    ensures var s := FormatString(AddrImmediate, value);
      |s| >= 4 && s[..2] == "#$" && AllDigits(s[2..], 16) && (value <= 0xFF ==> |s| == 4)
  {
    var s := FormatString(AddrImmediate, value);
    assert s[2..] == Hex(value, 2);
    FormattedAllDigits(value, 16, 2);
    if value <= 0xFF {
      HexWidth2(value);
    }
  }

  /** The zero-page family for a byte value: exactly two digits and fixed decoration. */
  lemma ZeroPageShapes(value: u16)
    requires value <= 0xFF
    ensures var h := Hex(value, 2);
      |h| == 2 && AllDigits(h, 16) &&
      FormatString(AddrZeroPage, value) == "$" + h &&
      FormatString(AddrZeroPageX, value) == "$" + h + ",X" &&
      FormatString(AddrZeroPageY, value) == "$" + h + ",Y" &&
      FormatString(AddrIndirectX, value) == "($" + h + ",X)" &&
      FormatString(AddrIndirectY, value) == "($" + h + "),Y"
  {
    HexWidth2(value);
  }

  /** Absolute and Relative print the same `$hhhh`; Indirect wraps it in
      parentheses and the indexed absolute forms append the index register. */
  lemma WordShapes(value: u16)
    ensures var a := FormatString(AddrAbsolute, value);
      |a| == 5 && a[0] == '$' && AllDigits(a[1..], 16) &&
      FormatString(AddrRelative, value) == a &&
      FormatString(AddrIndirect, value) == "(" + a + ")" &&
      FormatString(AddrAbsoluteX, value) == a + ",X" &&
      FormatString(AddrAbsoluteY, value) == a + ",Y"
  {
    HexWidth4(value);
    assert FormatString(AddrAbsolute, value)[1..] == Hex(value, 4);
  }

  /** Round trip: the four digits of the Absolute rendering read back as the value. */
  lemma AbsoluteRoundTrip(value: u16)
    ensures ParseDigits(FormatString(AddrAbsolute, value)[1..], 16) == value
  {
    assert FormatString(AddrAbsolute, value)[1..] == Hex(value, 4);
    ParseFormatted(value, 16, 4);
  }

  /** No character of `s` is a hex digit. */
  predicate NoHexDigits(s: string)
  {
    forall i :: 0 <= i < |s| ==> !IsDigit(s[i], 16)
  }

  /** The text before the digits of an operand in `mode`. */
  function Prefix(mode: AddressingMode): string
  {
    match mode
    case AddrImmediate => "#$"
    case AddrIndirectX | AddrIndirectY | AddrIndirect => "($"
    case _ => "$"
  }

  /** The text after the digits of an operand in `mode`. */
  function Suffix(mode: AddressingMode): string
  {
    match mode
    case AddrZeroPageX | AddrAbsoluteX => ",X"
    case AddrZeroPageY | AddrAbsoluteY => ",Y"
    case AddrIndirectX => ",X)"
    case AddrIndirectY => "),Y"
    case AddrIndirect => ")"
    case _ => ""
  }

  /** The minimum number of digits of an operand in `mode`. */
  function DigitWidth(mode: AddressingMode): nat
  {
    match mode
    case AddrAbsolute | AddrAbsoluteX | AddrAbsoluteY | AddrRelative | AddrIndirect => 4
    case _ => 2
  }

  /** Every rendering with an operand is a prefix, the padded hex value and a suffix. */
  lemma FormatShape(mode: AddressingMode, value: u16)
    requires GetPcInc(mode) != 1
    ensures FormatString(mode, value) == Prefix(mode) + Hex(value, DigitWidth(mode)) + Suffix(mode)
  {
  }

  /** The decorations around operands are free of hex digits. */
  lemma Decorations(mode: AddressingMode)
    ensures NoHexDigits(Prefix(mode)) && NoHexDigits(Suffix(mode))
  {
  }

  /** Digit count of a hex numeral with decoration `pre` before and `post` after it. */
  lemma CountDecorated(pre: string, h: string, post: string)
    requires AllDigits(h, 16)
    requires NoHexDigits(pre) && NoHexDigits(post)
    ensures CountDigits(pre + h + post, 16) == |h|
  {
    CountDigitsAppend(pre, h, 16);
    CountDigitsAppend(pre + h, post, 16);
    CountNoDigits(pre, 16);
    CountNoDigits(post, 16);
    CountAllDigits(h, 16);
  }

  /** Cross-check of the two tables: for a byte operand, the number of hex
      digits in the rendering is twice the number of operand bytes, except for
      Relative, whose one offset byte is shown as a four-digit target. */
  lemma OperandDigitsMatchLength(mode: AddressingMode, value: u16)
    requires value <= 0xFF
    ensures mode != AddrRelative ==> CountDigits(FormatString(mode, value), 16) == 2 * (GetPcInc(mode) - 1)
    ensures mode == AddrRelative ==> CountDigits(FormatString(mode, value), 16) == 4
  {
    if GetPcInc(mode) == 1 {
      assert FormatString(mode, value) == "";
    } else {
      var h := Hex(value, DigitWidth(mode));
      HexWidth2(value);
      HexWidth4(value);
      assert |h| == DigitWidth(mode) && AllDigits(h, 16);
      FormatShape(mode, value);
      Decorations(mode);
      CountDecorated(Prefix(mode), h, Suffix(mode));
    }
  }
}
