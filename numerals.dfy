/**
 * Positional numerals as Rust's formatter prints them for unsigned integers:
 * the upper-case hexadecimal and the decimal formats give the shortest digit
 * string, and a width with zero fill pads it on the left with '0' up to that
 * width, never truncating.
 */
module Numerals {

  function Pow(b: nat, k: nat): (r: nat)
    ensures b >= 1 ==> r >= 1
  {
    if k == 0 then 1 else b * Pow(b, k - 1)
  }

  /** Numeric value of a digit character ('0'-'9', 'A'-'F'); 0 for anything else. */
  function DigitValue(c: char): nat
  {
    if '0' <= c <= '9' then c as int - '0' as int
    else if 'A' <= c <= 'F' then c as int - 'A' as int + 10
    else 0
  }

  /** `c` is a digit of a numeral in `base` (at most 16, upper-case letters). */
  predicate IsDigit(c: char, base: nat)
  {
    ('0' <= c <= '9' || 'A' <= c <= 'F') && DigitValue(c) < base
  }

  predicate AllDigits(s: string, base: nat)
  {
    forall i :: 0 <= i < |s| ==> IsDigit(s[i], base)
  }

  /** The character printed for digit value `d`. */
  function DigitChar(d: nat): (c: char)
    requires d < 16
    ensures IsDigit(c, d + 1) && DigitValue(c) == d
  {
    if d < 10 then ('0' as int + d) as char else ('A' as int + d - 10) as char
  }

  /** The shortest numeral for `v` in `base`: "0" for zero, otherwise no leading zero. */
  function ToDigits(v: nat, base: nat): (s: string)
    requires 2 <= base <= 16
    decreases v
  {
    DivModBase(v, base);
    if v < base then [DigitChar(v)] else ToDigits(v / base, base) + [DigitChar(v % base)]
  }

  lemma DivModBase(v: nat, b: nat)
    requires 2 <= b <= 16
    ensures v % b < b && v == (v / b) * b + v % b
    ensures v >= b ==> 1 <= v / b < v
  {
  }

  function Zeros(n: nat): (z: string)
  {
    seq(n, _ => '0')
  }

  /** Left-pads `s` with '0' up to width `w`; a longer `s` is kept whole. */
  function PadZero(s: string, w: nat): string
  {
    if |s| >= w then s else "0" + PadZero(s, w - 1)
  }

  /** `v` printed in `base` with zero fill to width `w`. */
  function Formatted(v: nat, base: nat, w: nat): string
    requires 2 <= base <= 16
  {
    PadZero(ToDigits(v, base), w)
  }

  /** Upper-case hexadecimal with zero fill to width `w`. */
  function Hex(v: nat, w: nat): string
  {
    Formatted(v, 16, w)
  }

  /** Decimal with zero fill to width `w`. */
  function Decimal(v: nat, w: nat): string
  {
    Formatted(v, 10, w)
  }

  /** Value of a numeral, most significant digit first. */
  function ParseDigits(s: string, base: nat): nat
  {
    if s == [] then 0 else ParseDigits(s[..|s| - 1], base) * base + DigitValue(s[|s| - 1])
  }

  /** Number of characters of `s` that are digits in `base`. */
  function CountDigits(s: string, base: nat): nat
  {
    if s == [] then 0
    else CountDigits(s[..|s| - 1], base) + (if IsDigit(s[|s| - 1], base) then 1 else 0)
  }

  // ---------------------------------------------------------------- lemmas

  /** The shortest numeral is non-empty, made of digits of the base, and
      starts with '0' exactly when it is the numeral for zero. */
  lemma {:induction false} ToDigitsFacts(v: nat, base: nat)
    requires 2 <= base <= 16
    ensures var s := ToDigits(v, base);
      1 <= |s| && AllDigits(s, base) && (s[0] == '0' <==> v == 0)
    decreases v
  {
    DivModBase(v, base);
    if v >= base {
      ToDigitsFacts(v / base, base);
      var t := ToDigits(v / base, base);
      var s := ToDigits(v, base);
      assert s == t + [DigitChar(v % base)];
      forall i | 0 <= i < |s|
        ensures IsDigit(s[i], base)
      {
        if i < |t| {
          assert s[i] == t[i];
        }
      }
    }
  }

  /** Padding reaches the width, keeps `s` as the suffix and fills with '0'. */
  lemma {:induction false} PadZeroFacts(s: string, w: nat)
    ensures var r := PadZero(s, w);
      && |r| == (if |s| < w then w else |s|)
      && r == Zeros(|r| - |s|) + s
      && r[|r| - |s|..] == s
      && forall i :: 0 <= i < |r| - |s| ==> r[i] == '0'
  {
    if |s| < w {
      PadZeroFacts(s, w - 1);
      var t := PadZero(s, w - 1);
      assert Zeros(|t| - |s| + 1) == "0" + Zeros(|t| - |s|);
    }
  }

  lemma {:induction false} ParseToDigits(v: nat, base: nat)
    requires 2 <= base <= 16
    ensures ParseDigits(ToDigits(v, base), base) == v
    decreases v
  {
    var s := ToDigits(v, base);
    DivModBase(v, base);
    if v < base {
      assert s[..0] == [];
    } else {
      assert s[..|s| - 1] == ToDigits(v / base, base);
      ParseToDigits(v / base, base);
    }
  }

  lemma {:induction false} ParseZeros(n: nat, base: nat)
    ensures ParseDigits(Zeros(n), base) == 0
  {
    if n > 0 {
      assert Zeros(n)[..n - 1] == Zeros(n - 1);
      ParseZeros(n - 1, base);
    }
  }

  /** Leading zeros do not change the value of a numeral. */
  lemma {:induction false} ParseZerosPrefix(n: nat, s: string, base: nat)
    ensures ParseDigits(Zeros(n) + s, base) == ParseDigits(s, base)
    decreases |s|
  {
    if s == [] {
      assert Zeros(n) + s == Zeros(n);
      ParseZeros(n, base);
    } else {
      var t := Zeros(n) + s;
      assert t[..|t| - 1] == Zeros(n) + s[..|s| - 1];
      assert t[|t| - 1] == s[|s| - 1];
      ParseZerosPrefix(n, s[..|s| - 1], base);
    }
  }

  /** Round trip: reading back a zero-filled numeral gives the printed value. */
  lemma ParseFormatted(v: nat, base: nat, w: nat)
    requires 2 <= base <= 16
    ensures ParseDigits(Formatted(v, base, w), base) == v
  {
    var s := ToDigits(v, base);
    ParseToDigits(v, base);
    PadZeroFacts(s, w);
    ParseZerosPrefix(|Formatted(v, base, w)| - |s|, s, base);
  }

  /** Distinct values print as distinct numerals at any fixed base and width. */
  lemma FormattedInjective(v1: nat, v2: nat, base: nat, w: nat)
    requires 2 <= base <= 16
    requires v1 != v2
    ensures Formatted(v1, base, w) != Formatted(v2, base, w)
  {
    ParseFormatted(v1, base, w);
    ParseFormatted(v2, base, w);
  }

  lemma {:induction false} ToDigitsLength(v: nat, base: nat, k: nat)
    requires 2 <= base <= 16 && 1 <= k
    requires v < Pow(base, k)
    ensures |ToDigits(v, base)| <= k
    decreases v
  {
    DivModBase(v, base);
    if v >= base {
      assert k >= 2;
      assert Pow(base, k) == base * Pow(base, k - 1);
      assert v / base < Pow(base, k - 1) by {
        DivBelow(v, base, Pow(base, k - 1));
      }
      ToDigitsLength(v / base, base, k - 1);
    }
  }

  lemma DivBelow(v: nat, b: nat, p: nat)
    requires b >= 1 && v < b * p
    ensures v / b < p
  {
  }

  /** A value below base^w prints in exactly `w` characters, each a digit. */
  lemma FormattedWidth(v: nat, base: nat, w: nat)
    requires 2 <= base <= 16 && 1 <= w
    requires v < Pow(base, w)
    ensures |Formatted(v, base, w)| == w
  {
    ToDigitsLength(v, base, w);
    PadZeroFacts(ToDigits(v, base), w);
  }

  lemma FormattedAllDigits(v: nat, base: nat, w: nat)
    requires 2 <= base <= 16
    ensures AllDigits(Formatted(v, base, w), base)
    ensures |Formatted(v, base, w)| >= w
  {
    var s := ToDigits(v, base);
    var r := Formatted(v, base, w);
    ToDigitsFacts(v, base);
    PadZeroFacts(s, w);
    forall i | 0 <= i < |r|
      ensures IsDigit(r[i], base)
    {
      if i >= |r| - |s| {
        assert r[i] == r[|r| - |s|..][i - (|r| - |s|)];
      }
    }
  }

  lemma HexWidth2(v: nat)
    requires v <= 0xFF
    ensures |Hex(v, 2)| == 2 && AllDigits(Hex(v, 2), 16)
  {
    assert Pow(16, 2) == 0x100;
    FormattedWidth(v, 16, 2);
    FormattedAllDigits(v, 16, 2);
  }

  lemma HexWidth4(v: nat)
    requires v <= 0xFFFF
    ensures |Hex(v, 4)| == 4 && AllDigits(Hex(v, 4), 16)
  {
    assert Pow(16, 4) == 0x1_0000;
    FormattedWidth(v, 16, 4);
    FormattedAllDigits(v, 16, 4);
  }

  lemma {:induction false} CountDigitsAppend(a: string, b: string, base: nat)
    ensures CountDigits(a + b, base) == CountDigits(a, base) + CountDigits(b, base)
    decreases |b|
  {
    if b == [] {
      assert a + b == a;
    } else {
      var t := a + b;
      assert t[..|t| - 1] == a + b[..|b| - 1];
      assert t[|t| - 1] == b[|b| - 1];
      CountDigitsAppend(a, b[..|b| - 1], base);
    }
  }

  lemma {:induction false} CountAllDigits(s: string, base: nat)
    requires AllDigits(s, base)
    ensures CountDigits(s, base) == |s|
    decreases |s|
  {
    if s != [] {
      var t := s[..|s| - 1];
      assert AllDigits(t, base) by {
        forall i | 0 <= i < |t| ensures IsDigit(t[i], base) {
          assert t[i] == s[i];
        }
      }
      CountAllDigits(t, base);
    }
  }

  /** A numeral's digit count is its length. */
  lemma CountFormatted(v: nat, base: nat, w: nat)
    requires 2 <= base <= 16
    ensures CountDigits(Formatted(v, base, w), base) == |Formatted(v, base, w)|
  {
    FormattedAllDigits(v, base, w);
    CountAllDigits(Formatted(v, base, w), base);
  }

  /** Text with no digit characters (the decoration around an operand) counts zero digits. */
  lemma {:induction false} CountNoDigits(s: string, base: nat)
    requires forall i :: 0 <= i < |s| ==> !IsDigit(s[i], base)
    ensures CountDigits(s, base) == 0
    decreases |s|
  {
    if s != [] {
      var t := s[..|s| - 1];
      assert forall i :: 0 <= i < |t| ==> t[i] == s[i];
      CountNoDigits(t, base);
    }
  }
}
