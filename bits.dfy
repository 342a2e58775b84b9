/**
 * Bitwise operations on unsigned integers, defined one bit at a time, and the
 * facts the byte and word reads need: an or of non-overlapping parts is their
 * sum, a low mask is a remainder, a high mask followed by a shift is a quotient.
 */
module Bits {
  function Pow2(k: nat): (p: nat)
    ensures p >= 1
  {
    if k == 0 then 1 else 2 * Pow2(k - 1)
  }

  /** Bitwise or. */
  function Or(a: nat, b: nat): (r: nat)
    ensures a <= r && b <= r && r <= a + b
    decreases a + b
  {
    if a == 0 then b
    else if b == 0 then a
    else 2 * Or(a / 2, b / 2) + (if a % 2 == 1 || b % 2 == 1 then 1 else 0)
  }

  /** Bitwise and. */
  function And(a: nat, b: nat): (r: nat)
    ensures r <= a && r <= b
    decreases a + b
  {
    if a == 0 || b == 0 then 0
    else 2 * And(a / 2, b / 2) + (if a % 2 == 1 && b % 2 == 1 then 1 else 0)
  }

  /** Left shift by `k` without a width limit. */
  function ShiftLeft(a: nat, k: nat): (r: nat)
    ensures a <= r && (r == 0 <==> a == 0)
  {
    if k == 0 then a else 2 * ShiftLeft(a, k - 1)
  }

  /** Left shift of a 16-bit value: bits pushed past bit 15 are lost. */
  function ShiftLeft16(a: nat, k: nat): (r: nat)
    ensures r < 0x1_0000
    ensures ShiftLeft(a, k) < 0x1_0000 ==> r == ShiftLeft(a, k)
  {
    ShiftLeft(a, k) % 0x1_0000
  }

  /** Logical right shift by `k`. */
  function ShiftRight(a: nat, k: nat): (r: nat)
    ensures r <= a
  {
    if k == 0 then a else ShiftRight(a / 2, k - 1)
  }

  // ---------------------------------------------------------------- lemmas

  lemma OrCommutes(a: nat, b: nat)
    ensures Or(a, b) == Or(b, a)
  {
  }

  /** Shifting left by `k` multiplies by 2^k. */
  lemma {:induction false} ShiftLeftMul(a: nat, k: nat)
    ensures ShiftLeft(a, k) == a * Pow2(k)
  {
    if k > 0 {
      ShiftLeftMul(a, k - 1);
      assert 2 * (a * Pow2(k - 1)) == a * (2 * Pow2(k - 1));
    }
  }

  /** Shifting right by `k` divides by 2^k. */
  lemma {:induction false} ShiftRightDiv(a: nat, k: nat)
    ensures ShiftRight(a, k) == a / Pow2(k)
  {
    if k > 0 {
      ShiftRightDiv(a / 2, k - 1);
      HalveDiv(a, k);
    }
  }

  /** Halving twice in sequence: `(w / 2) / 2^(k-1)` is `w / 2^k`. */
  lemma HalveDiv(w: nat, k: nat)
    requires k >= 1
    ensures (w / 2) / Pow2(k - 1) == w / Pow2(k)
  {
    var p := Pow2(k - 1);
    var q, r := (w / 2) / p, (w / 2) % p;
    assert w / 2 == q * p + r;
    assert w == q * (2 * p) + (2 * r + w % 2);
    ModUnique(w, 2 * p, q, 2 * r + w % 2);
  }

  /** Shifting by a byte is multiplying or dividing by 256. */
  lemma ShiftByByte(y: nat)
    ensures ShiftLeft(y, 8) == 256 * y && ShiftRight(y, 8) == y / 256
  {
    assert Pow2(8) == 256;
    ShiftLeftMul(y, 8);
    ShiftRightDiv(y, 8);
  }

  /** Or-ing a value shifted left by `k` with something below 2^k adds them. */
  lemma {:induction false} OrDisjoint(hi: nat, lo: nat, k: nat)
    requires lo < Pow2(k)
    ensures Or(ShiftLeft(hi, k), lo) == ShiftLeft(hi, k) + lo
  {
    var x := ShiftLeft(hi, k);
    if k == 0 || x == 0 || lo == 0 {
    } else {
      assert x / 2 == ShiftLeft(hi, k - 1) && x % 2 == 0;
      OrDisjoint(hi, lo / 2, k - 1);
    }
  }

  /** Division then remainder: the `k`-bit low part of `w` from the one of `w / 2`. */
  lemma HalveMod(w: nat, k: nat)
    requires k >= 1
    ensures w % Pow2(k) == 2 * ((w / 2) % Pow2(k - 1)) + w % 2
  {
    var p := Pow2(k - 1);
    var q, r := (w / 2) / p, (w / 2) % p;
    assert w / 2 == q * p + r;
    assert w == q * (2 * p) + (2 * r + w % 2);
    ModUnique(w, 2 * p, q, 2 * r + w % 2);
  }

  /** Euclidean division has one quotient and one remainder. */
  lemma ModUnique(w: nat, d: nat, q: nat, r: nat)
    requires 0 <= r < d && w == q * d + r
    ensures w % d == r && w / d == q
  {
    var q', r' := w / d, w % d;
    assert (q' - q) * d == r - r';
    MulSign(q' - q, d);
  }

  /** A non-zero multiple of `d` is at least `d` away from zero. */
  lemma MulSign(a: int, d: int)
    requires d > 0
    ensures a >= 1 ==> a * d >= d
    ensures a <= -1 ==> a * d <= -d
  {
  }

  /** Masking with 2^k - 1 keeps the low `k` bits. */
  lemma {:induction false} AndLowMask(w: nat, k: nat)
    ensures And(w, Pow2(k) - 1) == w % Pow2(k)
  {
    if k == 0 {
    } else if w == 0 {
    } else {
      var m := Pow2(k) - 1;
      assert m / 2 == Pow2(k - 1) - 1 && m % 2 == 1;
      AndLowMask(w / 2, k - 1);
      HalveMod(w, k);
    }
  }

  /** Masking with `m` shifted left by `k` and shifting the result down by
      `k` is shifting down first and masking with `m`. */
  lemma {:induction false} AndShiftedMask(w: nat, m: nat, k: nat)
    ensures ShiftRight(And(w, ShiftLeft(m, k)), k) == And(ShiftRight(w, k), m)
  {
    if k == 0 {
    } else if w == 0 || m == 0 {
    } else {
      var half := ShiftLeft(m, k - 1);
      var x := And(w / 2, half);
      assert And(w, 2 * half) == 2 * x;
      assert ShiftRight(2 * x, k) == ShiftRight(x, k - 1);
      AndShiftedMask(w / 2, m, k - 1);
    }
  }

  /** The low byte of a 16-bit value through the mask 0x00FF. */
  lemma LowByteMask(w: nat)
    ensures And(w, 0x00FF) == w % 256
  {
    assert Pow2(8) == 256;
    AndLowMask(w, 8);
  }

  /** The high byte of a 16-bit value through the mask 0xFF00 and a shift by 8. */
  lemma HighByteMask(w: nat)
    requires w < 0x1_0000
    ensures ShiftRight(And(w, 0xFF00), 8) == w / 256
  {
    ShiftByByte(0xFF);
    ShiftByByte(w);
    AndShiftedMask(w, 0xFF, 8);
    LowByteMask(w / 256);
  }

  /** A byte shifted left by 8 in 16 bits, or-ed with a byte, in either order,
      is the word with the first byte high. */
  lemma WordFromBytes(hi: nat, lo: nat)
    requires hi < 256 && lo < 256
    ensures Or(ShiftLeft16(hi, 8), lo) == hi * 256 + lo
    ensures Or(lo, ShiftLeft16(hi, 8)) == hi * 256 + lo
  {
    assert Pow2(8) == 256;
    ShiftByByte(hi);
    OrDisjoint(hi, lo, 8);
    OrCommutes(lo, hi * 256);
  }
}
