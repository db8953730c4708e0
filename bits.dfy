/**
 * The C integer semantics the colour pipeline relies on: the fixed-width
 * unsigned types `u8`, `u16` and `u32`, the shifts `<<` and `>>`, the bitwise
 * OR `|`, and the implicit truncation that happens when a wider value is
 * stored into a narrower unsigned lvalue.
 */
module Bits {

  type u8 = x: nat | x < 0x100
  type u16 = x: nat | x < 0x1_0000
  type u32 = x: nat | x < 0x1_0000_0000

  /** 2 to the power k. */
  function Pow2(k: nat): (r: nat)
    ensures r >= 1
  {
    if k == 0 then 1 else 2 * Pow2(k - 1)
  }

  /** `x << k` on a value whose result is not truncated. */
  function Shl(x: nat, k: nat): nat
  {
    x * Pow2(k)
  }

  /** `x >> k` on an unsigned value. */
  function Shr(x: nat, k: nat): nat
  {
    DivNatural(x, Pow2(k));
    x / Pow2(k)
  }

  /**
   * Dividing a natural number by a positive one gives a natural number; kept
   * as its own small fact so that the check of `Shr` stays cheap.
   */
  lemma DivNatural(x: nat, d: nat)
    requires d >= 1
    ensures x / d >= 0
  {
  }

  /** Bitwise OR of two unsigned values, bit by bit from the least significant end. */
  function BitOr(x: nat, y: nat): nat
    decreases x + y
  {
    if x == 0 then y
    else if y == 0 then x
    else 2 * BitOr(x / 2, y / 2) + (if x % 2 == 1 || y % 2 == 1 then 1 else 0)
  }

  /**
   * Storing an integer into a `u8` lvalue keeps its low byte (the same
   * operation as `x & 0xFF`); for negative values this is the two's
   * complement low byte, which Dafny's Euclidean `%` gives directly.
   */
  function LowByte(x: int): (r: u8)
    ensures 0 <= x < 0x100 ==> r == x
    ensures (x - r) % 0x100 == 0
  {
    x % 0x100
  }

  /** `++i` on a `u8` counter: 255 wraps around to 0. */
  function Inc8(i: u8): (j: u8)
    ensures i < 0xFF ==> j == i + 1
    ensures i == 0xFF ==> j == 0
  {
    LowByte(i + 1)
  }

  /** Storing an integer into a `u16` lvalue keeps its low 16 bits. */
  function LowHalf(x: int): (r: u16)
    ensures 0 <= x < 0x1_0000 ==> r == x
    ensures (x - r) % 0x1_0000 == 0
  {
    x % 0x1_0000
  }

  /** Shifting by k is shifting by k - 1 and then doubling. */
  lemma ShlStep(y: nat, k: nat)
    requires k > 0
    ensures Shl(y, k) == 2 * Shl(y, k - 1)
    ensures y > 0 ==> Shl(y, k - 1) >= 1
  {
  }

  /** `y << k` occupies only bits at or above k, so OR-ing in a value below 2^k is addition. */
  lemma {:induction false} OrDisjoint(x: nat, y: nat, k: nat)
    requires x < Pow2(k)
    ensures BitOr(x, Shl(y, k)) == x + Shl(y, k)
  {
    if k == 0 {
      assert x == 0;
    } else if x == 0 {
    } else if y == 0 {
      assert Shl(y, k) == 0;
    } else {
      ShlStep(y, k);
      var half := Shl(y, k - 1);
      assert Shl(y, k) / 2 == half && Shl(y, k) % 2 == 0;
      OrDisjoint(x / 2, y, k - 1);
      assert BitOr(x, Shl(y, k)) == 2 * BitOr(x / 2, half) + x % 2;
    }
  }

  /** The shifts used by the pipeline, on their concrete widths. */
  lemma ShiftConstants()
    ensures Pow2(8) == 0x100 && Pow2(16) == 0x1_0000
  {
  }
}
