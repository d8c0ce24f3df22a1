/**
 * Arbitrary-precision bit operations on non-negative integers, as JavaScript's
 * BigInt performs them: shifting left by k multiplies by 2^k, and `|` and `&`
 * work bit by bit.
 */
module Bits {

  /** 2^k. */
  function Pow2(k: nat): (r: nat)
    ensures r >= 1
  {
    if k == 0 then 1 else 2 * Pow2(k - 1)
  }

  /** Shifting by a + b is shifting by a, then by b. */
  lemma {:induction false} Pow2Add(a: nat, b: nat)
    ensures Pow2(a + b) == Pow2(a) * Pow2(b)
  {
    if a > 0 {
      Pow2Add(a - 1, b);
      assert Pow2(a + b) == 2 * Pow2(a - 1 + b);
    }
  }

  /** `a | b` on non-negative BigInts, defined bit by bit from the least significant bit. */
  function BitOr(a: nat, b: nat): (r: nat)
    ensures a <= r && b <= r && r <= a + b
    decreases a + b
  {
    if a == 0 then b
    else if b == 0 then a
    else 2 * BitOr(a / 2, b / 2) + (if a % 2 == 1 || b % 2 == 1 then 1 else 0)
  }

  /** `a & b` on non-negative BigInts, defined bit by bit from the least significant bit. */
  function BitAnd(a: nat, b: nat): (r: nat)
    ensures r <= a && r <= b
    decreases a + b
  {
    if a == 0 || b == 0 then 0
    else 2 * BitAnd(a / 2, b / 2) + (if a % 2 == 1 && b % 2 == 1 then 1 else 0)
  }

  /** `BigInt.asUintN(n, x)`: x reduced modulo 2^n into [0, 2^n). */
  function AsUintN(n: nat, x: int): (r: nat)
    ensures r < Pow2(n)
  {
    x % Pow2(n)
  }

  /** Division and remainder are determined by the quotient–remainder equation. */
  lemma DivModUnique(x: int, d: int, q: int, r: int)
    requires d > 0 && x == d * q + r && 0 <= r < d
    ensures x / d == q && x % d == r
  {
    var q', r' := x / d, x % d;
    var e := q - q';
    assert d * e == r' - r;
  }

  /** A left shift by k > 0 is twice a left shift by k - 1, so it is even. */
  lemma Halve(a: nat, k: nat)
    requires k > 0
    ensures a * Pow2(k) == 2 * (a * Pow2(k - 1))
    ensures (a * Pow2(k)) / 2 == a * Pow2(k - 1) && (a * Pow2(k)) % 2 == 0
    ensures a * Pow2(k) == 0 <==> a == 0
  {
  }

  /** OR-ing a value into the zero low bits of a shifted value is addition. */
  lemma {:induction false} BitOrDisjoint(a: nat, b: nat, k: nat)
    requires b < Pow2(k)
    ensures BitOr(a * Pow2(k), b) == a * Pow2(k) + b
  {
    if k == 0 || a == 0 || b == 0 {
      if k == 0 { assert b == 0; }
    } else {
      var hi := a * Pow2(k);
      Halve(a, k);
      DivModUnique(b, 2, b / 2, b % 2);
      assert b / 2 < Pow2(k - 1);
      BitOrDisjoint(a, b / 2, k - 1);
      assert BitOr(hi, b) == 2 * BitOr(hi / 2, b / 2) + b % 2;
    }
  }

  /** OR commutes with a common left shift. */
  lemma {:induction false} BitOrShift(a: nat, b: nat, k: nat)
    ensures BitOr(a * Pow2(k), b * Pow2(k)) == BitOr(a, b) * Pow2(k)
  {
    if k > 0 {
      var x, y := a * Pow2(k), b * Pow2(k);
      Halve(a, k);
      Halve(b, k);
      Halve(BitOr(a, b), k);
      BitOrShift(a, b, k - 1);
      if x != 0 && y != 0 {
        assert BitOr(x, y) == 2 * BitOr(x / 2, y / 2);
      }
    }
  }

  /** Masking with 2^k - 1 keeps the low k bits: `x & (2^k - 1) == x mod 2^k`. */
  lemma {:induction false} BitAndMask(x: nat, k: nat)
    ensures BitAnd(x, Pow2(k) - 1) == x % Pow2(k)
  {
    if k == 0 {
      assert BitAnd(x, 0) == 0;
    } else if x == 0 {
    } else {
      var p := Pow2(k - 1);
      assert Pow2(k) == 2 * p;
      BitAndMask(x / 2, k - 1);
      BitAndOdd(x, p);
      ModDouble(x, p);
      assert BitAnd(x, 2 * p - 1) == x % (2 * p);
    }
  }

  /** AND with an odd mask 2p - 1 keeps the low bit and ANDs the rest with p - 1. */
  lemma BitAndOdd(x: nat, p: nat)
    requires x > 0 && p > 0
    ensures BitAnd(x, 2 * p - 1) == 2 * BitAnd(x / 2, p - 1) + x % 2
  {
    var m := 2 * p - 1;
    assert m / 2 == p - 1 && m % 2 == 1;
  }

  /** The remainder modulo 2p splits into the remainder of the halved value and the low bit. */
  lemma ModDouble(x: nat, p: nat)
    requires p > 0
    ensures x % (2 * p) == 2 * ((x / 2) % p) + x % 2
  {
    var q, s := (x / 2) / p, (x / 2) % p;
    assert x / 2 == p * q + s;
    assert x == 2 * (x / 2) + x % 2;
    assert 2 * (p * q) == (2 * p) * q;
    DivModUnique(x, 2 * p, q, 2 * s + x % 2);
  }
}
