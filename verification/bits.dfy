/** Bitwise exclusive-or on non-negative integers, as Python's `^` computes it on
    the unbounded `int` values the tool works with, and the powers of two used to
    bound it. */
module Bits {

  /** 2^n. */
  function Pow2(n: nat): (r: nat)
    ensures r >= 1
  {
    if n == 0 then 1 else 2 * Pow2(n - 1)
  }

  /** The powers of two that bound a byte and a 32-bit word. */
  lemma Pow2Values()
    ensures Pow2(8) == 0x100
    ensures Pow2(16) == 0x1_0000
    ensures Pow2(31) == 0x8000_0000
    ensures Pow2(32) == 0x1_0000_0000
  {
    assert Pow2(8) == 0x100;
    assert Pow2(12) == 0x1000;
    assert Pow2(16) == 0x1_0000;
    assert Pow2(20) == 0x10_0000;
    assert Pow2(24) == 0x100_0000;
    assert Pow2(28) == 0x1000_0000;
  }

  /** Bitwise exclusive-or, one binary digit at a time, least significant first.
      Dropping carries never makes a sum larger. */
  function Xor(a: nat, b: nat): (r: nat)
    ensures r <= a + b
    decreases a + b
  {
    if a == 0 && b == 0 then 0
    else 2 * Xor(a / 2, b / 2) + (if a % 2 == b % 2 then 0 else 1)
  }

  lemma {:induction false} XorZero(a: nat)
    ensures Xor(a, 0) == a
    decreases a
  {
    if a != 0 {
      XorZero(a / 2);
    }
  }

  lemma {:induction false} XorCommutes(a: nat, b: nat)
    ensures Xor(a, b) == Xor(b, a)
    decreases a + b
  {
    if a != 0 || b != 0 {
      XorCommutes(a / 2, b / 2);
    }
  }

  /** Two numbers of at most n bits have an exclusive-or of at most n bits. */
  lemma {:induction false} XorBelow(a: nat, b: nat, n: nat)
    requires a < Pow2(n) && b < Pow2(n)
    ensures Xor(a, b) < Pow2(n)
    decreases n
  {
    if a != 0 || b != 0 {
      assert n > 0;
      XorBelow(a / 2, b / 2, n - 1);
    }
  }

  /** Exclusive-or with a byte maps bytes to bytes. */
  lemma XorByte(a: nat, b: nat)
    requires a < 256 && b < 256
    ensures Xor(a, b) < 256
  {
    Pow2Values();
    XorBelow(a, b, 8);
  }

  /** Applying the same mask twice gives back the original value. */
  lemma {:induction false} XorSelfInverse(a: nat, b: nat)
    ensures Xor(Xor(a, b), b) == a
    decreases a + b
  {
    if a == 0 && b == 0 {
    } else {
      var q := Xor(a / 2, b / 2);
      var d := if a % 2 == b % 2 then 0 else 1;
      var x := 2 * q + d;
      assert x / 2 == q && x % 2 == d;
      XorSelfInverse(a / 2, b / 2);
    }
  }

  /** Mixing c into a key gives i exactly when c is the key mixed with i. */
  lemma XorSolve(key: nat, c: nat, i: nat)
    ensures Xor(key, c) == i <==> c == Xor(key, i)
  {
    XorCommutes(key, c);
    XorSelfInverse(c, key);
    XorCommutes(key, i);
    XorSelfInverse(i, key);
    if c == Xor(key, i) {
      XorCommutes(Xor(i, key), key);
    }
  }

  /** Exclusive-or with 2^n flips bit n: it adds 2^n when that bit is clear and
      subtracts it when the bit is set. */
  lemma {:induction false} XorFlipsBit(v: nat, n: nat)
    requires v < Pow2(n + 1)
    ensures Xor(v, Pow2(n)) == if v < Pow2(n) then v + Pow2(n) else v - Pow2(n)
    decreases n
  {
    if n == 0 {
      assert Xor(0, 0) == 0;
    } else {
      var p := Pow2(n - 1);
      assert Pow2(n) / 2 == p && Pow2(n) % 2 == 0;
      assert v / 2 < Pow2(n);
      XorFlipsBit(v / 2, n - 1);
      assert Xor(v, Pow2(n)) == 2 * Xor(v / 2, p) + v % 2;
      assert v < Pow2(n) <==> v / 2 < p;
    }
  }
}
