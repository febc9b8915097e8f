/**
  Non-negative integers seen as little-endian bit strings, plus the bitwise
  OR of Python's unbounded integers restricted to non-negative operands.
  A bit is a `bool` (true is 1).
 */
module Bits {

  /**
    The width of a byte. Bit strings of a fixed width are written with a
    named width rather than a literal, so that the verifier does not unfold
    them bit by bit.
   */
  const BYTE_BITS: nat := 8

  function Pow2(k: nat): (p: nat)
    ensures p >= 1
  {
    if k == 0 then 1 else 2 * Pow2(k - 1)
  }

  lemma {:induction false} Pow2Add(a: nat, b: nat)
    ensures Pow2(a + b) == Pow2(a) * Pow2(b)
  {
    if a > 0 {
      Pow2Add(a - 1, b);
      calc {
        Pow2(a + b);
        2 * Pow2(a - 1 + b);
        2 * (Pow2(a - 1) * Pow2(b));
        (2 * Pow2(a - 1)) * Pow2(b);
      }
    }
  }

  lemma {:induction false} Pow2Monotone(a: nat, b: nat)
    requires a <= b
    ensures Pow2(a) <= Pow2(b)
  {
    if a < b {
      Pow2Monotone(a, b - 1);
    }
  }

  /** `k` zero bits. */
  function Zeros(k: nat): (r: seq<bool>)
    ensures |r| == k
  {
    seq(k, _ => false)
  }

  /** The `k` least significant bits of `v`, least significant first. */
  function ToBits(v: nat, k: nat): (r: seq<bool>)
    ensures |r| == k
  {
    if k == 0 then [] else [v % 2 == 1] + ToBits(v / 2, k - 1)
  }

  /** The number whose little-endian bits are `bs`. */
  function FromBits(bs: seq<bool>): (v: nat)
    ensures v < Pow2(|bs|)
  {
    if bs == [] then 0 else (if bs[0] then 1 else 0) + 2 * FromBits(bs[1..])
  }

  /** Reading back `k` bits of a number below `2^k` gives the number. */
  lemma {:induction false} FromToBits(v: nat, k: nat)
    requires v < Pow2(k)
    ensures FromBits(ToBits(v, k)) == v
  {
    if k > 0 {
      FromToBits(v / 2, k - 1);
      assert ToBits(v, k)[1..] == ToBits(v / 2, k - 1);
    }
  }

  /** Writing out the number a bit string denotes gives the bit string. */
  lemma {:induction false} ToFromBits(bs: seq<bool>)
    ensures ToBits(FromBits(bs), |bs|) == bs
  {
    if bs != [] {
      ToFromBits(bs[1..]);
      var v := FromBits(bs);
      assert v % 2 == (if bs[0] then 1 else 0);
      assert v / 2 == FromBits(bs[1..]);
    }
  }

  /** Zero has only zero bits. */
  lemma {:induction false} ZeroBits(k: nat)
    ensures ToBits(0, k) == Zeros(k)
  {
    if k > 0 {
      ZeroBits(k - 1);
    }
  }

  /**
    Placing `b` above the `k` low bits of `a < 2^k` concatenates their bit
    strings: the low `k` bits are those of `a`, the next `m` those of `b`.
   */
  lemma {:induction false} ToBitsSplit(a: nat, b: nat, k: nat, m: nat)
    requires a < Pow2(k)
    ensures ToBits(a + b * Pow2(k), k + m) == ToBits(a, k) + ToBits(b, m)
  {
    if k == 0 {
      assert a == 0;
    } else {
      var hi := b * Pow2(k - 1);
      assert b * Pow2(k) == 2 * hi;
      var x := a + 2 * hi;
      assert x % 2 == a % 2;
      assert x / 2 == a / 2 + hi;
      ToBitsSplit(a / 2, b, k - 1, m);
    }
  }

  /** Splitting off the low byte of a `k`-bit value (`v & 0xFF`, `v >> 8`). */
  lemma LowByteBits(v: nat, k: nat)
    requires 8 <= k && v < Pow2(k)
    ensures v / 256 < Pow2(k - 8)
    ensures ToBits(v, k) == ToBits(v % 256, BYTE_BITS) + ToBits(v / 256, k - 8)
  {
    Pow2Add(8, k - 8);
    assert Pow2(8) == 256;
    ToBitsSplit(v % 256, v / 256, BYTE_BITS, k - 8);
  }

  /** Python's `a | b` on non-negative integers. */
  function BitOr(a: nat, b: nat): nat
    decreases a + b
  {
    if a == 0 then b
    else if b == 0 then a
    else (if a % 2 == 1 || b % 2 == 1 then 1 else 0) + 2 * BitOr(a / 2, b / 2)
  }

  /** OR-ing in a value shifted above every set bit of `a` is an addition. */
  lemma {:induction false} DisjointOr(a: nat, b: nat, k: nat)
    requires a < Pow2(k)
    ensures BitOr(a, b * Pow2(k)) == a + b * Pow2(k)
  {
    if k > 0 && a != 0 && b != 0 {
      var hi := b * Pow2(k - 1);
      assert b * Pow2(k) == 2 * hi;
      DisjointOr(a / 2, b, k - 1);
    }
  }
}
