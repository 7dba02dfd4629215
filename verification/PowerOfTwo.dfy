/** The rounding of ring sizes, on 64-bit words. */
module PowerOfTwo {
  /** Spread the highest set bit to all lower positions. */
  function Smear(n: bv64): bv64 {
    var a := n | (n >> 1);
    var b := a | (a >> 2);
    var c := b | (b >> 4);
    var d := c | (c >> 8);
    var e := d | (d >> 16);
    e | (e >> 32)
  }

  function NextPowerOf2(n: bv64): bv64 {
    if n == 0 then 1 else Smear(n - 1) + 1
  }

  predicate IsPower(p: bv64) {
    p != 0 && p & (p - 1) == 0
  }

  const TOP: bv64 := 0x8000_0000_0000_0000

  /** Below 2^63 the word after the smeared one is a power of two above x, ... */
  lemma SmearBelow(x: bv64)
    requires x < TOP
    ensures IsPower(Smear(x) + 1) && x < Smear(x) + 1
  {
  }

  /** ... and the least one. */
  lemma SmearLeast(x: bv64, p: bv64)
    requires IsPower(p) && x < p
    ensures Smear(x) + 1 <= p
  {
  }

  lemma UpToPower(n: bv64, p: bv64)
    requires 1 <= n && IsPower(p)
    ensures n <= p <==> n - 1 < p
  {
  }

  /** A number up to a power of two, less one, has no bit outside the mask below that power. */
  lemma FitsBelow(n: bv64, p: bv64)
    requires 1 <= n <= p && IsPower(p)
    ensures (n - 1) & (p - 1) == n - 1
  {
    UpToPower(n, p);
    IndexBelow(n - 1, p);
  }

  /** Up to 2^63 the result is a power of two and not below n. */
  lemma PowerAbove(n: bv64)
    requires 1 <= n <= TOP
    ensures IsPower(NextPowerOf2(n)) && n <= NextPowerOf2(n)
  {
    SmearBelow(n - 1);
    UpToPower(n, NextPowerOf2(n));
  }

  /** ... and no smaller power of two is. */
  lemma LeastPower(n: bv64, p: bv64)
    requires 1 <= n <= TOP && IsPower(p) && n <= p
    ensures NextPowerOf2(n) <= p
  {
    UpToPower(n, p);
    SmearLeast(n - 1, p);
  }

  /** Beyond 2^63 there is no such power and the sum wraps to 0. */
  lemma Wraps(n: bv64)
    ensures n > TOP <==> NextPowerOf2(n) == 0
  {
  }

  /** Masking with a power of two less one is the index that the rings use: it stays below the size, ... */
  lemma IndexBelow(pos: bv64, size: bv64)
    requires IsPower(size)
    ensures pos & (size - 1) < size && (pos < size ==> pos & (size - 1) == pos)
  {
  }

  /** ... and positions one lap apart share a cell, also across the wrap of the position counter. */
  lemma IndexOfLap(pos: bv64, size: bv64)
    requires IsPower(size)
    ensures (pos + size) & (size - 1) == pos & (size - 1)
  {
  }
}
