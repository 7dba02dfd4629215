/**
The cell index of the rings: `pos & (size - 1)` on 64-bit counters that wrap around, against the slot of
an unbounded position.
*/
module RingIndex {
  import opened PowerOfTwo
  import opened Slots
  import SpscRing

  function Half(x: bv64): bv64 {
    x >> 1
  }

  predicate Odd(x: bv64) {
    x & 1 == 1
  }

  /** The number a word stands for. */
  function Nat(x: bv64): (n: nat)
    ensures n > 0 <==> x != 0
    decreases x
  {
    if x == 0 then 0 else (if Odd(x) then 1 else 0) + 2 * Nat(Half(x))
  }

  /** The 64-bit counter after pos increments. */
  function Word(pos: nat): bv64 {
    if pos == 0 then 0 else Word(pos - 1) + 1
  }

  lemma NatStep(x: bv64, h: bv64, odd: bool)
    requires h == Half(x) && odd == Odd(x)
    ensures Nat(x) == (if odd then 1 else 0) + 2 * Nat(h)
  {
  }

  lemma HalfBelow(x: bv64)
    requires x != 0
    ensures Nat(Half(x)) < Nat(x)
  {
  }

  // ---- Counting up by one ----

  lemma OddPred(x: bv64)
    requires Odd(x)
    ensures !Odd(x - 1) && Half(x - 1) == Half(x)
  {
  }

  lemma EvenPred(x: bv64)
    requires x != 0 && !Odd(x)
    ensures Odd(x - 1) && Half(x - 1) == Half(x) - 1
  {
  }

  lemma EvenHalf(x: bv64)
    requires x != 0 && !Odd(x)
    ensures Half(x) != 0
  {
  }

  lemma OddSucc(x: bv64)
    requires Odd(x)
    ensures Nat(x) == Nat(x - 1) + 1
  {
    OddPred(x);
    NatStep(x, Half(x), true);
    NatStep(x - 1, Half(x), false);
  }

  lemma EvenSucc(x: bv64)
    requires x != 0 && !Odd(x) && Nat(Half(x)) == Nat(Half(x) - 1) + 1
    ensures Nat(x) == Nat(x - 1) + 1
  {
    EvenPred(x);
    NatStep(x, Half(x), false);
    NatStep(x - 1, Half(x) - 1, true);
  }

  lemma {:induction false} Succ(x: bv64)
    requires x != 0
    ensures Nat(x) == Nat(x - 1) + 1
    decreases Nat(x)
  {
    if Odd(x) {
      OddSucc(x);
    } else {
      EvenHalf(x);
      HalfBelow(x);
      Succ(Half(x));
      EvenSucc(x);
    }
  }

  // ---- Masking ----

  lemma AndHalf(x: bv64, q: bv64)
    ensures Half(x & q) == Half(x) & Half(q) && (Odd(x & q) <==> Odd(x) && Odd(q))
  {
  }

  lemma {:induction false} AndBelow(x: bv64, q: bv64)
    ensures Nat(x & q) <= Nat(q)
    decreases Nat(q)
  {
    if q != 0 {
      HalfBelow(q);
      AndBelow(Half(x), Half(q));
      AndHalf(x, q);
      NatStep(q, Half(q), Odd(q));
      NatStep(x & q, Half(x) & Half(q), Odd(x) && Odd(q));
    } else {
      assert x & 0 == 0;
    }
  }

  lemma {:induction false} SlotStep(pos: nat, cap: nat)
    requires cap > 0
    ensures Slot(pos + 1, cap) == if Slot(pos, cap) + 1 == cap then 0 else Slot(pos, cap) + 1
  {
    if pos >= cap { SlotStep(pos - cap, cap); }
  }

  lemma MaskLast(w: bv64, size: bv64)
    requires IsPower(size) && w & (size - 1) == size - 1
    ensures (w + 1) & (size - 1) == 0
  {
  }

  lemma MaskInner(w: bv64, size: bv64)
    requires IsPower(size) && w & (size - 1) != size - 1
    ensures (w + 1) & (size - 1) == (w & (size - 1)) + 1
  {
  }

  lemma MaskMoves(w: bv64, size: bv64)
    requires IsPower(size) && w & (size - 1) != size - 1
    ensures (w + 1) & (size - 1) != 0
  {
  }

  lemma SuccOf(x: bv64, y: bv64)
    requires y == x + 1 && y != 0
    ensures Nat(y) == Nat(x) + 1
  {
    Succ(y);
  }

  lemma LastCell(w: bv64, size: bv64)
    requires IsPower(size) && w & (size - 1) == size - 1
    ensures Nat((w + 1) & (size - 1)) == 0 && Nat(w & (size - 1)) + 1 == Nat(size)
  {
    MaskLast(w, size);
    Succ(size);
  }

  lemma InnerCell(w: bv64, size: bv64)
    requires IsPower(size) && w & (size - 1) != size - 1
    ensures Nat((w + 1) & (size - 1)) == Nat(w & (size - 1)) + 1
  {
    MaskInner(w, size);
    MaskMoves(w, size);
    SuccOf(w & (size - 1), (w + 1) & (size - 1));
  }

  lemma CellBelow(w: bv64, size: bv64)
    requires IsPower(size)
    ensures Nat(w & (size - 1)) < Nat(size)
  {
    AndBelow(w, size - 1);
    Succ(size);
  }

  /** The cell that the mask picks. */
  function Cell(w: bv64, size: bv64): nat {
    Nat(w & (size - 1))
  }

  ghost predicate Moves(w: bv64, size: bv64) {
    Cell(w + 1, size) == if Cell(w, size) + 1 == Nat(size) then 0 else Cell(w, size) + 1
  }

  /** One increment moves the masked counter to the next cell, or from the last cell to the first. */
  lemma CellMoves(w: bv64, size: bv64)
    requires IsPower(size)
    ensures Moves(w, size)
  {
    if w & (size - 1) == size - 1 {
      LastCell(w, size);
    } else {
      InnerCell(w, size);
      CellBelow(w + 1, size);
    }
  }

  ghost predicate Cyclic(size: bv64) {
    size != 0 && forall w: bv64 :: Moves(w, size)
  }

  lemma PowerCyclic(size: bv64)
    requires IsPower(size)
    ensures Cyclic(size)
  {
    forall w: bv64 ensures Moves(w, size) { CellMoves(w, size); }
  }

  lemma FirstCell(size: bv64)
    ensures Cell(0, size) == 0
  {
    assert 0 & (size - 1) == 0;
  }

  lemma {:induction false} CyclicIsSlot(pos: nat, size: bv64)
    requires Cyclic(size)
    ensures Cell(Word(pos), size) == Slot(pos, Nat(size))
  {
    if pos == 0 {
      FirstCell(size);
    } else {
      CyclicIsSlot(pos - 1, size);
      SlotStep(pos - 1, Nat(size));
      assert Moves(Word(pos - 1), size);
    }
  }

  /** For a power of two the mask picks the slot of the position, however often the counter has wrapped. */
  lemma IndexIsSlot(pos: nat, size: bv64)
    requires IsPower(size)
    ensures Cell(Word(pos), size) == Slot(pos, Nat(size))
  {
    PowerCyclic(size);
    CyclicIsSlot(pos, size);
  }

  // ---- The ring as it is created ----

  lemma PredBelow(cap: bv64, size: bv64)
    requires 1 <= cap <= size && IsPower(size)
    ensures Nat(cap - 1) <= Nat(size - 1)
  {
    FitsBelow(cap, size);
    AndBelow(cap - 1, size - 1);
  }

  lemma FitsNat(cap: bv64, size: bv64)
    requires 1 <= cap <= size && IsPower(size)
    ensures 1 <= Nat(cap) <= Nat(size)
  {
    PredBelow(cap, size);
    Succ(cap);
    Succ(size);
  }

  /**
  Every run of a ring of the given size created for cap values holds at most cap values, and the mask picks
  the cell of every position.
  */
  ghost predicate Holds(cap: bv64, size: bv64, acts: seq<SpscRing.Act>, pos: nat) {
    && 1 <= Nat(cap) <= Nat(size)
    && var s := SpscRing.Run(SpscRing.Init(Nat(cap), Nat(size)), acts);
       && SpscRing.Indices(s) && |SpscRing.Queue(s)| <= Nat(cap) && s.puts == s.takes + SpscRing.Queue(s)
       && s.size == Nat(size) && Cell(Word(pos), size) == Slot(pos, Nat(size))
  }

  lemma {:induction false} SizedRing(cap: bv64, size: bv64, acts: seq<SpscRing.Act>, pos: nat)
    requires 1 <= cap <= size && IsPower(size)
    ensures Holds(cap, size, acts, pos)
  {
    FitsNat(cap, size);
    IndexIsSlot(pos, size);
    SpscRing.BoundedByRequest(Nat(cap), Nat(size), acts);
    SpscRing.Constants(Nat(cap), Nat(size), acts);
  }

  /** The size that is chosen for a requested capacity up to 2^63 makes it so. */
  lemma {:induction false} CreatedRing(cap: bv64, acts: seq<SpscRing.Act>, pos: nat)
    requires 1 <= cap <= TOP
    ensures Holds(cap, NextPowerOf2(cap), acts, pos)
  {
    PowerAbove(cap);
    SizedRing(cap, NextPowerOf2(cap), acts, pos);
  }
}
