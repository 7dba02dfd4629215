/** Ring indices: `pos & (cap - 1)` for a power-of-two `cap` is `pos mod cap`. */
module Slots {
  /** The cell of a position, by subtracting whole laps. */
  function Slot(pos: nat, cap: nat): (i: nat)
    requires cap > 0
    ensures i < cap
  {
    if pos < cap then pos else Slot(pos - cap, cap)
  }

  /** Two positions of one cell are equal or at least one lap apart. */
  lemma {:induction false} SameSlot(p: nat, q: nat, cap: nat)
    requires cap > 0 && Slot(p, cap) == Slot(q, cap)
    ensures p == q || p + cap <= q || q + cap <= p
  {
    if p >= cap && q >= cap { SameSlot(p - cap, q - cap, cap); }
    else if p < cap && q >= cap { SlotBelow(q, cap); }
    else if q < cap && p >= cap { SlotBelow(p, cap); }
  }

  lemma {:induction false} SlotBelow(p: nat, cap: nat)
    requires cap > 0 && p >= cap
    ensures Slot(p, cap) + cap <= p
  {
    if p - cap >= cap { SlotBelow(p - cap, cap); }
  }

  lemma SlotNext(p: nat, cap: nat)
    requires cap > 0
    ensures Slot(p + cap, cap) == Slot(p, cap)
  {
  }
}
