/**
The scheduler's global ready queue: fibers linked through their own `next` field.  A method is one
section under the queue's lock.
*/
module ReadyQueue {
  import opened Distinctness

  class Fiber {
    var next: Fiber?

    constructor ()
      ensures next == null
    {
      next := null;
    }
  }

  class Queue {
    var head: Fiber?
    var tail: Fiber?
    var count: nat
    ghost var fibers: seq<Fiber>

    ghost predicate LinkOk(i: nat)
      reads this`fibers, fibers`next
      requires i < |fibers|
    {
      fibers[i].next == if i + 1 == |fibers| then null else fibers[i + 1]
    }

    /** The chain from head to tail is the sequence of queued fibers, each of them once. */
    ghost predicate Valid()
      reads this, fibers
    {
      && count == |fibers|
      && head == (if fibers == [] then null else fibers[0])
      && tail == (if fibers == [] then null else fibers[|fibers| - 1])
      && (forall i | 0 <= i < |fibers| :: LinkOk(i))
      && Distinct(fibers)
    }

    constructor ()
      ensures Valid() && fibers == []
    {
      head, tail, count, fibers := null, null, 0, [];
    }

    /** Append a fiber that is not queued; returns the depth before. */
    method Push(f: Fiber) returns (prev: nat)
      requires Valid() && f !in fibers
      modifies this, f`next, fibers`next
      ensures Valid() && fibers == old(fibers) + [f] && prev == |old(fibers)|
    {
      f.next := null;
      forall i | 0 <= i < |fibers| - 1 ensures fibers[i] != fibers[|fibers| - 1] {
        DistinctAt(fibers, i, |fibers| - 1);
      }
      DistinctAppend(fibers, f);
      if tail != null {
        tail.next := f;
      } else {
        head := f;
      }
      tail := f;
      prev := count;
      count := count + 1;
      fibers := fibers + [f];
      forall i | 0 <= i < |fibers| ensures LinkOk(i) { assert i < |old(fibers)| ==> old(LinkOk(i)); }
    }

    /** Take the oldest fiber. */
    method Pop() returns (f: Fiber?)
      requires Valid()
      modifies this, fibers`next
      ensures Valid()
      ensures old(fibers) == [] ==> f == null && fibers == []
      ensures old(fibers) != [] ==> f == old(fibers)[0] && fibers == old(fibers)[1..] && f !in fibers && f.next == null
    {
      if count == 0 {
        return null;
      }
      assert LinkOk(0);
      DistinctTail(fibers);
      assert forall i | 1 <= i < |fibers| :: fibers[i] in fibers[1..];
      f := head;
      head := f.next;
      if head == null {
        tail := null;
      }
      f.next := null;
      count := count - 1;
      fibers := fibers[1..];
      forall i | 0 <= i < |fibers| ensures LinkOk(i) { assert old(LinkOk(i + 1)); }
    }
  }
}
