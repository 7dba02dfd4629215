/** Sequences of numbers that go up. */
module Ascending {
  ghost predicate Below(q: seq<nat>, i: nat, j: nat)
    requires i < j < |q|
  {
    q[i] < q[j]
  }

  ghost predicate Rising(q: seq<nat>) {
    forall i, j | 0 <= i < j < |q| :: Below(q, i, j)
  }

  ghost predicate AllBelow(q: seq<nat>, n: nat) {
    forall i | 0 <= i < |q| :: q[i] < n
  }

  lemma RisingAt(q: seq<nat>, i: nat, j: nat)
    requires Rising(q) && i < j < |q|
    ensures q[i] < q[j]
  {
    assert Below(q, i, j);
  }

  lemma AppendRising(q: seq<nat>, x: nat)
    requires Rising(q) && AllBelow(q, x)
    ensures Rising(q + [x])
  {
    forall i, j | 0 <= i < j < |q + [x]| ensures Below(q + [x], i, j) {
      if j < |q| { assert Below(q, i, j); }
    }
  }

  lemma PrefixRising(q: seq<nat>, r: seq<nat>)
    requires Rising(q + r)
    ensures Rising(q)
  {
    forall i, j | 0 <= i < j < |q| ensures Below(q, i, j) { assert Below(q + r, i, j); }
  }

  lemma RemoveRising(q: seq<nat>, r: seq<nat>)
    requires r != [] && Rising(q + r)
    ensures Rising(q + r[1..])
  {
    forall i, j | 0 <= i < j < |q + r[1..]| ensures Below(q + r[1..], i, j) {
      assert Below(q + r, if i < |q| then i else i + 1, if j < |q| then j else j + 1);
    }
  }

  /** Leaving one out keeps the rest in order. */
  lemma DropRising(q: seq<nat>, k: nat)
    requires Rising(q) && k < |q|
    ensures Rising(q[..k] + q[k + 1..])
  {
    var r := q[..k] + q[k + 1..];
    forall i, j | 0 <= i < j < |r| ensures Below(r, i, j) {
      assert Below(q, if i < k then i else i + 1, if j < k then j else j + 1);
    }
  }
}
