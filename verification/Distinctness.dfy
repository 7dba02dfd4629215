/** Sequences without repetition. */
module Distinctness {
  ghost predicate Apart<T>(s: seq<T>, i: nat, j: nat)
    requires i < j < |s|
  {
    s[i] != s[j]
  }

  ghost predicate Distinct<T>(s: seq<T>) {
    forall i, j | 0 <= i < j < |s| :: Apart(s, i, j)
  }

  lemma DistinctAt<T>(s: seq<T>, i: nat, j: nat)
    requires Distinct(s) && i < j < |s|
    ensures s[i] != s[j]
  {
    assert Apart(s, i, j);
  }

  lemma DistinctAppend<T>(s: seq<T>, x: T)
    requires Distinct(s) && x !in s
    ensures Distinct(s + [x])
  {
    forall i, j | 0 <= i < j < |s + [x]| ensures Apart(s + [x], i, j) {
      assert j < |s| ==> Apart(s, i, j);
    }
  }

  lemma DistinctTail<T>(s: seq<T>)
    requires Distinct(s) && s != []
    ensures Distinct(s[1..]) && s[0] !in s[1..]
  {
    forall i, j | 0 <= i < j < |s[1..]| ensures Apart(s[1..], i, j) { assert Apart(s, i + 1, j + 1); }
    forall i | 1 <= i < |s| ensures s[i] != s[0] { assert Apart(s, 0, i); }
  }
}
