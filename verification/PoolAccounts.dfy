/**
The owned pool told from its calls: what was handed out, put back, refused, passed on and created, and when
an item may be created.
*/
module PoolAccounts {
  import R = MpmcRing
  import opened OwnedPool

  // ---- Who is in the ring, and why ----

  predicate Receives(pc: R.Pc) {
    (pc.DeqHead? || pc.DeqSeq? || pc.DeqCas? || pc.DeqRead? || pc.DeqRelease?) && pc.k == R.Plain
  }

  predicate Sends(pc: R.Pc) {
    pc.EnqTail? || pc.EnqSeq? || pc.EnqCas? || pc.EnqWrite? || pc.EnqPublish?
  }

  /** A thread takes from the ring only for a receive in progress, and puts only between receives. */
  predicate WantOk(pc: R.Pc, w: Want) {
    && (pc == R.Idle || Receives(pc) || Sends(pc))
    && (Receives(pc) ==> w == First || w == Second || w == Blocked)
    && (Sends(pc) ==> w == Out)
    && (pc == R.Idle ==> w != First)
  }

  ghost predicate WantsOk(s: Pool) {
    |s.want| == |s.ring.th| && forall t: nat | t < |s.want| :: WantOk(s.ring.th[t], s.want[t])
  }

  /** A receive that is inside the ring stays a receive until it ends, and so does a send.  One ends by
      finding the ring empty or releasing its cell, the other by finding it full or publishing. */
  lemma SameSide(r: R.Ring, t: nat, c: R.Choice)
    requires R.Shape(r) && t < |r.th| && (c == R.Go || c == R.Fail)
    ensures var q := R.Step(r, R.Act(t, c));
            && |q.th| == |r.th|
            && (Receives(r.th[t]) ==>
                  Receives(q.th[t]) || (q.th[t] == R.Idle && (r.th[t].DeqSeq? || r.th[t].DeqRelease?)))
            && (Sends(r.th[t]) ==>
                  Sends(q.th[t]) || (q.th[t] == R.Idle && (r.th[t].EnqSeq? || r.th[t].EnqPublish?)))
  {
    var q, a := R.Step(r, R.Act(t, c)), R.Act(t, c);
    match r.th[t]
    case EnqSeq(v, pos) => assert q == R.EnqSeqStep(r, t, v, pos);
    case EnqCas(v, pos) => assert q == R.EnqCasStep(r, a, v, pos);
    case DeqSeq(k, pos) => assert q == R.DeqSeqStep(r, t, k, pos);
    case DeqCas(k, pos) => assert q == R.DeqCasStep(r, a, k, pos);
    case _ =>
  }

  // ---- What one step does ----

  /** The step ends a receive, which has its item. */
  predicate HandsOut(s: Pool, a: Act) {
    (a.Go? || a.Handoff?)
    && var t := if a.Go? then a.t else a.u;
       t < |s.want| && s.want[t] != Out && t < |Step(s, a).want| && Step(s, a).want[t] == Out
  }

  /** A caller gives up the item it holds, to put it back. */
  predicate PutsBack(s: Pool, a: Act) {
    a.Put? && Free(s, a.t) && s.held > 0
  }

  /** A return is told that the ring is full: the caller has its item again. */
  predicate Refuses(s: Pool, a: Act) {
    && a.Go? && a.t < |s.ring.th| && s.ring.th[a.t].EnqSeq?
    && a.t < |Step(s, a).ring.th| && Step(s, a).ring.th[a.t] == R.Idle
  }

  /** A return hands its item to a blocked receive. */
  predicate PassesOn(s: Pool, a: Act) {
    && a.Handoff? && Free(s, a.t) && s.held > 0
    && a.u < |s.want| && s.want[a.u] == Blocked && s.ring.th[a.u] == R.Idle
  }

  /** A receive that has looked twice in vain makes an item. */
  predicate Creates(s: Pool, a: Act) {
    && a.Go? && a.t < |s.want| && a.t < |s.ring.th| && s.ring.th[a.t] == R.Idle
    && s.want[a.t] == Decide && s.created < s.max
  }

  function One(b: bool): nat {
    if b then 1 else 0
  }

  predicate Balanced(s: Pool, a: Act) {
    var t := Step(s, a);
    && t.held == s.held + One(HandsOut(s, a)) - One(PutsBack(s, a)) + One(Refuses(s, a)) - One(PassesOn(s, a))
    && t.created == s.created + One(Creates(s, a))
  }

  lemma RingStepOk(s: Pool, t: nat, fail: bool)
    requires R.Shape(s.ring) && WantsOk(s) && t < |s.want| && s.ring.th[t] != R.Idle
    ensures WantsOk(RingStep(s, t, fail)) && Balanced(s, Go(t, fail))
  {
    var c := if fail then R.Fail else R.Go;
    var p := RingStep(s, t, fail);
    assert WantOk(s.ring.th[t], s.want[t]);
    SameSide(s.ring, t, c);
    OneThread(s.ring, R.Act(t, c));
    forall u: nat | u < |p.want| ensures WantOk(p.ring.th[u], p.want[u]) { assert WantOk(s.ring.th[u], s.want[u]); }
  }

  lemma GoOk(s: Pool, t: nat, fail: bool)
    requires R.Shape(s.ring) && WantsOk(s)
    ensures WantsOk(Step(s, Go(t, fail))) && Balanced(s, Go(t, fail))
  {
    if t < |s.want| {
      if s.ring.th[t] != R.Idle {
        RingStepOk(s, t, fail);
      } else {
        OneThread(s.ring, R.Act(t, R.Receive));
        var p := Step(s, Go(t, fail));
        forall u: nat | u < |p.want| ensures WantOk(p.ring.th[u], p.want[u]) {
          assert WantOk(s.ring.th[u], s.want[u]);
        }
      }
    }
  }

  lemma CallOk(s: Pool, a: Act)
    requires R.Shape(s.ring) && WantsOk(s) && !a.Go?
    ensures WantsOk(Step(s, a)) && Balanced(s, a)
  {
    var p := Step(s, a);
    if a.Get? && a.t < |s.want| { OneThread(s.ring, R.Act(a.t, R.Receive)); }
    if a.Put? && a.t < |s.want| { OneThread(s.ring, R.Act(a.t, R.Send(0))); }
    forall u: nat | u < |p.want| ensures WantOk(p.ring.th[u], p.want[u]) { assert WantOk(s.ring.th[u], s.want[u]); }
  }

  // ---- What a run has done ----

  function Count(s: Pool, acts: seq<Act>, f: (Pool, Act) -> bool): nat {
    if acts == [] then 0 else Count(s, acts[..|acts| - 1], f) + One(f(Run(s, acts[..|acts| - 1]), acts[|acts| - 1]))
  }

  lemma {:induction false} WantsRun(cap: nat, max: nat, threads: nat, acts: seq<Act>)
    requires 2 <= cap && max <= cap
    ensures var s := Run(Init(cap, max, threads), acts); R.Shape(s.ring) && WantsOk(s)
  {
    if acts != [] {
      var k := |acts| - 1;
      var s := Run(Init(cap, max, threads), acts[..k]);
      WantsRun(cap, max, threads, acts[..k]);
      if acts[k].Go? { GoOk(s, acts[k].t, acts[k].fail); } else { CallOk(s, acts[k]); }
      ShapeStep(s, acts[k]);
    }
  }

  lemma ShapeStep(s: Pool, a: Act)
    requires R.Shape(s.ring)
    ensures R.Shape(Step(s, a).ring)
  {
  }

  /**
  What callers hold is what receives were given, less what was put back or passed on, plus what was refused;
  and what exists is what receives that looked twice in vain have made.
  */
  lemma {:induction false} ItemsBalance(cap: nat, max: nat, threads: nat, acts: seq<Act>)
    requires 2 <= cap && max <= cap
    ensures var i := Init(cap, max, threads);
            && Run(i, acts).held == Count(i, acts, HandsOut) - Count(i, acts, PutsBack) + Count(i, acts, Refuses)
                                    - Count(i, acts, PassesOn)
            && Run(i, acts).created == Count(i, acts, Creates)
  {
    if acts != [] {
      var k := |acts| - 1;
      var s := Run(Init(cap, max, threads), acts[..k]);
      ItemsBalance(cap, max, threads, acts[..k]);
      WantsRun(cap, max, threads, acts[..k]);
      if acts[k].Go? { GoOk(s, acts[k].t, acts[k].fail); } else { CallOk(s, acts[k]); }
    }
  }

  // ---- When an item may be created ----

  /** The step is a look of thread t that finds the ring empty. */
  predicate LooksInVain(s: Pool, a: Act, t: nat) {
    && a.Go? && a.t == t < |s.ring.th| && s.ring.th[t].DeqSeq?
    && t < |Step(s, a).ring.th| && Step(s, a).ring.th[t] == R.Idle
  }

  /** The looks in vain that thread t has made since it last called. */
  function Looks(s: Pool, acts: seq<Act>, t: nat): nat {
    if acts == [] then 0
    else
      var k := |acts| - 1;
      var u := Run(s, acts[..k]);
      if acts[k] == Get(t) && Free(u, t) then 0
      else Looks(s, acts[..k], t) + One(LooksInVain(u, acts[k], t))
  }

  predicate LooksFit(w: Want, n: nat) {
    (w == First ==> n == 0) && (w == Second ==> n == 1) && (w == Decide ==> n == 2) && (w == Blocked ==> n >= 2)
  }

  lemma LookStep(s: Pool, a: Act, t: nat, n: nat)
    requires R.Shape(s.ring) && WantsOk(s) && t < |s.want| && LooksFit(s.want[t], n)
    ensures var m := if a == Get(t) && Free(s, t) then 0 else n + One(LooksInVain(s, a, t));
            t < |Step(s, a).want| && LooksFit(Step(s, a).want[t], m)
  {
    assert WantOk(s.ring.th[t], s.want[t]);
    if a.Go? && a.t == t { SameSide(s.ring, t, if a.fail then R.Fail else R.Go); }
  }

  /** A receive makes an item, or blocks, only after it has found the ring empty twice. */
  lemma {:induction false} TwoLooksFirst(cap: nat, max: nat, threads: nat, acts: seq<Act>, t: nat)
    requires 2 <= cap && max <= cap && t < threads
    ensures var i := Init(cap, max, threads);
            t < |Run(i, acts).want| && LooksFit(Run(i, acts).want[t], Looks(i, acts, t))
  {
    if acts != [] {
      var k := |acts| - 1;
      TwoLooksFirst(cap, max, threads, acts[..k], t);
      WantsRun(cap, max, threads, acts[..k]);
      LookStep(Run(Init(cap, max, threads), acts[..k]), acts[k], t, Looks(Init(cap, max, threads), acts[..k], t));
    }
  }

  /** A receive goes on: it looks again after its first look, decides after its second, makes an item while
      fewer than the limit exist and blocks otherwise; a blocked one keeps looking. */
  lemma ReceiveGoesOn(s: Pool, t: nat, fail: bool)
    requires R.Shape(s.ring) && WantsOk(s) && t < |s.want| && s.ring.th[t] == R.Idle
    ensures var p := Step(s, Go(t, fail));
            && |p.want| == |s.want| == |p.ring.th|
            && (s.want[t] == Second || s.want[t] == Blocked ==>
                  p.ring.th[t] == R.DeqHead(R.Plain) && p.want == s.want)
            && (s.want[t] == Decide ==>
                  p.ring == s.ring && (p.want[t] == if s.created < s.max then Out else Blocked))
            && (s.want[t] == Out ==> p == s)
  {
  }
}
