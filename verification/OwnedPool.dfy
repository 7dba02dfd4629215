/**
The owned pool: a ring channel whose receive creates an item when the ring looks empty and fewer than
`max` items exist.  The pool runs on the ring of MpmcRing, one atomic access at a time, so a
receive that looks in vain, a creation and a return may interleave in every way.
*/
module OwnedPool {
  import R = MpmcRing
  import Slots

  /** Where a receive stands. */
  datatype Want =
    | Out        // no receive in progress
    | First      // first try
    | Second     // second try
    | Decide     // about to lock: create an item or block
    | Blocked    // ordinary receive: keeps trying

  /** `held` is the number of items in callers' hands. */
  datatype Pool = Pool(ring: R.Ring, max: nat, created: nat, held: nat, want: seq<Want>)

  datatype Act =
    | Get(t: nat)
    | Put(t: nat)                  // return an item that the caller holds
    | Handoff(t: nat, u: nat)      // a return that finds the blocked receiver u hands it the item
    | Go(t: nat, fail: bool)

  function Init(cap: nat, max: nat, threads: nat): Pool {
    Pool(R.Init(cap, threads), max, 0, 0, seq(threads, i => Out))
  }

  predicate Shape(s: Pool) {
    R.Shape(s.ring) && |s.want| == |s.ring.th|
  }

  predicate Free(s: Pool, t: nat) {
    Shape(s) && t < |s.want| && s.want[t] == Out && s.ring.th[t] == R.Idle
  }

  function Missed(w: Want): Want {
    match w
    case First => Second
    case Second => Decide
    case _ => w
  }

  /** One access of thread t to the ring, and what its outcome means for the pool. */
  function RingStep(s: Pool, t: nat, fail: bool): Pool
    requires Shape(s) && t < |s.want|
  {
    var was := s.ring.th[t];
    var ring := R.Step(s.ring, R.Act(t, if fail then R.Fail else R.Go));
    var p := s.(ring := ring);
    if t >= |ring.th| || ring.th[t] != R.Idle then p
    else if was.DeqRelease? then p.(held := s.held + 1, want := s.want[t := Out])
    else if was.DeqSeq? then p.(want := s.want[t := Missed(s.want[t])])
    else if was.EnqSeq? then p.(held := s.held + 1)      // full: the caller still has its item
    else p
  }

  function DecideStep(s: Pool, t: nat): Pool
    requires t < |s.want|
  {
    if s.created < s.max then s.(created := s.created + 1, held := s.held + 1, want := s.want[t := Out])
    else s.(want := s.want[t := Blocked])
  }

  function Step(s: Pool, a: Act): Pool {
    if !Shape(s) then s else
    match a
    case Get(t) =>
      if Free(s, t) then s.(ring := R.Step(s.ring, R.Act(t, R.Receive)), want := s.want[t := First]) else s
    case Put(t) =>
      if Free(s, t) && s.held > 0 then s.(ring := R.Step(s.ring, R.Act(t, R.Send(0))), held := s.held - 1) else s
    case Handoff(t, u) =>
      if Free(s, t) && s.held > 0 && u < |s.want| && s.want[u] == Blocked && s.ring.th[u] == R.Idle then
        s.(want := s.want[u := Out])
      else s
    case Go(t, fail) =>
      if t >= |s.want| then s
      else if s.ring.th[t] != R.Idle then RingStep(s, t, fail)
      else if s.want[t] == Decide then DecideStep(s, t)
      else if s.want[t] == Second || s.want[t] == Blocked then s.(ring := R.Step(s.ring, R.Act(t, R.Receive)))
      else s
  }

  function Run(s: Pool, acts: seq<Act>): Pool {
    if acts == [] then s else Step(Run(s, acts[..|acts| - 1]), acts[|acts| - 1])
  }

  // ---- Accounting ----

  /** A thread that carries an item: on its way into the ring, or taken from it and not yet handed out. */
  function Carries(pc: R.Pc): nat {
    if pc.EnqTail? || pc.EnqSeq? || pc.EnqCas? || pc.DeqRead? || pc.DeqRelease? then 1 else 0
  }

  function Sum(th: seq<R.Pc>): nat {
    if th == [] then 0 else Sum(th[..|th| - 1]) + Carries(th[|th| - 1])
  }

  lemma {:induction false} SumUpdate(th: seq<R.Pc>, t: nat, pc: R.Pc)
    requires t < |th|
    ensures Sum(th[t := pc]) == Sum(th) - Carries(th[t]) + Carries(pc)
  {
    var n := |th| - 1;
    if t == n {
      assert th[t := pc][..n] == th[..n];
    } else {
      SumUpdate(th[..n], t, pc);
      assert th[t := pc][..n] == th[..n][t := pc];
    }
  }

  lemma {:induction false} SumAtLeast(th: seq<R.Pc>, t: nat)
    requires t < |th|
    ensures Sum(th) >= Carries(th[t])
  {
    if t < |th| - 1 { SumAtLeast(th[..|th| - 1], t); }
  }

  lemma {:induction false} SumZero(n: nat)
    ensures Sum(seq(n, i => R.Idle)) == 0
  {
    if n > 0 {
      SumZero(n - 1);
      assert seq(n, i => R.Idle)[..n - 1] == seq(n - 1, i => R.Idle);
    }
  }

  /** Items in the ring, or carried by a thread. */
  function Inside(r: R.Ring): int {
    Sum(r.th) + (r.tail - r.head)
  }

  /** Items that leave the ring's threads with this access: one is handed out, or one could not be put. */
  function Leaves(was: R.Pc, now: R.Pc): int {
    if now == R.Idle && (was.DeqRelease? || was.EnqSeq?) then 1 else 0
  }

  /** A ring step changes one thread. */
  lemma OneThread(r: R.Ring, a: R.Act)
    requires R.Shape(r) && a.t < |r.th|
    ensures var q := R.Step(r, a);
            |q.th| == |r.th| && q.th == r.th[a.t := q.th[a.t]] && q.cap == r.cap
  {
    var q := R.Step(r, a);
    forall u | 0 <= u < |r.th| && u != a.t ensures q.th[u] == r.th[u] { R.StepKeeps(r, a, u); }
  }

  /** What a step of a busy thread does to the indices and to what the thread carries. */
  lemma ThreadBalance(r: R.Ring, t: nat, c: R.Choice)
    requires R.Inv(r) && t < |r.th| && r.th[t] != R.Idle && c != R.GiveUp
    ensures var q := R.Step(r, R.Act(t, c));
            Carries(q.th[t]) + (q.tail - q.head) == Carries(r.th[t]) + (r.tail - r.head) - Leaves(r.th[t], q.th[t])
  {
    var q, a := R.Step(r, R.Act(t, c)), R.Act(t, c);
    assert R.ThreadInv(r, t);
    match r.th[t]
    case EnqSeq(v, pos) => assert q == R.EnqSeqStep(r, t, v, pos);
    case EnqCas(v, pos) => assert q == R.EnqCasStep(r, a, v, pos);
    case EnqWrite(v, pos) => assert q == R.EnqWriteStep(r, t, v, pos);
    case DeqSeq(k, pos) => assert q == R.DeqSeqStep(r, t, k, pos);
    case DeqCas(k, pos) => assert q == R.DeqCasStep(r, a, k, pos);
    case DeqRead(k, pos) => assert q == R.DeqReadStep(r, t, k, pos);
    case DeqRelease(_, pos, _) => assert q == R.DeqReleaseStep(r, t, pos);
    case ResHead(m, x) => assert q == R.ResHeadStep(r, a, m, x);
    case _ =>
  }

  lemma RingBalance(r: R.Ring, t: nat, c: R.Choice)
    requires R.Inv(r) && t < |r.th| && r.th[t] != R.Idle && c != R.GiveUp
    ensures var q := R.Step(r, R.Act(t, c));
            |q.th| == |r.th| && Inside(q) == Inside(r) - Leaves(r.th[t], q.th[t])
  {
    OneThread(r, R.Act(t, c));
    SumUpdate(r.th, t, R.Step(r, R.Act(t, c)).th[t]);
    ThreadBalance(r, t, c);
  }

  lemma StartBalance(r: R.Ring, t: nat, c: R.Choice)
    requires R.Inv(r) && t < |r.th| && r.th[t] == R.Idle && (c.Send? || c.Receive?)
    ensures var q := R.Step(r, R.Act(t, c));
            |q.th| == |r.th| && Inside(q) == Inside(r) + (if c.Send? then 1 else 0)
  {
    OneThread(r, R.Act(t, c));
    SumUpdate(r.th, t, R.Step(r, R.Act(t, c)).th[t]);
  }

  ghost predicate Inv(s: Pool) {
    && R.Inv(s.ring) && |s.want| == |s.ring.th|
    && s.created <= s.max <= s.ring.cap
    && s.created == s.held + Inside(s.ring)
  }

  lemma RingStepInv(s: Pool, t: nat, fail: bool)
    requires Inv(s) && t < |s.want| && s.ring.th[t] != R.Idle
    ensures Inv(RingStep(s, t, fail))
  {
    var c := if fail then R.Fail else R.Go;
    R.StepInv(s.ring, R.Act(t, c));
    OneThread(s.ring, R.Act(t, c));
    RingBalance(s.ring, t, c);
  }

  lemma StartInv(s: Pool, t: nat, c: R.Choice)
    requires Inv(s) && t < |s.want| && s.ring.th[t] == R.Idle && (c.Receive? || (c.Send? && s.held > 0))
    ensures Inv(s.(ring := R.Step(s.ring, R.Act(t, c)), held := if c.Send? then s.held - 1 else s.held))
  {
    R.StepInv(s.ring, R.Act(t, c));
    OneThread(s.ring, R.Act(t, c));
    StartBalance(s.ring, t, c);
  }

  lemma StepInv(s: Pool, a: Act)
    requires Inv(s)
    ensures Inv(Step(s, a))
  {
    match a
    case Get(t) => if Free(s, t) { StartInv(s, t, R.Receive); }
    case Put(t) => if Free(s, t) && s.held > 0 { StartInv(s, t, R.Send(0)); }
    case Handoff(_, _) =>
    case Go(t, fail) =>
      if t < |s.want| {
        if s.ring.th[t] != R.Idle {
          RingStepInv(s, t, fail);
        } else if s.want[t] == Second || s.want[t] == Blocked {
          StartInv(s, t, R.Receive);
        }
      }
  }

  lemma {:induction false} RunInv(s: Pool, acts: seq<Act>)
    requires Inv(s)
    ensures Inv(Run(s, acts))
  {
    if acts != [] {
      RunInv(s, acts[..|acts| - 1]);
      StepInv(Run(s, acts[..|acts| - 1]), acts[|acts| - 1]);
    }
  }

  /** Reached by some interleaving of some number of threads on a pool of some size. */
  ghost predicate Reachable(s: Pool) {
    exists cap: nat, max: nat, threads: nat, acts: seq<Act> ::
      2 <= cap && max <= cap && s == Run(Init(cap, max, threads), acts)
  }

  lemma ReachableInv(s: Pool)
    requires Reachable(s)
    ensures Inv(s)
  {
    var cap: nat, max: nat, threads: nat, acts: seq<Act> :|
      2 <= cap && max <= cap && s == Run(Init(cap, max, threads), acts);
    R.InitInv(cap, threads);
    SumZero(threads);
    RunInv(Init(cap, max, threads), acts);
  }

  // ---- What every run guarantees ----

  /** Never more than `max` items, and every item is held, carried or in the ring. */
  lemma ItemsAccountedFor(s: Pool)
    requires Reachable(s)
    ensures s.created <= s.max <= s.ring.cap
    ensures s.created == s.held + Sum(s.ring.th) + (s.ring.tail - s.ring.head)
  {
    ReachableInv(s);
  }

  /** While somebody is returning an item the ring holds fewer than `max` items: there is always room for it. */
  lemma AlwaysRoom(s: Pool, t: nat)
    requires Reachable(s) && t < |s.ring.th| && Carries(s.ring.th[t]) == 1
    ensures s.ring.tail - s.ring.head < s.max <= s.ring.cap
  {
    ReachableInv(s);
    SumAtLeast(s.ring.th, t);
  }

  /** A receiver has claimed the position one lap behind the tail and not yet released its cell. */
  ghost predicate Stalled(r: R.Ring) {
    r.tail >= r.cap && exists u: nat :: u < |r.th| && R.Reading(r.th[u], r.tail - r.cap)
  }

  lemma StalledOwns(r: R.Ring, u: nat)
    requires R.Inv(r) && u < |r.th| && r.tail >= r.cap && R.Reading(r.th[u], r.tail - r.cap)
    ensures r.turn[Slots.Slot(r.tail, r.cap)] == r.tail - r.cap
  {
    assert R.ThreadInv(r, u);
    Slots.SlotNext(r.tail - r.cap, r.cap);
  }

  lemma RingFullIff(r: R.Ring, t: nat, v: R.Value, pos: nat)
    requires R.Inv(r) && t < |r.th| && r.th[t] == R.EnqSeq(v, pos) && r.tail < r.head + r.cap
    ensures R.Step(r, R.Act(t, R.Go)).th[t] == R.Idle <==> pos == r.tail && Stalled(r)
  {
    R.FullIsExact(r, t, v, pos);
    if Stalled(r) {
      var u: nat :| u < |r.th| && R.Reading(r.th[u], r.tail - r.cap);
      StalledOwns(r, u);
    }
  }

  /**
  Nevertheless a return can be told "full".  It happens exactly when the receiver that claimed the
  position one lap behind the tail has not released its cell yet.
  */
  lemma FullIffStalledReceiver(s: Pool, t: nat)
    requires Reachable(s) && t < |s.ring.th| && s.ring.th[t].EnqSeq?
    ensures R.Shape(s.ring)
    ensures R.Step(s.ring, R.Act(t, R.Go)).th[t] == R.Idle <==> s.ring.th[t].pos == s.ring.tail && Stalled(s.ring)
  {
    ReachableInv(s);
    AlwaysRoom(s, t);
    RingFullIff(s.ring, t, s.ring.th[t].v, s.ring.th[t].pos);
  }

  // ---- A return that is told "full" although the ring is empty ----

  /** Reached with two threads on a pool of two items. */
  ghost predicate Seen(s: Pool) {
    exists acts: seq<Act> :: Run(Init(2, 2, 2), acts) == s
  }

  lemma Hop(s: Pool, a: Act, t: Pool)
    requires Seen(s) && t == Step(s, a)
    ensures Seen(t)
  {
    var acts: seq<Act> :| Run(Init(2, 2, 2), acts) == s;
    assert (acts + [a])[..|acts|] == acts;
    assert Run(Init(2, 2, 2), acts + [a]) == t;
  }

  /** Nothing has been put yet; thread 0 is at pc with request w; n items exist and are held. */
  function Fresh(pc: R.Pc, w: Want, n: nat): Pool {
    Pool(R.Ring(2, [R.Cell(0, 0), R.Cell(1, 0)], 0, 0, [pc, R.Idle], [0, 1], [], [], map[]), 2, n, n, [w, Out])
  }

  /** A try that finds the ring empty. */
  lemma TryInVain(w: Want, n: nat)
    requires Seen(Fresh(R.DeqHead(R.Plain), w, n))
    ensures Seen(Fresh(R.Idle, Missed(w), n))
  {
    Hop(Fresh(R.DeqHead(R.Plain), w, n), Go(0, false), Fresh(R.DeqSeq(R.Plain, 0), w, n));
    Hop(Fresh(R.DeqSeq(R.Plain, 0), w, n), Go(0, false), Fresh(R.Idle, Missed(w), n));
  }

  lemma CreateOne(n: nat)
    requires n < 2 && Seen(Fresh(R.Idle, Out, n))
    ensures Seen(Fresh(R.Idle, Out, n + 1))
  {
    Hop(Fresh(R.Idle, Out, n), Get(0), Fresh(R.DeqHead(R.Plain), First, n));
    TryInVain(First, n);
    Hop(Fresh(R.Idle, Second, n), Go(0, false), Fresh(R.DeqHead(R.Plain), Second, n));
    TryInVain(Second, n);
    Hop(Fresh(R.Idle, Decide, n), Go(0, false), Fresh(R.Idle, Out, n + 1));
  }

  /** Thread 0 has put n items and is at pc with the next; c0, c1 are the sequence numbers. */
  function Putting(pc: R.Pc, c0: nat, c1: nat, tail: nat, held: nat, puts: seq<R.Put>): Pool {
    Pool(R.Ring(2, [R.Cell(c0, 0), R.Cell(c1, 0)], 0, tail, [pc, R.Idle], [0, 1], puts, [], map[]),
         2, 2, held, [Out, Out])
  }

  lemma CreateBoth()
    ensures Seen(Putting(R.Idle, 0, 1, 0, 2, []))
  {
    assert Run(Init(2, 2, 2), []) == Fresh(R.Idle, Out, 0);
    CreateOne(0);
    CreateOne(1);
    assert Fresh(R.Idle, Out, 2) == Putting(R.Idle, 0, 1, 0, 2, []);
  }

  lemma ClaimFirstCell()
    ensures Seen(Putting(R.EnqCas(0, 0), 0, 1, 0, 1, []))
  {
    CreateBoth();
    Hop(Putting(R.Idle, 0, 1, 0, 2, []), Put(0), Putting(R.EnqTail(0), 0, 1, 0, 1, []));
    Hop(Putting(R.EnqTail(0), 0, 1, 0, 1, []), Go(0, false), Putting(R.EnqSeq(0, 0), 0, 1, 0, 1, []));
    Hop(Putting(R.EnqSeq(0, 0), 0, 1, 0, 1, []), Go(0, false), Putting(R.EnqCas(0, 0), 0, 1, 0, 1, []));
  }

  lemma FillFirstCell()
    ensures Seen(Putting(R.Idle, 1, 1, 1, 1, [R.Put(0, 0, 0)]))
  {
    ClaimFirstCell();
    var p := [R.Put(0, 0, 0)];
    Hop(Putting(R.EnqCas(0, 0), 0, 1, 0, 1, []), Go(0, false), Putting(R.EnqWrite(0, 0), 0, 1, 1, 1, p));
    Hop(Putting(R.EnqWrite(0, 0), 0, 1, 1, 1, p), Go(0, false), Putting(R.EnqPublish(0, 0), 0, 1, 1, 1, p));
    Hop(Putting(R.EnqPublish(0, 0), 0, 1, 1, 1, p), Go(0, false), Putting(R.Idle, 1, 1, 1, 1, p));
  }

  lemma ClaimSecondCell()
    ensures Seen(Putting(R.EnqCas(0, 1), 1, 1, 1, 0, [R.Put(0, 0, 0)]))
  {
    FillFirstCell();
    var p := [R.Put(0, 0, 0)];
    Hop(Putting(R.Idle, 1, 1, 1, 1, p), Put(0), Putting(R.EnqTail(0), 1, 1, 1, 0, p));
    Hop(Putting(R.EnqTail(0), 1, 1, 1, 0, p), Go(0, false), Putting(R.EnqSeq(0, 1), 1, 1, 1, 0, p));
    Hop(Putting(R.EnqSeq(0, 1), 1, 1, 1, 0, p), Go(0, false), Putting(R.EnqCas(0, 1), 1, 1, 1, 0, p));
  }

  lemma FillSecondCell()
    ensures Seen(Putting(R.Idle, 1, 2, 2, 0, [R.Put(0, 0, 0), R.Put(0, 1, 0)]))
  {
    ClaimSecondCell();
    var p, q := [R.Put(0, 0, 0)], [R.Put(0, 0, 0), R.Put(0, 1, 0)];
    Hop(Putting(R.EnqCas(0, 1), 1, 1, 1, 0, p), Go(0, false), Putting(R.EnqWrite(0, 1), 1, 1, 2, 0, q));
    Hop(Putting(R.EnqWrite(0, 1), 1, 1, 2, 0, q), Go(0, false), Putting(R.EnqPublish(0, 1), 1, 1, 2, 0, q));
    Hop(Putting(R.EnqPublish(0, 1), 1, 1, 2, 0, q), Go(0, false), Putting(R.Idle, 1, 2, 2, 0, q));
  }

  /** Both items are in the ring; the threads are at a and b. */
  function Taking(a: R.Pc, b: R.Pc, wa: Want, wb: Want, head: nat, takes: seq<R.Take>): Pool {
    Pool(R.Ring(2, [R.Cell(1, 0), R.Cell(2, 0)], head, 2, [a, b], [0, 1],
                [R.Put(0, 0, 0), R.Put(0, 1, 0)], takes, map[]), 2, 2, 0, [wa, wb])
  }

  lemma LookForFirst()
    ensures Seen(Taking(R.DeqSeq(R.Plain, 0), R.Idle, First, Out, 0, []))
  {
    FillSecondCell();
    assert Putting(R.Idle, 1, 2, 2, 0, [R.Put(0, 0, 0), R.Put(0, 1, 0)]) == Taking(R.Idle, R.Idle, Out, Out, 0, []);
    var k := R.Plain;
    Hop(Taking(R.Idle, R.Idle, Out, Out, 0, []), Get(0), Taking(R.DeqHead(k), R.Idle, First, Out, 0, []));
    Hop(Taking(R.DeqHead(k), R.Idle, First, Out, 0, []), Go(0, false),
        Taking(R.DeqSeq(k, 0), R.Idle, First, Out, 0, []));
  }

  lemma FirstSteps()
    ensures var k := R.Plain;
            && Step(Taking(R.DeqSeq(k, 0), R.Idle, First, Out, 0, []), Go(0, false))
               == Taking(R.DeqCas(k, 0), R.Idle, First, Out, 0, [])
            && Step(Taking(R.DeqCas(k, 0), R.Idle, First, Out, 0, []), Go(0, false))
               == Taking(R.DeqRead(k, 0), R.Idle, First, Out, 1, [R.Take(0, 0)])
  {
  }

  /** Thread 0 claims position 0 and stalls before it reads. */
  lemma ClaimFirst()
    ensures Seen(Taking(R.DeqRead(R.Plain, 0), R.Idle, First, Out, 1, [R.Take(0, 0)]))
  {
    LookForFirst();
    var k := R.Plain;
    FirstSteps();
    Hop(Taking(R.DeqSeq(k, 0), R.Idle, First, Out, 0, []), Go(0, false),
        Taking(R.DeqCas(k, 0), R.Idle, First, Out, 0, []));
    Hop(Taking(R.DeqCas(k, 0), R.Idle, First, Out, 0, []), Go(0, false),
        Taking(R.DeqRead(k, 0), R.Idle, First, Out, 1, [R.Take(0, 0)]));
  }

  lemma LookForOther()
    ensures Seen(Taking(R.DeqRead(R.Plain, 0), R.DeqSeq(R.Plain, 1), First, First, 1, [R.Take(0, 0)]))
  {
    ClaimFirst();
    var k, r, p := R.Plain, R.DeqRead(R.Plain, 0), [R.Take(0, 0)];
    Hop(Taking(r, R.Idle, First, Out, 1, p), Get(1), Taking(r, R.DeqHead(k), First, First, 1, p));
    Hop(Taking(r, R.DeqHead(k), First, First, 1, p), Go(1, false), Taking(r, R.DeqSeq(k, 1), First, First, 1, p));
  }

  lemma OtherSteps(r: R.Pc, p: seq<R.Take>)
    requires r == R.DeqRead(R.Plain, 0) && p == [R.Take(0, 0)]
    ensures var k := R.Plain;
            && Step(Taking(r, R.DeqSeq(k, 1), First, First, 1, p), Go(1, false))
               == Taking(r, R.DeqCas(k, 1), First, First, 1, p)
            && Step(Taking(r, R.DeqCas(k, 1), First, First, 1, p), Go(1, false))
               == Taking(r, R.DeqRead(k, 1), First, First, 2, p + [R.Take(1, 1)])
  {
  }

  lemma ClaimOther()
    ensures Seen(Taking(R.DeqRead(R.Plain, 0), R.DeqRead(R.Plain, 1), First, First, 2, [R.Take(0, 0), R.Take(1, 1)]))
  {
    LookForOther();
    var k, r, p := R.Plain, R.DeqRead(R.Plain, 0), [R.Take(0, 0)];
    var q := p + [R.Take(1, 1)];
    OtherSteps(r, p);
    Hop(Taking(r, R.DeqSeq(k, 1), First, First, 1, p), Go(1, false), Taking(r, R.DeqCas(k, 1), First, First, 1, p));
    Hop(Taking(r, R.DeqCas(k, 1), First, First, 1, p), Go(1, false), Taking(r, R.DeqRead(k, 1), First, First, 2, q));
  }

  /** Thread 1 has read the other item and is at pc; its cell has sequence number c and belongs to position p. */
  function Returning(pc: R.Pc, c: nat, p: nat, held: nat, w: Want): Pool {
    Pool(R.Ring(2, [R.Cell(1, 0), R.Cell(c, 0)], 2, 2, [R.DeqRead(R.Plain, 0), pc], [0, p],
                [R.Put(0, 0, 0), R.Put(0, 1, 0)], [R.Take(0, 0), R.Take(1, 1)], map[1 := 0]), 2, 2, held, [First, w])
  }

  /** The scene: thread 1 is about to return the item it holds. */
  function Scene(): Pool {
    Returning(R.EnqSeq(0, 2), 3, 3, 0, Out)
  }

  lemma TakeSteps(p: seq<R.Take>)
    requires p == [R.Take(0, 0), R.Take(1, 1)]
    ensures Step(Taking(R.DeqRead(R.Plain, 0), R.DeqRead(R.Plain, 1), First, First, 2, p), Go(1, false))
            == Returning(R.DeqRelease(R.Plain, 1, 0), 2, 1, 0, First)
    ensures Step(Returning(R.DeqRelease(R.Plain, 1, 0), 2, 1, 0, First), Go(1, false))
            == Returning(R.Idle, 3, 3, 1, Out)
  {
  }

  lemma TakeOther()
    ensures Seen(Returning(R.Idle, 3, 3, 1, Out))
  {
    ClaimOther();
    var p := [R.Take(0, 0), R.Take(1, 1)];
    TakeSteps(p);
    Hop(Taking(R.DeqRead(R.Plain, 0), R.DeqRead(R.Plain, 1), First, First, 2, p),
        Go(1, false), Returning(R.DeqRelease(R.Plain, 1, 0), 2, 1, 0, First));
    Hop(Returning(R.DeqRelease(R.Plain, 1, 0), 2, 1, 0, First), Go(1, false), Returning(R.Idle, 3, 3, 1, Out));
  }

  lemma ReturnOther()
    ensures Seen(Scene())
  {
    TakeOther();
    Hop(Returning(R.Idle, 3, 3, 1, Out), Put(1), Returning(R.EnqTail(0), 3, 3, 0, Out));
    Hop(Returning(R.EnqTail(0), 3, 3, 0, Out), Go(1, false), Scene());
  }

  /** The return finds the ring empty and is told that it is full. */
  lemma ReturnFindsFull()
    ensures var s := Scene();
            && Seen(s) && s.created == s.max && s.ring.tail == s.ring.head
            && Step(s, Go(1, false)) == Returning(R.Idle, 3, 3, 1, Out)
  {
    ReturnOther();
  }
}
