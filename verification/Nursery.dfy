/**
The nursery barrier in worker-frees mode.  The owner spawns children and then waits; a living child
may spawn into the same nursery; every spawn may fail after it has raised the count.  The worker that
finishes a child lowers the count and, on the last one, bumps the counter that the wait sleeps on.
One action is one atomic access.
*/
module Nursery {
  /** A child, followed by the worker that finishes it. */
  datatype Kid =
    | Running
    | Enqueue      // spawning: count raised, enqueue the new fiber
    | Undo         // the spawn failed: lower the count again
    | Dead         // returned: lower the count
    | Wake         // the count was 1: bump the wake counter
    | Gone

  datatype Owner =
    | Free
    | OEnqueue
    | OUndo
    | LoadGen
    | LoadAlive(gen: nat)
    | Asleep(gen: nat)
    | Closing(i: nat)    // past the barrier: channels below i are closed
    | Done

  datatype State = State(alive: int, gen: nat, closed: nat, chans: nat, owner: Owner, kids: seq<Kid>)

  /** What a thread does next where it has a choice; `ok` tells whether an enqueue succeeds. */
  datatype Choice = Spawn | Leave | Enq(ok: bool) | Spurious

  datatype Act = OwnerAct(c: Choice) | KidAct(k: nat, c: Choice)

  function Init(chans: nat): State {
    State(0, 0, 0, chans, Free, [])
  }

  function OwnerStep(s: State, c: Choice): State {
    match s.owner
    case Free => if c == Spawn then s.(alive := s.alive + 1, owner := OEnqueue) else s.(owner := LoadGen)
    case OEnqueue => if c == Enq(true) then s.(owner := Free, kids := s.kids + [Running]) else s.(owner := OUndo)
    case OUndo => s.(alive := s.alive - 1, owner := Free)
    case LoadGen => s.(owner := LoadAlive(s.gen))
    case LoadAlive(g) => s.(owner := if s.alive == 0 then Closing(0) else Asleep(g))
    case Asleep(g) => if s.gen != g || c == Spurious then s.(owner := LoadGen) else s
    case Closing(i) => if i < s.chans then s.(closed := s.closed + 1, owner := Closing(i + 1)) else s.(owner := Done)
    case Done => s
  }

  function SetKid(s: State, k: nat, pc: Kid): State
    requires k < |s.kids|
  {
    s.(kids := s.kids[k := pc])
  }

  function KidStep(s: State, k: nat, c: Choice): State
    requires k < |s.kids|
  {
    match s.kids[k]
    case Running => if c == Spawn then SetKid(s, k, Enqueue).(alive := s.alive + 1) else SetKid(s, k, Dead)
    case Enqueue =>
      if c == Enq(true) then var t := SetKid(s, k, Running); t.(kids := t.kids + [Running]) else SetKid(s, k, Undo)
    case Undo => SetKid(s, k, Running).(alive := s.alive - 1)
    case Dead => SetKid(s, k, if s.alive == 1 then Wake else Gone).(alive := s.alive - 1)
    case Wake => SetKid(s, k, Gone).(gen := s.gen + 1)
    case Gone => s
  }

  function Step(s: State, a: Act): State {
    match a
    case OwnerAct(c) => OwnerStep(s, c)
    case KidAct(k, c) => if k < |s.kids| then KidStep(s, k, c) else s
  }

  function Run(chans: nat, acts: seq<Act>): State {
    if acts == [] then Init(chans) else Step(Run(chans, acts[..|acts| - 1]), acts[|acts| - 1])
  }

  // ---- The invariant ----

  /** What a child holds of the count: itself, and the spawn it is in the middle of. */
  function Held(k: Kid): nat {
    match k
    case Running => 1
    case Enqueue => 2
    case Undo => 2
    case Dead => 1
    case Wake => 0
    case Gone => 0
  }

  function Sum(kids: seq<Kid>): nat {
    if kids == [] then 0 else Sum(kids[..|kids| - 1]) + Held(kids[|kids| - 1])
  }

  function OwnerHeld(o: Owner): nat {
    if o == OEnqueue || o == OUndo then 1 else 0
  }

  predicate Past(o: Owner) {
    o.Closing? || o.Done?
  }

  ghost predicate WakePending(s: State) {
    exists k: nat :: k < |s.kids| && s.kids[k] == Wake
  }

  ghost predicate Inv(s: State) {
    && s.alive == Sum(s.kids) + OwnerHeld(s.owner)
    && (Past(s.owner) ==> s.alive == 0)
    && (s.owner.Asleep? && s.owner.gen == s.gen ==> s.alive > 0 || WakePending(s))
    && (s.owner.LoadAlive? ==> s.owner.gen <= s.gen)
    && (s.owner.Asleep? ==> s.owner.gen <= s.gen)
    && (s.owner.Closing? ==> s.closed == s.owner.i <= s.chans)
    && (s.owner.Done? ==> s.closed == s.chans)
    && (s.closed > 0 ==> Past(s.owner))
  }

  lemma {:induction false} SumUpdate(kids: seq<Kid>, k: nat, pc: Kid)
    requires k < |kids|
    ensures Sum(kids[k := pc]) == Sum(kids) - Held(kids[k]) + Held(pc)
  {
    var n := |kids| - 1;
    if k == n {
      assert kids[k := pc][..n] == kids[..n];
    } else {
      SumUpdate(kids[..n], k, pc);
      assert kids[k := pc][..n] == kids[..n][k := pc];
    }
  }

  lemma SumAppend(kids: seq<Kid>, pc: Kid)
    ensures Sum(kids + [pc]) == Sum(kids) + Held(pc)
  {
    assert (kids + [pc])[..|kids|] == kids;
  }

  lemma {:induction false} SumAtLeast(kids: seq<Kid>, k: nat)
    requires k < |kids|
    ensures Sum(kids) >= Held(kids[k])
  {
    if k < |kids| - 1 { SumAtLeast(kids[..|kids| - 1], k); }
  }

  lemma OwnerInv(s: State, c: Choice)
    requires Inv(s)
    ensures Inv(OwnerStep(s, c))
  {
    var t := OwnerStep(s, c);
    SumAppend(s.kids, Running);
    if t.owner.Asleep? && s.owner.Asleep? && WakePending(s) {
      var w: nat :| w < |s.kids| && s.kids[w] == Wake;
      assert t.kids[w] == Wake;
    }
  }

  /** The count is raised and lowered with what the child holds of it. */
  lemma KidCount(s: State, k: nat, c: Choice)
    requires k < |s.kids|
    ensures var t := KidStep(s, k, c); t.alive - Sum(t.kids) == s.alive - Sum(s.kids)
  {
    var t := KidStep(s, k, c);
    if s.kids[k] == Enqueue && c == Enq(true) {
      SumUpdate(s.kids, k, Running);
      SumAppend(s.kids[k := Running], Running);
    } else {
      SumUpdate(s.kids, k, t.kids[k]);
    }
  }

  lemma KidInv(s: State, k: nat, c: Choice)
    requires Inv(s) && k < |s.kids|
    ensures Inv(KidStep(s, k, c))
  {
    var t := KidStep(s, k, c);
    KidCount(s, k, c);
    SumAtLeast(s.kids, k);
    if t.owner.Asleep? && t.owner.gen == t.gen && t.alive == 0 {
      if s.alive == 0 && WakePending(s) {
        var w: nat :| w < |s.kids| && s.kids[w] == Wake;
        assert t.kids[w] == Wake;
      } else {
        assert t.kids[k] == Wake;
      }
    }
  }

  lemma {:induction false} RunInv(chans: nat, acts: seq<Act>)
    ensures Inv(Run(chans, acts))
  {
    if acts != [] {
      var n := |acts| - 1;
      var s := Run(chans, acts[..n]);
      RunInv(chans, acts[..n]);
      match acts[n]
      case OwnerAct(c) => OwnerInv(s, c);
      case KidAct(k, c) => if k < |s.kids| { KidInv(s, k, c); }
    }
  }

  // ---- What every run guarantees ----

  /** A child that has told the nursery it is done. */
  predicate Notified(k: Kid) {
    k == Wake || k == Gone
  }

  function Count(kids: seq<Kid>, p: Kid -> bool): nat {
    if kids == [] then 0 else Count(kids[..|kids| - 1], p) + (if p(kids[|kids| - 1]) then 1 else 0)
  }

  lemma {:induction false} SumSplits(kids: seq<Kid>)
    ensures Sum(kids) == |kids| - Count(kids, k => Notified(k)) + Count(kids, k => k == Enqueue || k == Undo)
  {
    if kids != [] { SumSplits(kids[..|kids| - 1]); }
  }

  /** The count is children spawned minus children notified, plus the spawns that have raised it and not finished. */
  lemma {:induction false} AliveIsOutstanding(chans: nat, acts: seq<Act>)
    ensures var s := Run(chans, acts);
            s.alive == |s.kids| - Count(s.kids, k => Notified(k))
                       + Count(s.kids, k => k == Enqueue || k == Undo) + OwnerHeld(s.owner)
  {
    RunInv(chans, acts);
    SumSplits(Run(chans, acts).kids);
  }

  lemma {:induction false} NoneHeld(kids: seq<Kid>, k: nat)
    requires Sum(kids) == 0 && k < |kids|
    ensures Notified(kids[k])
  {
    SumAtLeast(kids, k);
  }

  /**
  Once the barrier has let go every child ever spawned has notified, the count is zero and stays
  zero, and only then does wait close the owned channels.
  */
  lemma {:induction false} BarrierWaitsForAll(chans: nat, acts: seq<Act>, k: nat)
    requires Past(Run(chans, acts).owner) || Run(chans, acts).closed > 0
    ensures var s := Run(chans, acts); s.alive == 0 && (k < |s.kids| ==> Notified(s.kids[k]))
  {
    RunInv(chans, acts);
    var s := Run(chans, acts);
    if k < |s.kids| { NoneHeld(s.kids, k); }
  }

  /** When wait returns, every owned channel has been closed. */
  lemma {:induction false} WaitClosesAll(chans: nat, acts: seq<Act>)
    requires Run(chans, acts).owner == Done
    ensures Run(chans, acts).closed == chans
  {
    RunInv(chans, acts);
    ChansFixed(chans, acts);
  }

  lemma {:induction false} ChansFixed(chans: nat, acts: seq<Act>)
    ensures Run(chans, acts).chans == chans
  {
    if acts != [] { ChansFixed(chans, acts[..|acts| - 1]); }
  }

  /** The owner never stays asleep once the last notifier has finished. */
  lemma {:induction false} OwnerNotStranded(chans: nat, acts: seq<Act>)
    requires Run(chans, acts).owner.Asleep?
    requires forall k: nat :: k < |Run(chans, acts).kids| ==> Run(chans, acts).kids[k] == Gone
    ensures Run(chans, acts).gen != Run(chans, acts).owner.gen
  {
    RunInv(chans, acts);
    AllGone(Run(chans, acts).kids);
  }

  lemma {:induction false} AllGone(kids: seq<Kid>)
    requires forall k: nat :: k < |kids| ==> kids[k] == Gone
    ensures Sum(kids) == 0
  {
    if kids != [] {
      var n := |kids| - 1;
      forall k: nat | k < n ensures kids[..n][k] == Gone { assert kids[..n][k] == kids[k]; }
      AllGone(kids[..n]);
    }
  }

  /** A failed spawn by a child never takes the count to zero, so it needs no wake. */
  lemma {:induction false} FailedSpawnNotLast(chans: nat, acts: seq<Act>, k: nat)
    requires k < |Run(chans, acts).kids| && Run(chans, acts).kids[k] == Undo
    ensures Run(chans, acts).alive >= 2
  {
    RunInv(chans, acts);
    SumAtLeast(Run(chans, acts).kids, k);
  }

  // ---- An operation left alone ----

  function OwnerAlone(s: State, n: nat): State
    decreases n
  {
    if n == 0 then s else OwnerAlone(Step(s, OwnerAct(Leave)), n - 1)
  }

  /** Asleep on the value that the wake counter still has. */
  predicate Sound(s: State) {
    s.owner == Asleep(s.gen)
  }

  /** The owner gives back what it holds and waits: it sleeps while anybody is alive, and otherwise closes the
      owned channels and returns. */
  function OwnerEnd(s: State): State {
    var alive := s.alive - OwnerHeld(s.owner);
    if Sound(s) || s.owner == Done then s
    else if alive == 0 || s.owner.Closing? then s.(alive := alive, closed := s.chans, owner := Done)
    else s.(alive := alive, owner := Asleep(s.gen))
  }

  function OwnerRank(s: State): nat {
    match s.owner
    case OEnqueue => s.chans + 9
    case OUndo => s.chans + 8
    case Free => s.chans + 7
    case LoadAlive(g) => s.chans + if g == s.gen then 2 else 5
    case Asleep(g) => if g == s.gen then 0 else s.chans + 4
    case LoadGen => s.chans + 3
    case Closing(i) => 1 + (if i < s.chans then s.chans - i else 0)
    case Done => 0
  }

  /** Left alone, the owner's wait returns with every owned channel closed if nobody is alive, and sleeps if
      somebody is. */
  lemma {:induction false} WaitAlone(s: State) returns (n: nat)
    requires Inv(s)
    ensures OwnerAlone(s, n) == OwnerEnd(s) == Step(OwnerEnd(s), OwnerAct(Leave))
    decreases OwnerRank(s)
  {
    if Sound(s) || s.owner == Done {
      n := 0;
    } else {
      OwnerInv(s, Leave);
      n := WaitAlone(Step(s, OwnerAct(Leave)));
      n := n + 1;
    }
  }

  function KidAlone(s: State, k: nat, n: nat): State
    decreases n
  {
    if n == 0 then s else KidAlone(Step(s, KidAct(k, Leave)), k, n - 1)
  }

  /** The child gives back what it holds of the count; the wake counter is bumped if that was all there was. */
  function KidEnd(s: State, k: nat): State
    requires k < |s.kids|
  {
    var h := Held(s.kids[k]);
    s.(alive := s.alive - h, kids := s.kids[k := Gone],
       gen := s.gen + if s.kids[k] == Wake || (h > 0 && s.alive == h) then 1 else 0)
  }

  function KidRank(k: Kid): nat {
    match k
    case Enqueue => 5
    case Undo => 4
    case Running => 3
    case Dead => 2
    case Wake => 1
    case Gone => 0
  }

  /** Left alone, a child ends, and the last one wakes the owner. */
  lemma {:induction false} ChildAlone(s: State, k: nat) returns (n: nat)
    requires Inv(s) && k < |s.kids|
    ensures KidAlone(s, k, n) == KidEnd(s, k)
    decreases KidRank(s.kids[k])
  {
    if s.kids[k] == Gone {
      n := 0;
      assert s.kids[k := Gone] == s.kids;
    } else {
      var t := Step(s, KidAct(k, Leave));
      KidInv(s, k, Leave);
      n := ChildAlone(t, k);
      assert t.kids[k := Gone] == s.kids[k := Gone];
      n := n + 1;
    }
  }

  /** A spawn that succeeds adds one running child and one to the count; one that fails changes nothing. */
  lemma SpawnAlone(s: State, k: nat, ok: bool)
    ensures s.owner == Free ==>
              var t := Step(Step(s, OwnerAct(Spawn)), OwnerAct(Enq(ok)));
              if ok then t == s.(alive := s.alive + 1, kids := s.kids + [Running])
              else Step(t, OwnerAct(Leave)) == s
    ensures k < |s.kids| && s.kids[k] == Running ==>
              var t := Step(Step(s, KidAct(k, Spawn)), KidAct(k, Enq(ok)));
              if ok then t == s.(alive := s.alive + 1, kids := s.kids + [Running])
              else Step(t, KidAct(k, Leave)) == s
  {
    if k < |s.kids| && s.kids[k] == Running {
      assert s.kids[k := Enqueue][k := Running] == s.kids;
      assert s.kids[k := Enqueue][k := Undo][k := Running] == s.kids;
    }
  }

  // ---- A child that touches the nursery after wait has returned ----

  /** Child k has yet to bump the wake counter although the barrier has let go. */
  predicate Trails(s: State, k: nat) {
    Past(s.owner) && k < |s.kids| && s.kids[k] == Wake
  }

  /** The owner reads a count of zero while child k is between lowering it and bumping the counter. */
  predicate PassesFirst(s: State, a: Act, k: nat) {
    a.OwnerAct? && s.owner.LoadAlive? && s.alive == 0 && k < |s.kids| && s.kids[k] == Wake
  }

  /** The owner passed first, and child k has not taken a step since. */
  predicate Passed(chans: nat, acts: seq<Act>, k: nat) {
    && acts != []
    && var n := |acts| - 1;
       || PassesFirst(Run(chans, acts[..n]), acts[n], k)
       || (Passed(chans, acts[..n], k) && !(acts[n].KidAct? && acts[n].k == k))
  }

  lemma TrailsStep(s: State, a: Act, k: nat)
    requires Inv(s)
    ensures Trails(Step(s, a), k) <==> PassesFirst(s, a, k) || (Trails(s, k) && !(a.KidAct? && a.k == k))
  {
    match a
    case OwnerAct(c) =>
    case KidAct(j, c) => if j < |s.kids| { SumAtLeast(s.kids, j); }
  }

  lemma {:induction false} TrailsIffPassed(chans: nat, acts: seq<Act>, k: nat)
    ensures Trails(Run(chans, acts), k) <==> Passed(chans, acts, k)
  {
    if acts != [] {
      var n := |acts| - 1;
      TrailsIffPassed(chans, acts[..n], k);
      RunInv(chans, acts[..n]);
      TrailsStep(Run(chans, acts[..n]), acts[n], k);
    }
  }

  /**
  A step of a child changes the nursery after wait has returned if and only if the owner read a count of
  zero before that child's bump.
  */
  lemma {:induction false} TouchedAfterWaitIff(chans: nat, acts: seq<Act>, k: nat, c: Choice)
    requires Run(chans, acts).owner == Done && k < |Run(chans, acts).kids|
    ensures var s := Run(chans, acts); KidStep(s, k, c).(kids := s.kids) != s <==> Passed(chans, acts, k)
  {
    TrailsIffPassed(chans, acts, k);
    RunInv(chans, acts);
    NoneHeld(Run(chans, acts).kids, k);
  }

  lemma Then(chans: nat, acts: seq<Act>, a: Act)
    ensures Run(chans, acts + [a]) == Step(Run(chans, acts), a)
  {
    assert (acts + [a])[..|acts|] == acts;
  }

  lemma Hop(acts: seq<Act>, s: State, a: Act, b: Act)
    requires Run(0, acts) == s
    ensures Run(0, acts + [a] + [b]) == Step(Step(s, a), b)
  {
    Then(0, acts, a);
    Then(0, acts + [a], b);
  }

  lemma SpawnOne(acts: seq<Act>)
    requires acts == [OwnerAct(Spawn)] + [OwnerAct(Enq(true))]
    ensures Run(0, acts) == State(1, 0, 0, 0, Free, [Running])
  {
    var none: seq<Act> := [];
    Hop(none, Init(0), OwnerAct(Spawn), OwnerAct(Enq(true)));
    assert acts == none + [OwnerAct(Spawn)] + [OwnerAct(Enq(true))];
  }

  /** The one child has lowered the count. */
  lemma ChildLowers(acts: seq<Act>)
    requires acts == [OwnerAct(Spawn)] + [OwnerAct(Enq(true))] + [KidAct(0, Leave)] + [KidAct(0, Leave)]
    ensures Run(0, acts) == State(0, 0, 0, 0, Free, [Wake])
  {
    var before := [OwnerAct(Spawn)] + [OwnerAct(Enq(true))];
    SpawnOne(before);
    Hop(before, State(1, 0, 0, 0, Free, [Running]), KidAct(0, Leave), KidAct(0, Leave));
  }

  /** It happens with one child: the owner returns from wait between the child's two accesses. */
  lemma TouchHappens()
    ensures var acts := [OwnerAct(Spawn)] + [OwnerAct(Enq(true))] + [KidAct(0, Leave)] + [KidAct(0, Leave)]
                        + [OwnerAct(Leave)] + [OwnerAct(Leave)] + [OwnerAct(Leave)] + [OwnerAct(Leave)];
            var s := Run(0, acts);
            s.owner == Done && s.kids == [Wake] && Step(s, KidAct(0, Leave)).gen == s.gen + 1
  {
    var o := OwnerAct(Leave);
    var acts := [OwnerAct(Spawn)] + [OwnerAct(Enq(true))] + [KidAct(0, Leave)] + [KidAct(0, Leave)];
    ChildLowers(acts);
    Hop(acts, State(0, 0, 0, 0, Free, [Wake]), o, o);
    assert Run(0, acts + [o] + [o]) == State(0, 0, 0, 0, LoadAlive(0), [Wake]);
    Hop(acts + [o] + [o], State(0, 0, 0, 0, LoadAlive(0), [Wake]), o, o);
  }
}
