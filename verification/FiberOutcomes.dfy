/**
What the operations of the fiber scheduler come to: where a worker, a signaller or a spawner that is left
alone takes its fiber, and what a whole run has done to the ready queue and to each fiber.
*/
module FiberOutcomes {
  import opened FiberStates

  // ---------------------------------------------------------------- a thread left alone

  function Alone(s: State, a: nat, n: nat): State
    decreases n
  {
    if n == 0 then s else Alone(Step(s, Act(a, Go)), a, n - 1)
  }

  /** All there is about one fiber. */
  datatype Fiber = Fiber(raw: Raw, owned: bool, loc: Loc, owed: bool, turns: nat)

  function FiberOf(s: Shared, f: nat): Fiber
    requires Shape(s) && f < |s.raw|
  {
    Fiber(s.raw[f], s.owned[f], s.loc[f], s.owed[f], s.turns[f])
  }

  /** How an operation on a fiber ends. */
  datatype End = Ready | Resumed | Parked | Gone | Over | Marked | Known | Dropped

  predicate IsSignal(pc: Pc) {
    pc.SigLoad? || pc.SigMark? || pc.SigWake?
  }

  /** A running fiber that no signal has reached parks. */
  function ParkEnd(r: Raw): End {
    if r == Raw(RUNNING, false) then Parked else Ready
  }

  /** A nursery's fiber is freed by its worker, another one is left to its joiner. */
  function LastEnd(owned: bool): End {
    if owned then Gone else Over
  }

  /**
  A spawn, a yield and a park that a signal has reached end in the ready queue, and so does a signal to a
  parked fiber; a popped fiber is resumed.  A signal to a running fiber marks it, one to a queued fiber has
  nothing to do, and any other is dropped.
  */
  function EndOf(x: Fiber, pc: Pc): End {
    match pc
    case Popped(_) => Resumed
    case Start(_) => Resumed
    case Stopped(_, kind) =>
      if kind == Finished then LastEnd(x.owned) else if kind == Park then ParkEnd(x.raw) else Ready
    case Commit(_) => ParkEnd(x.raw)
    case SetDone(_) => LastEnd(x.owned)
    case Tail(_, _) => if x.owned then Gone else Known
    case Free(_) => Gone
    case Idle => Known
    case Exec(_) => Known
    case Bug(_) => Known
    case SpawnStore(_) => Ready
    case Push(_) => Ready
    case Requeue(_) => Ready
    case _ => match x.raw.base
              case PARKED => Ready
              case RUNNING => Marked
              case QUEUED => Known
              case _ => Dropped
  }

  function EndRaw(e: End, r: Raw): Raw {
    match e
    case Ready => Raw(QUEUED, false)
    case Resumed => Raw(RUNNING, false)
    case Parked => Raw(PARKED, false)
    case Gone => Raw(IDLE, false)
    case Over => Raw(DEAD, false)
    case Marked => Raw(RUNNING, true)
    case _ => r
  }

  function EndLoc(e: End, l: Loc): Loc {
    match e
    case Ready => InQueue
    case Parked => Asleep
    case Gone => Pool
    case Over => Dead
    case _ => l
  }

  function EndFiber(x: Fiber, pc: Pc): Fiber {
    var e := EndOf(x, pc);
    var settled := e == Resumed || (pc.Stopped? && pc.kind == Finished);
    Fiber(EndRaw(e, x.raw), x.owned && e != Gone, EndLoc(e, x.loc),
          !settled && (x.owed || (IsSignal(pc) && e != Dropped)), x.turns + if settled then 1 else 0)
  }

  function EndQueue(q: seq<nat>, x: Fiber, pc: Pc): seq<nat> {
    if EndOf(x, pc) == Ready && pc != Idle then q + [pc.f] else q
  }

  function EndPc(pc: Pc): Pc {
    if pc.Popped? || pc.Start? || pc.Exec? then Exec(pc.f) else Idle
  }

  /** From s to t fiber f goes through the end of operation pc, and no other fiber changes. */
  predicate Ends(s: Shared, pc: Pc, t: Shared, f: nat)
    requires Shape(s) && Shape(t) && f < |s.raw| == |t.raw|
  {
    && Only(s, t, f) && FiberOf(t, f) == EndFiber(FiberOf(s, f), pc)
    && t.queue == EndQueue(s.queue, FiberOf(s, f), pc)
  }

  function Rank(s: Shared, pc: Pc): nat
    requires InRange(s, pc)
  {
    match pc
    case Stopped(_, _) => 4
    case Commit(_) => 3
    case SetDone(_) => 3
    case SpawnStore(_) => 2
    case Requeue(_) => 2
    case Tail(_, _) => 2
    case Popped(_) => 2
    case SigLoad(_) => 3
    case SigMark(f) => if s.raw[f] == Raw(RUNNING, false) then 1 else 4
    case SigWake(f) => if s.raw[f] == Raw(PARKED, false) then 2 else 4
    case Idle => 0
    case Exec(_) => 0
    case _ => 1
  }

  /** What the invariant says about a thread's fiber. */
  predicate Fits(s: Shared, pc: Pc)
    requires Shape(s)
  {
    && InRange(s, pc) && QueueRange(s)
    && (pc != Idle ==> s.raw[pc.f].pending ==> s.raw[pc.f].base == RUNNING)
    && (pc.Popped? || pc.Start? || pc.Push? ==> s.raw[pc.f].base == QUEUED)
    && (Runs(pc) ==> s.raw[pc.f].base == RUNNING)
    && (pc.SetDone? ==> s.raw[pc.f].base == DEAD)
  }

  /** The thread's next step takes it nearer to the same end. */
  predicate Nears(s: Shared, a: nat, pc: Pc)
    requires Shape(s) && Fits(s, pc) && pc != Idle
  {
    var (t, q) := Next(s, a, pc, Go);
    var f := pc.f;
    && Shape(t) && |t.raw| == |s.raw| && (q == Idle || q.f == f)
    && EndPc(q) == EndPc(pc) && Rank(t, q) < Rank(s, pc)
    && EndFiber(FiberOf(t, f), q) == EndFiber(FiberOf(s, f), pc)
    && EndQueue(t.queue, FiberOf(t, f), q) == EndQueue(s.queue, FiberOf(s, f), pc)
  }

  lemma LoadNears(s: Shared, a: nat, f: nat)
    requires Shape(s) && Fits(s, SigLoad(f))
    ensures Nears(s, a, SigLoad(f))
  {
    assert Next(s, a, SigLoad(f), Go) == SigLoadNext(s, f);
  }

  lemma MarkNears(s: Shared, a: nat, f: nat)
    requires Shape(s) && Fits(s, SigMark(f))
    ensures Nears(s, a, SigMark(f))
  {
    assert Next(s, a, SigMark(f), Go) == SigMarkNext(s, f, Go);
  }

  lemma WakeNears(s: Shared, a: nat, f: nat)
    requires Shape(s) && Fits(s, SigWake(f))
    ensures Nears(s, a, SigWake(f))
  {
    assert Next(s, a, SigWake(f), Go) == SigWakeNext(s, a, f, Go);
  }

  lemma QueueNears(s: Shared, a: nat, pc: Pc)
    requires Shape(s) && Fits(s, pc) && (pc.SpawnStore? || pc.Push? || pc.Requeue?)
    ensures Nears(s, a, pc)
  {
  }

  lemma ResumeNears(s: Shared, a: nat, pc: Pc)
    requires Shape(s) && Fits(s, pc) && (pc.Popped? || pc.Start?)
    ensures Nears(s, a, pc)
  {
  }

  lemma StopNears(s: Shared, a: nat, pc: Pc)
    requires Shape(s) && Fits(s, pc) && (pc.Stopped? || pc.Commit?)
    ensures Nears(s, a, pc)
  {
  }

  lemma LastNears(s: Shared, a: nat, pc: Pc)
    requires Shape(s) && Fits(s, pc) && (pc.SetDone? || pc.Tail? || pc.Free?)
    ensures Nears(s, a, pc)
  {
  }

  lemma BusyNears(s: State, a: nat)
    requires Inv(s) && a < |s.ag| && s.ag[a] != Idle && !s.ag[a].Exec?
    ensures Fits(s.sh, s.ag[a]) && Nears(s.sh, a, s.ag[a]) && BusyFrame(s, Act(a, Go))
  {
    var pc := s.ag[a];
    assert AgentInv(s.sh, s.ag, a) && FiberInv(s.sh, s.ag, pc.f);
    if Holds(pc) { HolderFrame(s, Act(a, Go)); } else { SignallerFrame(s, Act(a, Go)); }
    if pc.SigLoad? {
      LoadNears(s.sh, a, pc.f);
    } else if pc.SigMark? {
      MarkNears(s.sh, a, pc.f);
    } else if pc.SigWake? {
      WakeNears(s.sh, a, pc.f);
    } else if pc.Stopped? || pc.Commit? {
      StopNears(s.sh, a, pc);
    } else if pc.SetDone? || pc.Tail? || pc.Free? {
      LastNears(s.sh, a, pc);
    } else if pc.Popped? || pc.Start? {
      ResumeNears(s.sh, a, pc);
    } else {
      QueueNears(s.sh, a, pc);
    }
  }

  lemma OnlyTwice(s: Shared, t: Shared, u: Shared, f: nat)
    requires Shape(s) && Shape(t) && Shape(u) && f < |s.raw| == |t.raw| == |u.raw| && Only(s, t, f) && Only(t, u, f)
    ensures Only(s, u, f)
  {
  }

  lemma EndsNow(s: State, a: nat)
    requires a < |s.ag| && s.ag[a] != Idle && Shape(s.sh) && Fits(s.sh, s.ag[a]) && Nears(s.sh, a, s.ag[a])
    requires BusyFrame(s, Act(a, Go)) && Step(s, Act(a, Go)).ag[a] == Idle
    ensures Ends(s.sh, s.ag[a], Step(s, Act(a, Go)).sh, s.ag[a].f)
  {
  }

  lemma EndsLater(s: State, a: nat, u: Shared)
    requires a < |s.ag| && s.ag[a] != Idle && Shape(s.sh) && Fits(s.sh, s.ag[a]) && Nears(s.sh, a, s.ag[a])
    requires BusyFrame(s, Act(a, Go)) && Shape(u) && |u.raw| == |s.sh.raw|
    requires var t := Step(s, Act(a, Go)); t.ag[a] != Idle && Ends(t.sh, t.ag[a], u, s.ag[a].f)
    ensures Ends(s.sh, s.ag[a], u, s.ag[a].f)
  {
    OnlyTwice(s.sh, Step(s, Act(a, Go)).sh, u, s.ag[a].f);
  }

  /** A worker reads the nursery of the life it has just ended. */
  lemma OwnTail(s: State, a: nat)
    requires Inv(s) && a < |s.ag| && !Misfrees(s, Act(a, Go))
    ensures !Misfrees(Step(s, Act(a, Go)), Act(a, Go))
  {
    assert AgentInv(s.sh, s.ag, a);
  }

  lemma GoNears(s: State, a: nat)
    requires Inv(s) && a < |s.ag| && s.ag[a] != Idle && !s.ag[a].Exec? && !Misfrees(s, Act(a, Go))
    ensures var t := Step(s, Act(a, Go));
            && Inv(t) && !Misfrees(t, Act(a, Go)) && t.ag == s.ag[a := t.ag[a]]
            && Fits(s.sh, s.ag[a]) && Nears(s.sh, a, s.ag[a]) && BusyFrame(s, Act(a, Go))
  {
    BusyNears(s, a);
    StepInv(s, Act(a, Go));
    OwnTail(s, a);
  }

  /**
  Left alone, every thread finishes what it is doing: it ends idle, or with the fiber it resumed, and that
  fiber and the ready queue are as the operation promises.
  */
  lemma {:induction false} FinishesAlone(s: State, a: nat) returns (n: nat)
    requires Inv(s) && a < |s.ag| && s.ag[a] != Idle && !Misfrees(s, Act(a, Go))
    ensures var (t, f) := (Alone(s, a, n), s.ag[a].f);
            && Shape(t.sh) && f < |s.sh.raw| == |t.sh.raw| && t.ag == s.ag[a := EndPc(s.ag[a])]
            && Ends(s.sh, s.ag[a], t.sh, f)
    decreases if InRange(s.sh, s.ag[a]) then Rank(s.sh, s.ag[a]) else 0
  {
    assert AgentInv(s.sh, s.ag, a);
    if s.ag[a].Exec? {
      n := 0;
    } else {
      var t := Step(s, Act(a, Go));
      GoNears(s, a);
      if t.ag[a] == Idle {
        n := 1;
        assert Alone(t, a, 0) == t;
        EndsNow(s, a);
      } else {
        n := FinishesAlone(t, a);
        EndsLater(s, a, Alone(t, a, n).sh);
        n := n + 1;
      }
    }
  }

  /** What a call starts with; spawning takes a fiber from the pool, popping takes the oldest of the queue. */
  lemma CallBegins(s: State, a: nat, c: Choice)
    requires Inv(s) && a < |s.ag| && s.ag[a] == Idle && (c.Spawn? || c.Reap? || c.Signal? ==> c.g < |s.sh.raw|)
    ensures var (t, pc) := (Step(s, Act(a, c)).sh, Step(s, Act(a, c)).ag[a]);
            && Shape(t) && |t.raw| == |s.sh.raw|
            && match c
               case Signal(g) => pc == SigLoad(g) && t == s.sh
               case PopQueue =>
                 if s.sh.queue == [] then pc == Idle && t == s.sh
                 else pc == Popped(s.sh.queue[0]) && s.sh.queue == [pc.f] + t.queue
               case Spawn(g, own) =>
                 if s.sh.raw[g].base == IDLE && s.sh.loc[g] == Pool then pc == SpawnStore(g) && t.owned[g] == own
                 else pc == Idle && t == s.sh
               case Reap(g) =>
                 && pc == Idle
                 && (if s.sh.loc[g] == Dead
                     then FiberOf(t, g) == Fiber(Raw(IDLE, false), false, Pool, false, s.sh.turns[g])
                     else t == s.sh)
               case _ => pc == Idle && t == s.sh
  {
    if c.Spawn? || c.Reap? { assert FiberInv(s.sh, s.ag, c.g); }
  }

  // ---------------------------------------------------------------- what a run has done

  /** The fiber that the step puts into the ready queue, as a sequence of at most one. */
  function Push1(s: State, x: Act): seq<nat> {
    if x.a < |s.ag| && s.ag[x.a].Push? then [s.ag[x.a].f] else []
  }

  /** The fiber that the step takes from it. */
  function Pop1(s: State, x: Act): seq<nat> {
    if x.a < |s.ag| && s.ag[x.a] == Idle && x.a < |Step(s, x).ag| && Step(s, x).ag[x.a].Popped?
    then [Step(s, x).ag[x.a].f] else []
  }

  function Pushes(s: State, acts: seq<Act>): seq<nat> {
    if acts == [] then []
    else
      var k := |acts| - 1;
      Pushes(s, acts[..k]) + Push1(Run(s, acts[..k]), acts[k])
  }

  function Pops(s: State, acts: seq<Act>): seq<nat> {
    if acts == [] then []
    else
      var k := |acts| - 1;
      Pops(s, acts[..k]) + Pop1(Run(s, acts[..k]), acts[k])
  }

  lemma QueueStep(s: State, x: Act)
    requires Inv(s)
    ensures s.sh.queue + Push1(s, x) == Pop1(s, x) + Step(s, x).sh.queue
  {
    if x.a < |s.ag| { assert AgentInv(s.sh, s.ag, x.a); }
  }

  lemma Carry(p: seq<nat>, o: seq<nat>, q: seq<nat>, u: seq<nat>, v: seq<nat>, r: seq<nat>)
    requires p == o + q && q + u == v + r
    ensures p + u == o + v + r
  {
    assert p + u == o + (q + u) && o + (v + r) == o + v + r;
  }

  /** The ready queue is first in, first out: fibers are popped in the order in which they were pushed. */
  lemma {:induction false} ReadyInOrder(fibers: nat, threads: nat, acts: seq<Act>)
    requires Clean(Init(fibers, threads), acts)
    ensures var s := Init(fibers, threads); Pushes(s, acts) == Pops(s, acts) + Run(s, acts).sh.queue
  {
    if acts != [] {
      var s, k := Init(fibers, threads), |acts| - 1;
      ReadyInOrder(fibers, threads, acts[..k]);
      RunInv(s, acts[..k]);
      var u := Run(s, acts[..k]);
      QueueStep(u, acts[k]);
      Carry(Pushes(s, acts[..k]), Pops(s, acts[..k]), u.sh.queue, Push1(u, acts[k]), Pop1(u, acts[k]),
            Step(u, acts[k]).sh.queue);
    }
  }

  /** The step resumes fiber f, or ends it. */
  predicate TurnsNow(s: State, x: Act, f: nat) {
    && x.a < |s.ag|
    && (s.ag[x.a] == Stopped(f, Finished)
        || (!s.ag[x.a].Exec? && x.a < |Step(s, x).ag| && Step(s, x).ag[x.a] == Exec(f)))
  }

  function Turns(s: State, acts: seq<Act>, f: nat): nat {
    if acts == [] then 0
    else
      var k := |acts| - 1;
      Turns(s, acts[..k], f) + if TurnsNow(Run(s, acts[..k]), acts[k], f) then 1 else 0
  }

  lemma TurnStep(s: State, x: Act, f: nat)
    requires Inv(s) && f < |s.sh.raw|
    ensures var t := Step(s, x).sh;
            f < |t.turns| && t.turns[f] == s.sh.turns[f] + if TurnsNow(s, x, f) then 1 else 0
  {
    if x.a < |s.ag| { assert AgentInv(s.sh, s.ag, x.a); }
  }

  /** The count of a fiber's turns is the number of times it was resumed or ended. */
  lemma {:induction false} TurnsCount(fibers: nat, threads: nat, acts: seq<Act>, f: nat)
    requires Clean(Init(fibers, threads), acts) && f < fibers
    ensures var s := Init(fibers, threads);
            f < |Run(s, acts).sh.turns| && Run(s, acts).sh.turns[f] == Turns(s, acts, f)
  {
    if acts != [] {
      var s, k := Init(fibers, threads), |acts| - 1;
      TurnsCount(fibers, threads, acts[..k], f);
      RunInv(s, acts[..k]);
      TurnStep(Run(s, acts[..k]), acts[k], f);
    }
  }
}
