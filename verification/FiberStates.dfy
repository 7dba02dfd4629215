/**
Fiber life cycle in the scheduler: the state word with its signal-pending bit, the single ready
queue, the commit-to-park compare-and-swap, signalling and spawning, for any number of fibers and
of threads acting as workers, signallers, spawners and joiners.  A finished fiber is returned to the
pool by its worker if a nursery owns it (worker-frees mode), and by whoever joined it otherwise.  One
action is one atomic access of a state word, or one queue operation under the queue lock.
*/
module FiberStates {
  import opened Distinctness

  datatype Base = IDLE | QUEUED | RUNNING | PARKED | DEAD

  /** Base state plus the signal-pending flag. */
  datatype Raw = Raw(base: Base, pending: bool)

  /** Why the coroutine stopped. */
  datatype Kind = Park | Yield | Finished

  /** The next access of a thread; most name the fiber it holds. */
  datatype Pc =
    | Idle
    | SpawnStore(f: nat)            // allocated from the pool: store QUEUED
    | Push(f: nat)                  // push on the ready queue
    | Popped(f: nat)                // popped: load the state, expect QUEUED
    | Start(f: nat)                 // store RUNNING and resume
    | Exec(f: nat)                  // the fiber's code runs on this worker
    | Stopped(f: nat, kind: Kind)   // it switched out: store DEAD or load the state
    | Commit(f: nat)                // compare-and-swap RUNNING to PARKED
    | Requeue(f: nat)               // store QUEUED
    | SetDone(f: nat)               // DEAD is stored: store done, joins return from here on
    | Tail(f: nat, own: bool)       // load saved_nursery; history: whether a nursery owned the life it ran
    | Free(f: nat)                  // a nursery was seen: return the fiber to the pool
    | SigLoad(f: nat)               // signaller: load the state
    | SigMark(f: nat)               // compare-and-swap in the pending flag
    | SigWake(f: nat)               // compare-and-swap PARKED to QUEUED
    | Bug(f: nat)                   // a popped fiber was not QUEUED

  /** History: where a fiber is. */
  datatype Loc = Pool | Held(a: nat) | InQueue | Asleep | Dead   // Dead: done, to be released by its joiner

  datatype Shared = Shared(
    raw: seq<Raw>,
    owned: seq<bool>,  // saved_nursery is set
    queue: seq<nat>,
    loc: seq<Loc>,     // history
    owed: seq<bool>,   // history: a signal took effect and the fiber has not been resumed since
    turns: seq<nat>)   // history: how often the fiber was resumed or finished

  datatype State = State(sh: Shared, ag: seq<Pc>)

  datatype Choice = Go | Fail | PopQueue | Spawn(g: nat, own: bool) | Signal(g: nat) | Reap(g: nat) | Stop(kind: Kind)

  datatype Act = Act(a: nat, c: Choice)

  predicate Shape(s: Shared) {
    |s.owned| == |s.raw| && |s.loc| == |s.raw| && |s.owed| == |s.raw| && |s.turns| == |s.raw|
  }

  function Init(fibers: nat, threads: nat): State {
    State(Shared(seq(fibers, i => Raw(IDLE, false)), seq(fibers, i => false), [], seq(fibers, i => Pool),
                 seq(fibers, i => false), seq(fibers, i => 0)),
          seq(threads, i => Idle))
  }

  function Store(s: Shared, f: nat, r: Raw): Shared
    requires f < |s.raw|
  {
    s.(raw := s.raw[f := r])
  }

  function Place(s: Shared, f: nat, l: Loc): Shared
    requires Shape(s) && f < |s.raw|
  {
    s.(loc := s.loc[f := l])
  }

  function Owe(s: Shared, f: nat): Shared
    requires Shape(s) && f < |s.raw|
  {
    s.(owed := s.owed[f := true])
  }

  /** The fiber is resumed or finishes: nothing is owed to it any more. */
  function Settle(s: Shared, f: nat): Shared
    requires Shape(s) && f < |s.raw|
  {
    s.(owed := s.owed[f := false], turns := s.turns[f := s.turns[f] + 1])
  }

  /** Back in the pool. */
  function Freed(s: Shared, f: nat): Shared
    requires Shape(s) && f < |s.raw|
  {
    Place(Store(s, f, Raw(IDLE, false)), f, Pool).(owned := s.owned[f := false])
  }

  predicate QueueRange(s: Shared) {
    forall i | 0 <= i < |s.queue| :: s.queue[i] < |s.raw|
  }

  function IdleNext(s: Shared, a: nat, c: Choice): (Shared, Pc)
    requires Shape(s) && QueueRange(s)
  {
    match c
    case PopQueue =>
      if s.queue == [] then (s, Idle)
      else (Place(s, s.queue[0], Held(a)).(queue := s.queue[1..]), Popped(s.queue[0]))
    case Spawn(g, own) =>
      if g < |s.raw| && s.loc[g] == Pool then (Place(s, g, Held(a)).(owned := s.owned[g := own]), SpawnStore(g))
      else (s, Idle)
    case Reap(g) => (if g < |s.raw| && s.loc[g] == Dead then Freed(s, g) else s, Idle)
    case Signal(g) => (s, if g < |s.raw| then SigLoad(g) else Idle)
    case _ => (s, Idle)
  }

  /** The worker side after the coroutine switched out. */
  function StoppedNext(s: Shared, f: nat, kind: Kind): (Shared, Pc)
    requires Shape(s) && f < |s.raw|
  {
    if kind == Finished then (Settle(Store(s, f, Raw(DEAD, false)), f), SetDone(f))
    else (s, if kind == Yield || s.raw[f].pending then Requeue(f) else Commit(f))
  }

  function CommitNext(s: Shared, f: nat): (Shared, Pc)
    requires Shape(s) && f < |s.raw|
  {
    if s.raw[f] == Raw(RUNNING, false)
    then (Place(Store(s, f, Raw(PARKED, false)), f, Asleep), Idle)
    else (s, Requeue(f))
  }

  function SigLoadNext(s: Shared, f: nat): (Shared, Pc)
    requires Shape(s) && f < |s.raw|
  {
    match s.raw[f].base
    case QUEUED => (Owe(s, f), Idle)
    case RUNNING => if s.raw[f].pending then (Owe(s, f), Idle) else (s, SigMark(f))
    case PARKED => (s, SigWake(f))
    case _ => (s, Idle)   // dropped
  }

  function SigMarkNext(s: Shared, f: nat, c: Choice): (Shared, Pc)
    requires Shape(s) && f < |s.raw|
  {
    if s.raw[f] == Raw(RUNNING, false) && c != Fail
    then (Owe(Store(s, f, Raw(RUNNING, true)), f), Idle)
    else (s, SigLoad(f))
  }

  function SigWakeNext(s: Shared, a: nat, f: nat, c: Choice): (Shared, Pc)
    requires Shape(s) && f < |s.raw|
  {
    if s.raw[f] == Raw(PARKED, false) && c != Fail
    then (Owe(Place(Store(s, f, Raw(QUEUED, false)), f, Held(a)), f), Push(f))
    else (s, SigLoad(f))
  }

  predicate InRange(s: Shared, pc: Pc) {
    !pc.Idle? ==> pc.f < |s.raw|
  }

  function Next(s: Shared, a: nat, pc: Pc, c: Choice): (Shared, Pc)
    requires Shape(s) && InRange(s, pc) && QueueRange(s)
  {
    match pc
    case Idle => IdleNext(s, a, c)
    case SpawnStore(f) => (Store(s, f, Raw(QUEUED, false)), Push(f))
    case Push(f) => (Place(s, f, InQueue).(queue := s.queue + [f]), Idle)
    case Popped(f) => (s, if s.raw[f].base == QUEUED then Start(f) else Bug(f))
    case Start(f) => (Settle(Store(s, f, Raw(RUNNING, false)), f), Exec(f))
    case Exec(f) => (s, if c.Stop? then Stopped(f, c.kind) else Exec(f))
    case Stopped(f, kind) => StoppedNext(s, f, kind)
    case Commit(f) => CommitNext(s, f)
    case Requeue(f) => (Store(s, f, Raw(QUEUED, false)), Push(f))
    case SetDone(f) => (if s.owned[f] then s else Place(s, f, Dead), Tail(f, s.owned[f]))
    case Tail(f, _) => (s, if s.owned[f] then Free(f) else Idle)
    case Free(f) => (Freed(s, f), Idle)
    case SigLoad(f) => SigLoadNext(s, f)
    case SigMark(f) => SigMarkNext(s, f, c)
    case SigWake(f) => SigWakeNext(s, a, f, c)
    case Bug(f) => (s, Idle)
  }

  // ---------------------------------------------------------------- invariant

  predicate Holds(pc: Pc) {
    !(pc.Idle? || pc.SigLoad? || pc.SigMark? || pc.SigWake? || (pc.Tail? && !pc.own))
  }

  /** On the worker between its resume and its commit. */
  predicate Runs(pc: Pc) {
    pc.Exec? || pc.Stopped? || pc.Commit? || pc.Requeue?
  }

  /** Between being made QUEUED and being pushed, or between being popped and being resumed. */
  predicate InWindow(pc: Pc) {
    pc.Push? || pc.Popped? || pc.Start?
  }

  function BaseOf(pc: Pc): Base {
    if InWindow(pc) then QUEUED else if Runs(pc) then RUNNING
    else if pc.SetDone? || pc.Tail? || pc.Free? then DEAD else IDLE
  }

  ghost predicate QueueInv(s: Shared)
    requires Shape(s)
  {
    && Distinct(s.queue)
    && QueueRange(s) && (forall i | 0 <= i < |s.queue| :: s.loc[s.queue[i]] == InQueue)
    && (forall f | 0 <= f < |s.raw| && s.loc[f] == InQueue :: f in s.queue)
  }

  predicate FiberInv(s: Shared, ag: seq<Pc>, f: nat)
    requires Shape(s) && f < |s.raw|
  {
    && (s.raw[f].pending ==> s.raw[f].base == RUNNING)
    && (match s.loc[f]
        case Pool => s.raw[f].base == IDLE && !s.owed[f] && !s.owned[f]
        case Dead => s.raw[f].base == DEAD && !s.owed[f] && !s.owned[f]
        case InQueue => s.raw[f].base == QUEUED
        case Asleep => s.raw[f].base == PARKED && !s.owed[f]
        case Held(a) =>
          && a < |ag| && Holds(ag[a]) && ag[a].f == f && s.raw[f].base == BaseOf(ag[a])
          && (ag[a].Tail? || ag[a].Free? ==> s.owned[f])
          && (s.owed[f] ==> InWindow(ag[a]) || ag[a].Requeue? || (Runs(ag[a]) && s.raw[f].pending)))
  }

  predicate AgentInv(s: Shared, ag: seq<Pc>, a: nat)
    requires Shape(s) && a < |ag|
  {
    InRange(s, ag[a]) && !ag[a].Bug? && (Holds(ag[a]) ==> s.loc[ag[a].f] == Held(a))
  }

  ghost predicate Inv(s: State) {
    && Shape(s.sh) && QueueInv(s.sh)
    && (forall f | 0 <= f < |s.sh.raw| :: FiberInv(s.sh, s.ag, f))
    && (forall a | 0 <= a < |s.ag| :: AgentInv(s.sh, s.ag, a))
  }

  /** Total: a state whose indices are out of range takes no step. */
  function Step(s: State, x: Act): State {
    if x.a >= |s.ag| || !Shape(s.sh) || !QueueRange(s.sh) || !InRange(s.sh, s.ag[x.a]) then s else
    var (sh, pc) := Next(s.sh, x.a, s.ag[x.a], x.c);
    State(sh, s.ag[x.a := pc])
  }

  /** Only the entries of fiber f may differ. */
  predicate Only(s: Shared, s': Shared, f: nat)
    requires Shape(s) && Shape(s') && f < |s.raw| == |s'.raw|
  {
    && s'.raw == s.raw[f := s'.raw[f]] && s'.loc == s.loc[f := s'.loc[f]]
    && s'.owed == s.owed[f := s'.owed[f]] && s'.turns == s.turns[f := s'.turns[f]]
    && s'.owned == s.owned[f := s'.owned[f]]
  }

  /** A step by thread a that touches only fiber f keeps the invariant if it keeps f's part of it
      and does not take f away from another thread. */
  lemma FrameInv(s: State, sh: Shared, a: nat, pc: Pc, f: nat)
    requires Inv(s) && a < |s.ag| && Shape(sh) && f < |sh.raw| == |s.sh.raw|
    requires Only(s.sh, sh, f) && QueueInv(sh)
    requires Holds(s.ag[a]) ==> s.ag[a].f == f
    requires s.sh.loc[f].Held? && s.sh.loc[f].a != a ==> sh.loc[f] == s.sh.loc[f]
    requires FiberInv(sh, s.ag[a := pc], f) && AgentInv(sh, s.ag[a := pc], a)
    ensures Inv(State(sh, s.ag[a := pc]))
  {
    var ag := s.ag[a := pc];
    forall g | 0 <= g < |sh.raw| ensures FiberInv(sh, ag, g) {
      assert FiberInv(s.sh, s.ag, g);
    }
    forall b | 0 <= b < |ag| ensures AgentInv(sh, ag, b) {
      assert AgentInv(s.sh, s.ag, b);
    }
  }

  /** A thread that takes no fiber changes nothing but its program counter. */
  lemma MoveInv(s: State, a: nat, pc: Pc)
    requires Inv(s) && a < |s.ag| && !Holds(s.ag[a]) && !Holds(pc) && InRange(s.sh, pc)
    ensures Inv(State(s.sh, s.ag[a := pc]))
  {
    var ag := s.ag[a := pc];
    forall g | 0 <= g < |s.sh.raw| ensures FiberInv(s.sh, ag, g) { assert FiberInv(s.sh, s.ag, g); }
    forall b | 0 <= b < |ag| ensures AgentInv(s.sh, ag, b) { assert AgentInv(s.sh, s.ag, b); }
  }

  lemma PopInv(s: State, a: nat)
    requires Inv(s) && a < |s.ag| && s.ag[a] == Idle && s.sh.queue != []
    ensures Inv(Step(s, Act(a, PopQueue)))
  {
    var (sh, pc) := IdleNext(s.sh, a, PopQueue);
    DistinctTail(s.sh.queue);
    assert FiberInv(s.sh, s.ag, s.sh.queue[0]);
    FrameInv(s, sh, a, pc, s.sh.queue[0]);
  }

  /** A fiber leaves the pool or returns to it. */
  lemma PoolInv(s: State, a: nat, c: Choice)
    requires Inv(s) && a < |s.ag| && s.ag[a] == Idle && (c.Spawn? || c.Reap?) && c.g < |s.sh.raw|
    requires s.sh.loc[c.g] == if c.Spawn? then Pool else Dead
    ensures Inv(Step(s, Act(a, c)))
  {
    var (sh, pc) := IdleNext(s.sh, a, c);
    assert FiberInv(s.sh, s.ag, c.g);
    FrameInv(s, sh, a, pc, c.g);
  }

  lemma IdleInv(s: State, x: Act)
    requires Inv(s) && x.a < |s.ag| && s.ag[x.a] == Idle
    ensures Inv(Step(s, x))
  {
    var (sh, pc) := IdleNext(s.sh, x.a, x.c);
    if sh == s.sh {
      MoveInv(s, x.a, pc);
    } else if x.c.PopQueue? {
      PopInv(s, x.a);
    } else {
      PoolInv(s, x.a, x.c);
    }
  }

  /** The queue is kept by a step on a fiber that was not in it, which may append that fiber. */
  lemma KeepQueue(s: Shared, s': Shared, f: nat)
    requires Shape(s) && Shape(s') && f < |s.raw| == |s'.raw|
    requires QueueInv(s) && Only(s, s', f)
    requires s.loc[f] != InQueue || s'.loc[f] == InQueue
    requires s'.queue == if s'.loc[f] != s.loc[f] && s'.loc[f] == InQueue then s.queue + [f] else s.queue
    ensures QueueInv(s')
  {
    if s'.queue != s.queue { DistinctAppend(s.queue, f); }
    assert forall g | g in s.queue :: g in s'.queue;
  }

  /** A busy thread touches its fiber only, and may append it to the queue. */
  predicate BusyFrame(s: State, x: Act) {
    && x.a < |s.ag| && s.ag[x.a] != Idle && s.ag[x.a].f < |s.sh.raw| && Shape(s.sh)
    && var (s', f) := (Step(s, x).sh, s.ag[x.a].f);
       && Shape(s') && |s'.raw| == |s.sh.raw| && Only(s.sh, s', f)
       && (s.sh.loc[f] != InQueue || s'.loc[f] == InQueue)
       && s'.queue == if s'.loc[f] != s.sh.loc[f] && s'.loc[f] == InQueue then s.sh.queue + [f] else s.sh.queue
  }

  lemma HolderFrame(s: State, x: Act)
    requires Inv(s) && x.a < |s.ag| && Holds(s.ag[x.a])
    ensures BusyFrame(s, x)
  {
    assert AgentInv(s.sh, s.ag, x.a);
    assert FiberInv(s.sh, s.ag, s.ag[x.a].f);
  }

  lemma SignallerFrame(s: State, x: Act)
    requires Inv(s) && x.a < |s.ag| && s.ag[x.a] != Idle && !Holds(s.ag[x.a])
    ensures BusyFrame(s, x)
  {
    assert AgentInv(s.sh, s.ag, x.a);
    assert FiberInv(s.sh, s.ag, s.ag[x.a].f);
  }

  /** A busy thread keeps its own part of the invariant and takes its fiber from nobody. */
  predicate BusyOk(s: State, x: Act) {
    && x.a < |s.ag| && s.ag[x.a] != Idle && s.ag[x.a].f < |s.sh.raw| && Shape(s.sh)
    && var (t, f) := (Step(s, x), s.ag[x.a].f);
       && Shape(t.sh) && f < |t.sh.raw|
       && (s.sh.loc[f].Held? && s.sh.loc[f].a != x.a ==> t.sh.loc[f] == s.sh.loc[f])
       && FiberInv(t.sh, t.ag, f) && x.a < |t.ag| && AgentInv(t.sh, t.ag, x.a)
  }

  lemma BusyHolder(s: State, x: Act)
    requires Inv(s) && x.a < |s.ag| && Holds(s.ag[x.a])
    ensures BusyOk(s, x)
  {
    assert AgentInv(s.sh, s.ag, x.a);
    assert FiberInv(s.sh, s.ag, s.ag[x.a].f);
  }

  lemma BusySignaller(s: State, x: Act)
    requires Inv(s) && x.a < |s.ag| && s.ag[x.a] != Idle && !Holds(s.ag[x.a]) && !Misfrees(s, x)
    ensures BusyOk(s, x)
  {
    assert AgentInv(s.sh, s.ag, x.a);
    assert FiberInv(s.sh, s.ag, s.ag[x.a].f);
  }

  /**
  A worker that ran a life which no nursery owned sees a nursery: the fiber has been released by its
  joiner and spawned again in between.
  */
  predicate Misfrees(s: State, x: Act) {
    && x.a < |s.ag| && s.ag[x.a].Tail? && !s.ag[x.a].own
    && s.ag[x.a].f < |s.sh.owned| && s.sh.owned[s.ag[x.a].f]
  }

  lemma BusyInv(s: State, x: Act)
    requires Inv(s) && x.a < |s.ag| && s.ag[x.a] != Idle && BusyOk(s, x)
    ensures Inv(Step(s, x))
  {
    var s' := Step(s, x);
    if Holds(s.ag[x.a]) { HolderFrame(s, x); } else { SignallerFrame(s, x); }
    KeepQueue(s.sh, s'.sh, s.ag[x.a].f);
    assert AgentInv(s.sh, s.ag, x.a);
    assert s'.ag == s.ag[x.a := s'.ag[x.a]];
    FrameInv(s, s'.sh, x.a, s'.ag[x.a], s.ag[x.a].f);
  }

  /** That worker goes on to free a fiber which it does not hold. */
  lemma MisfreeBreaks(s: State, x: Act)
    requires Inv(s) && Misfrees(s, x)
    ensures !Inv(Step(s, x))
  {
    var f := s.ag[x.a].f;
    assert AgentInv(s.sh, s.ag, x.a) && FiberInv(s.sh, s.ag, f);
    assert Step(s, x).ag[x.a] == Free(f) && Step(s, x).sh == s.sh;
    assert !AgentInv(Step(s, x).sh, Step(s, x).ag, x.a);
  }

  /** Every other step keeps the invariant. */
  lemma StepInv(s: State, x: Act)
    requires Inv(s)
    ensures Inv(Step(s, x)) <==> !Misfrees(s, x)
  {
    if Misfrees(s, x) {
      MisfreeBreaks(s, x);
    } else if x.a < |s.ag| {
      if s.ag[x.a] == Idle {
        IdleInv(s, x);
      } else {
        if Holds(s.ag[x.a]) { BusyHolder(s, x); } else { BusySignaller(s, x); }
        BusyInv(s, x);
      }
    }
  }

  function Run(s: State, acts: seq<Act>): State {
    if acts == [] then s else Step(Run(s, acts[..|acts| - 1]), acts[|acts| - 1])
  }

  /** No worker frees a life it did not run. */
  predicate Clean(s: State, acts: seq<Act>) {
    acts != [] ==>
      Clean(s, acts[..|acts| - 1]) && !Misfrees(Run(s, acts[..|acts| - 1]), acts[|acts| - 1])
  }

  lemma {:induction false} RunInv(s: State, acts: seq<Act>)
    requires Inv(s) && Clean(s, acts)
    ensures Inv(Run(s, acts))
  {
    if acts != [] {
      RunInv(s, acts[..|acts| - 1]);
      StepInv(Run(s, acts[..|acts| - 1]), acts[|acts| - 1]);
    }
  }

  // ---------------------------------------------------------------- what every clean run guarantees

  ghost predicate Reachable(s: State) {
    exists fibers: nat, threads: nat, acts: seq<Act> ::
      Clean(Init(fibers, threads), acts) && s == Run(Init(fibers, threads), acts)
  }

  lemma ReachableInv(s: State)
    requires Reachable(s)
    ensures Inv(s)
  {
    var fibers: nat, threads: nat, acts: seq<Act> :|
      Clean(Init(fibers, threads), acts) && s == Run(Init(fibers, threads), acts);
    RunInv(Init(fibers, threads), acts);
  }

  /** Some thread holds fiber f at a point where its base state is b: QUEUED in a push or pop
      window, RUNNING between resume and commit. */
  ghost predicate HeldAs(s: State, f: nat, b: Base) {
    exists a :: 0 <= a < |s.ag| && Holds(s.ag[a]) && s.ag[a].f == f && BaseOf(s.ag[a]) == b
  }

  /** A fiber is in the ready queue at most once; it is QUEUED exactly when it is in the queue or in
      a push or pop window, and RUNNING exactly when some worker runs it; no two threads hold it,
      and none holds it while it is in the queue. */
  lemma QueuedOnceRunningOnce(s: State)
    requires Reachable(s)
    ensures Shape(s.sh) && Distinct(s.sh.queue)
    ensures forall f | 0 <= f < |s.sh.raw| ::
              s.sh.raw[f].base == QUEUED <==> f in s.sh.queue || HeldAs(s, f, QUEUED)
    ensures forall f | 0 <= f < |s.sh.raw| :: s.sh.raw[f].base == RUNNING <==> HeldAs(s, f, RUNNING)
    ensures forall a, b | 0 <= a < |s.ag| && 0 <= b < |s.ag| && Holds(s.ag[a]) && Holds(s.ag[b]) ::
              s.ag[a].f == s.ag[b].f ==> a == b
    ensures forall a | 0 <= a < |s.ag| && Holds(s.ag[a]) :: s.ag[a].f !in s.sh.queue
  {
    ReachableInv(s);
    forall a | 0 <= a < |s.ag| && Holds(s.ag[a])
      ensures s.ag[a].f < |s.sh.raw| && s.sh.loc[s.ag[a].f] == Held(a)
      ensures s.sh.raw[s.ag[a].f].base == BaseOf(s.ag[a])
    {
      assert AgentInv(s.sh, s.ag, a);
      assert FiberInv(s.sh, s.ag, s.ag[a].f);
    }
    forall f | 0 <= f < |s.sh.raw|
      ensures s.sh.raw[f].base == QUEUED ==> f in s.sh.queue || HeldAs(s, f, QUEUED)
      ensures f in s.sh.queue ==> s.sh.raw[f].base == QUEUED
      ensures s.sh.raw[f].base == RUNNING ==> HeldAs(s, f, RUNNING)
    {
      assert FiberInv(s.sh, s.ag, f);
    }
  }

  /** The sanity check of a worker on a popped fiber never fails. */
  lemma PoppedIsQueued(s: State, a: nat, f: nat)
    requires Reachable(s) && a < |s.ag| && s.ag[a] == Popped(f)
    ensures Step(s, Act(a, Go)).ag[a] == Start(f)
  {
    ReachableInv(s);
    assert AgentInv(s.sh, s.ag, a);
    assert FiberInv(s.sh, s.ag, f);
  }

  /** What a step may do to a debt: only a resume or a death clears it, and it counts. */
  lemma DebtStep(s: State, x: Act, f: nat)
    requires Inv(s) && f < |s.sh.raw|
    ensures var s' := Step(s, x);
      && Shape(s'.sh) && |s'.sh.raw| == |s.sh.raw| && s.sh.turns[f] <= s'.sh.turns[f]
      && (s.sh.owed[f] && s'.sh.turns[f] == s.sh.turns[f] ==> s'.sh.owed[f])
  {
    if x.a < |s.ag| { assert AgentInv(s.sh, s.ag, x.a); }
  }

  lemma {:induction false} DebtRun(s: State, acts: seq<Act>, f: nat)
    requires Inv(s) && Clean(s, acts) && f < |s.sh.raw|
    ensures var s' := Run(s, acts);
      && Inv(s') && |s'.sh.raw| == |s.sh.raw| && s.sh.turns[f] <= s'.sh.turns[f]
      && (s.sh.owed[f] && s'.sh.turns[f] == s.sh.turns[f] ==> s'.sh.owed[f])
  {
    RunInv(s, acts);
    if acts != [] {
      var before := acts[..|acts| - 1];
      RunInv(s, before);
      DebtRun(s, before, f);
      DebtStep(Run(s, before), acts[|acts| - 1], f);
    }
  }

  /** The step at which a signal takes effect: the signaller returns without having been dropped, or
      goes on to push the fiber it woke. */
  predicate TakesEffect(s: State, x: Act, f: nat) {
    && x.a < |s.ag| && f < |s.sh.raw|
    && (s.ag[x.a] == SigLoad(f) || s.ag[x.a] == SigMark(f) || s.ag[x.a] == SigWake(f))
    && s.sh.raw[f].base != IDLE && s.sh.raw[f].base != DEAD
    && var pc := Step(s, x).ag[x.a]; pc == Idle || pc == Push(f)
  }

  lemma EffectOwes(s: State, x: Act, f: nat)
    requires Inv(s) && TakesEffect(s, x, f)
    ensures var sh := Step(s, x).sh; Shape(sh) && |sh.raw| == |s.sh.raw| && sh.owed[f] && !Misfrees(s, x)
  {
    assert AgentInv(s.sh, s.ag, x.a);
    assert FiberInv(s.sh, s.ag, f);
  }

  /** No signal is lost: after a signal takes effect on a queued, running or parked fiber, whatever
      happens next, the fiber is not PARKED until it has been resumed again or has finished. */
  lemma {:induction false} NoLostSignal(s: State, x: Act, f: nat, acts: seq<Act>)
    requires Reachable(s) && TakesEffect(s, x, f) && Clean(Step(s, x), acts)
    ensures var s1 := Step(s, x);
      var s2 := Run(s1, acts);
      && Shape(s1.sh) && Shape(s2.sh) && |s2.sh.raw| == |s1.sh.raw| == |s.sh.raw|
      && (s2.sh.raw[f].base == PARKED ==> s1.sh.turns[f] < s2.sh.turns[f])
  {
    ReachableInv(s);
    EffectOwes(s, x, f);
    StepInv(s, x);
    var s1 := Step(s, x);
    DebtRun(s1, acts, f);
    assert FiberInv(Run(s1, acts).sh, Run(s1, acts).ag, f);
  }

  /** On its way back: worker a is putting f into the queue, or f is there, or a worker is about to resume it. */
  predicate Returning(s: State, a: nat, f: nat)
    requires Shape(s.sh) && f < |s.sh.raw|
  {
    match s.sh.loc[f]
    case InQueue => true
    case Held(b) =>
      && b < |s.ag|
      && (s.ag[b] == Popped(f) || s.ag[b] == Start(f)
          || (b == a && (s.ag[a] == Stopped(f, Yield) || s.ag[a] == Requeue(f) || s.ag[a] == Push(f))))
    case _ => false
  }

  lemma ReturningIdle(s: State, x: Act, a: nat, f: nat)
    requires Inv(s) && f < |s.sh.raw| && Returning(s, a, f) && x.a < |s.ag| && s.ag[x.a] == Idle
    ensures var s' := Step(s, x); Shape(s'.sh) && f < |s'.sh.raw| && Returning(s', a, f)
  {
    assert FiberInv(s.sh, s.ag, f);
  }

  lemma ReturningBusy(s: State, x: Act, a: nat, f: nat)
    requires Inv(s) && f < |s.sh.raw| && Returning(s, a, f) && x.a < |s.ag| && s.ag[x.a] != Idle
    ensures var s' := Step(s, x);
      && Shape(s'.sh) && f < |s'.sh.raw|
      && (s'.sh.turns[f] == s.sh.turns[f] ==> Returning(s', a, f))
  {
    assert FiberInv(s.sh, s.ag, f) && AgentInv(s.sh, s.ag, x.a);
  }

  lemma ReturningStep(s: State, x: Act, a: nat, f: nat)
    requires Inv(s) && f < |s.sh.raw| && Returning(s, a, f)
    ensures var s' := Step(s, x);
      && Shape(s'.sh) && f < |s'.sh.raw|
      && (s'.sh.turns[f] == s.sh.turns[f] ==> Returning(s', a, f))
  {
    if x.a < |s.ag| {
      if s.ag[x.a] == Idle { ReturningIdle(s, x, a, f); } else { ReturningBusy(s, x, a, f); }
    }
  }

  lemma {:induction false} ReturningRun(s: State, acts: seq<Act>, a: nat, f: nat)
    requires Inv(s) && Clean(s, acts) && f < |s.sh.raw| && Returning(s, a, f)
    ensures var s' := Run(s, acts);
      && Inv(s') && |s'.sh.raw| == |s.sh.raw| && s.sh.turns[f] <= s'.sh.turns[f]
      && (s'.sh.turns[f] == s.sh.turns[f] ==> Returning(s', a, f))
  {
    RunInv(s, acts);
    if acts != [] {
      var before := acts[..|acts| - 1];
      RunInv(s, before);
      ReturningRun(s, before, a, f);
      DebtStep(Run(s, before), acts[|acts| - 1], f);
      if Run(s, before).sh.turns[f] == s.sh.turns[f] { ReturningStep(Run(s, before), acts[|acts| - 1], a, f); }
    }
  }

  /** A worker has popped f and is about to resume it. */
  ghost predicate AboutToResume(s: State, f: nat) {
    exists b :: 0 <= b < |s.ag| && (s.ag[b] == Popped(f) || s.ag[b] == Start(f))
  }

  /**
  A yield comes back: whatever happens after a fiber has yielded, it is never PARKED until it has been
  resumed, and once its worker is idle again it is in the ready queue, or popped and about to be resumed,
  or has been resumed.
  */
  lemma {:induction false} YieldComesBack(s: State, a: nat, f: nat, acts: seq<Act>)
    requires Reachable(s) && a < |s.ag| && s.ag[a] == Stopped(f, Yield) && Clean(s, acts)
    ensures var s' := Run(s, acts);
      && Shape(s.sh) && Shape(s'.sh) && |s'.sh.raw| == |s.sh.raw| && f < |s.sh.raw| && a < |s'.ag|
      && (s'.sh.turns[f] == s.sh.turns[f] ==>
            && s'.sh.raw[f].base != PARKED
            && (s'.ag[a] == Idle ==> f in s'.sh.queue || AboutToResume(s', f)))
  {
    ReachableInv(s);
    assert AgentInv(s.sh, s.ag, a);
    ReturningRun(s, acts, a, f);
    SameThreads(s, acts);
    assert FiberInv(Run(s, acts).sh, Run(s, acts).ag, f);
  }

  lemma {:induction false} SameThreads(s: State, acts: seq<Act>)
    ensures |Run(s, acts).ag| == |s.ag|
  {
    if acts != [] { SameThreads(s, acts[..|acts| - 1]); }
  }

  // ---------------------------------------------------------------- when a run is clean

  /** A joiner releases a fiber before its worker has made its last access. */
  predicate Hasty(s: State, x: Act) {
    && x.a < |s.ag| && s.ag[x.a] == Idle && x.c.Reap?
    && exists b :: 0 <= b < |s.ag| && s.ag[b] == Tail(x.c.g, false)
  }

  predicate Patient(s: State, acts: seq<Act>) {
    acts != [] ==>
      Patient(s, acts[..|acts| - 1]) && !Hasty(Run(s, acts[..|acts| - 1]), acts[|acts| - 1])
  }

  predicate TailInv(s: State) {
    forall b | 0 <= b < |s.ag| && s.ag[b].Tail? && !s.ag[b].own ::
      s.ag[b].f < |s.sh.loc| && s.sh.loc[s.ag[b].f] == Dead
  }

  /** Only a joiner takes a fiber out of this state. */
  lemma DeadStays(s: State, x: Act, f: nat)
    requires Inv(s) && f < |s.sh.loc| && s.sh.loc[f] == Dead
    ensures f < |Step(s, x).sh.loc|
    ensures Step(s, x).sh.loc[f] == Dead || (x.a < |s.ag| && s.ag[x.a] == Idle && x.c == Reap(f))
  {
    assert FiberInv(s.sh, s.ag, f);
    if x.a < |s.ag| { assert AgentInv(s.sh, s.ag, x.a); }
  }

  lemma TailStep(s: State, x: Act)
    requires Inv(s) && TailInv(s) && !Hasty(s, x)
    ensures !Misfrees(s, x) && TailInv(Step(s, x))
  {
    forall b | 0 <= b < |s.ag| && s.ag[b].Tail? && !s.ag[b].own
      ensures s.ag[b].f < |s.sh.loc| && s.sh.loc[s.ag[b].f] == Dead && !s.sh.owned[s.ag[b].f]
      ensures s.ag[b].f < |Step(s, x).sh.loc| && Step(s, x).sh.loc[s.ag[b].f] == Dead
    {
      assert FiberInv(s.sh, s.ag, s.ag[b].f);
      DeadStays(s, x, s.ag[b].f);
      assert s.ag[b] == Tail(s.ag[b].f, false);
    }
    if x.a < |s.ag| { assert AgentInv(s.sh, s.ag, x.a); }
  }

  /** If no joiner releases a fiber before its worker's last access, the run is clean. */
  lemma {:induction false} PatientIsClean(fibers: nat, threads: nat, acts: seq<Act>)
    requires Patient(Init(fibers, threads), acts)
    ensures Clean(Init(fibers, threads), acts) && TailInv(Run(Init(fibers, threads), acts))
  {
    if acts != [] {
      var k := |acts| - 1;
      PatientIsClean(fibers, threads, acts[..k]);
      RunInv(Init(fibers, threads), acts[..k]);
      TailStep(Run(Init(fibers, threads), acts[..k]), acts[k]);
    }
  }

  // ---------------------------------------------------------------- a run that is not

  /** One fiber and two threads, by whatever run. */
  ghost predicate Seen(s: State) {
    exists acts: seq<Act> :: s == Run(Init(1, 2), acts)
  }

  lemma Hop(s: State, x: Act, y: Act)
    requires Seen(s)
    ensures Seen(Step(Step(s, x), y))
  {
    var acts: seq<Act> :| s == Run(Init(1, 2), acts);
    assert (acts + [x])[..|acts|] == acts && (acts + [x] + [y])[..|acts| + 1] == acts + [x];
    assert Step(Step(s, x), y) == Run(Init(1, 2), acts + [x] + [y]);
  }

  function Scene(r: Raw, own: bool, q: seq<nat>, l: Loc, turns: nat, p0: Pc, p1: Pc): State {
    State(Shared([r], [own], q, [l], [false], [turns]), [p0, p1])
  }

  const IDLE_WORD := Raw(IDLE, false)
  const QUEUED_WORD := Raw(QUEUED, false)
  const RUNNING_WORD := Raw(RUNNING, false)
  const DEAD_WORD := Raw(DEAD, false)

  function Started(): State { Scene(QUEUED_WORD, false, [], Held(0), 0, Popped(0), Idle) }
  function Ended(): State { Scene(DEAD_WORD, false, [], Held(0), 2, SetDone(0), Idle) }
  function Reused(): State { Scene(QUEUED_WORD, true, [], Held(1), 2, Tail(0, false), Push(0)) }

  /** Thread 0 spawns the fiber, pops it again and runs it to its end. */
  lemma FirstLife()
    ensures var s0 := Scene(IDLE_WORD, false, [], Pool, 0, Idle, Idle);
            var s2 := Scene(QUEUED_WORD, false, [], Held(0), 0, Push(0), Idle);
            Step(Step(s0, Act(0, Spawn(0, false))), Act(0, Go)) == s2
            && Step(Step(s2, Act(0, Go)), Act(0, PopQueue)) == Started()
    ensures var s2 := Scene(RUNNING_WORD, false, [], Held(0), 1, Exec(0), Idle);
            Step(Step(Started(), Act(0, Go)), Act(0, Go)) == s2
            && Step(Step(s2, Act(0, Stop(Finished))), Act(0, Go)) == Ended()
  {
  }

  /** It stores done; thread 1 joins and releases the fiber and spawns it again, in a nursery. */
  lemma SecondLife()
    ensures var s2 := Scene(IDLE_WORD, false, [], Pool, 2, Tail(0, false), Idle);
            Step(Step(Ended(), Act(0, Go)), Act(1, Reap(0))) == s2
            && Step(Step(s2, Act(1, Spawn(0, true))), Act(1, Go)) == Reused()
  {
  }

  /** Thread 0 sees the nursery of the second life and frees a fiber that is in the ready queue. */
  lemma StaleFree()
    ensures var s2 := Scene(QUEUED_WORD, true, [0], InQueue, 2, Free(0), Idle);
            Step(Step(Reused(), Act(1, Go)), Act(0, Go)) == s2
            && Step(Step(s2, Act(0, Go)), Act(1, Go)) == Scene(IDLE_WORD, false, [0], Pool, 2, Idle, Idle)
  {
  }

  lemma ReusedSeen()
    ensures Seen(Reused())
  {
    var s0 := Scene(IDLE_WORD, false, [], Pool, 0, Idle, Idle);
    assert Run(Init(1, 2), []) == s0;
    FirstLife();
    Hop(s0, Act(0, Spawn(0, false)), Act(0, Go));
    Hop(Scene(QUEUED_WORD, false, [], Held(0), 0, Push(0), Idle), Act(0, Go), Act(0, PopQueue));
    Hop(Started(), Act(0, Go), Act(0, Go));
    Hop(Scene(RUNNING_WORD, false, [], Held(0), 1, Exec(0), Idle), Act(0, Stop(Finished)), Act(0, Go));
    SecondLife();
    Hop(Ended(), Act(0, Go), Act(1, Reap(0)));
    Hop(Scene(IDLE_WORD, false, [], Pool, 2, Tail(0, false), Idle), Act(1, Spawn(0, true)), Act(1, Go));
  }

  /** A run that ends with a fiber that is in the ready queue, IDLE and in the pool. */
  lemma MisfreeHappens() returns (s: State)
    ensures Seen(s) && s.sh.queue == [0] && s.sh.raw == [IDLE_WORD] && s.sh.loc == [Pool]
  {
    ReusedSeen();
    StaleFree();
    Hop(Reused(), Act(1, Go), Act(0, Go));
    s := Scene(IDLE_WORD, false, [0], Pool, 2, Idle, Idle);
    Hop(Scene(QUEUED_WORD, true, [0], InQueue, 2, Free(0), Idle), Act(0, Go), Act(1, Go));
  }
}
