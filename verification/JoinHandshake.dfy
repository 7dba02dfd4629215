/**
Joining a fiber: the join publishes itself, re-tests `done` and parks under that flag, while the
worker that completes the target stores `done`, takes the published waiter and unparks it.  Once all
its joins have returned the target is released and may be spawned again, in a new life, while the
worker of an earlier life still has accesses to make.  One fiber joiner in each life, as the single
waiter slot allows, any number of thread joiners, any number of lives, and stray wakes of the joining
fiber at any time.  One action is one atomic access.
*/
module JoinHandshake {
  datatype Word = Running | Pending | Parked | Queued

  /** The fiber joiner, followed by the worker that runs it while it switches out. */
  datatype JPc =
    | Entry       // load done
    | Publish     // store join_waiter_fiber
    | Test        // load done in the wait loop
    | ParkIf      // load done once more inside the guarded park
    | Stopped     // switched out: load the state word
    | Commit      // compare-and-swap RUNNING to PARKED
    | Requeue     // store QUEUED
    | Off         // parked, or queued to be resumed
    | Clear       // store join_waiter_fiber = NULL
    | Joined(ret: int)

  /** The worker that runs one life of the target; t is the life whose joiner it unparks. */
  datatype CPc =
    | Working          // the target still runs
    | SetDone          // result stored: store done
    | Exchange         // take the published waiter
    | SigLoad(t: nat)  // unpark it: load its state word
    | SigMark(t: nat)  // compare-and-swap in the pending bit
    | SigWake(t: nat)  // compare-and-swap PARKED to QUEUED
    | WakeAll          // bump the counter thread joiners sleep on
    | Finished

  datatype TPc = TTest | TLoad | TRecheck(gen: nat) | TSleep(gen: nat) | TJoined(ret: int)

  /** A thread that joins the target in the given life. */
  datatype Thr = Thr(life: nat, pc: TPc)

  datatype Shared = Shared(
    done: bool,
    result: int,
    waiter: bool,      // join_waiter_fiber is set
    word: Word,        // the state word of the fiber that joins the current life
    gen: nat)          // done_wake counter

  /** One entry of `js`, `cs` and `res` for each life; the last is the current one. */
  datatype State = State(
    sh: Shared,
    js: seq<JPc>,
    cs: seq<CPc>,
    ts: seq<Thr>,
    res: seq<int>,     // history: the result of each life
    robbed: bool)      // history: a worker of an earlier life took the current joiner's publication

  datatype Act =
    | Joiner
    | Completer(l: nat, r: int, spurious: bool)
    | NewThread
    | Thread(t: nat, spurious: bool)
    | StrayWake
    | Reuse

  function Init(): State {
    State(Shared(false, 0, false, Running, 0), [Entry], [Working], [], [0], false)
  }

  predicate Shape(s: State) {
    |s.js| == |s.cs| == |s.res| >= 1
  }

  function Cur(s: State): nat
    requires Shape(s)
  {
    |s.cs| - 1
  }

  function JNext(s: Shared, pc: JPc): (Shared, JPc) {
    match pc
    case Entry => (s, if s.done then Joined(s.result) else Publish)
    case Publish => (s.(waiter := true), Test)
    case Test => (s, if s.done then Clear else ParkIf)
    case ParkIf => (s, if s.done then Test else Stopped)
    case Stopped => (s, if s.word == Pending then Requeue else Commit)
    case Commit => if s.word == Running then (s.(word := Parked), Off) else (s, Requeue)
    case Requeue => (s.(word := Queued), Off)
    case Off => if s.word == Queued then (s.(word := Running), Test) else (s, Off)
    case Clear => (s.(waiter := false), Joined(s.result))
    case Joined(_) => (s, pc)
  }

  /** `here`: the joiner that is unparked is the current one.  One that has returned is somebody else's business. */
  function SigNext(s: Shared, pc: CPc, here: bool, spurious: bool): (Shared, CPc)
    requires Unparking(pc)
  {
    if !here then (s, WakeAll) else
    match pc
    case SigLoad(t) =>
      (match s.word
       case Running => (s, SigMark(t))
       case Parked => (s, SigWake(t))
       case _ => (s, WakeAll))
    case SigMark(t) =>
      if s.word == Running && !spurious then (s.(word := Pending), WakeAll) else (s, SigLoad(t))
    case SigWake(t) =>
      if s.word == Parked && !spurious then (s.(word := Queued), WakeAll) else (s, SigLoad(t))
  }

  function CNext(s: Shared, pc: CPc, cur: nat, r: int, spurious: bool): (Shared, CPc) {
    match pc
    case Working => (s.(result := r), SetDone)
    case SetDone => (s.(done := true), Exchange)
    case Exchange => (s.(waiter := false), if s.waiter then SigLoad(cur) else WakeAll)
    case WakeAll => (s.(gen := s.gen + 1), Finished)
    case Finished => (s, pc)
    case _ => SigNext(s, pc, pc.t == cur, spurious)
  }

  function TNext(s: Shared, pc: TPc, spurious: bool): TPc {
    match pc
    case TTest => if s.done then TJoined(s.result) else TLoad
    case TLoad => TRecheck(s.gen)
    case TRecheck(gen) => if s.done then TJoined(s.result) else TSleep(gen)
    case TSleep(gen) => if s.gen != gen || spurious then TTest else pc
    case TJoined(_) => pc
  }

  /** An unpark of the joining fiber left over from anything else it waited on. */
  function Stray(s: Shared): Shared {
    match s.word
    case Running => s.(word := Pending)
    case Parked => s.(word := Queued)
    case _ => s
  }

  predicate Unparking(c: CPc) {
    c.SigLoad? || c.SigMark? || c.SigWake?
  }

  /** A worker of an earlier life takes the publication of the current joiner. */
  predicate Robs(s: State, a: Act) {
    Shape(s) && a.Completer? && a.l < Cur(s) && s.cs[a.l].Exchange? && s.sh.waiter
  }

  predicate Respawns(s: State, a: Act) {
    Shape(s) && a.Reuse? && s.sh.done && AllReturned(s)
  }

  function JoinerStep(s: State): State
    requires Shape(s)
  {
    var (sh, j) := JNext(s.sh, s.js[Cur(s)]);
    s.(sh := sh, js := s.js[Cur(s) := j])
  }

  function CompleterStep(s: State, l: nat, r: int, spurious: bool): State
    requires Shape(s) && l < |s.cs|
  {
    var (sh, c) := CNext(s.sh, s.cs[l], Cur(s), r, spurious);
    s.(sh := sh, cs := s.cs[l := c], res := if s.cs[l].Working? then s.res[l := r] else s.res,
       robbed := s.robbed || (l < Cur(s) && s.cs[l].Exchange? && s.sh.waiter))
  }

  /** Every join of the current life has returned, or was never begun. */
  predicate AllReturned(s: State)
    requires Shape(s)
  {
    && (s.js[Cur(s)].Entry? || s.js[Cur(s)].Joined?)
    && forall t | 0 <= t < |s.ts| && s.ts[t].life == Cur(s) :: s.ts[t].pc.TJoined?
  }

  /** Release and respawn. */
  function ReuseStep(s: State): State
    requires Shape(s)
  {
    if !s.sh.done || !AllReturned(s) then s
    else State(Shared(false, 0, false, Running, s.sh.gen), s.js + [Entry], s.cs + [Working], s.ts, s.res + [0], false)
  }

  function Step(s: State, a: Act): State {
    if !Shape(s) then s else
    match a
    case Joiner => JoinerStep(s)
    case Completer(l, r, spurious) => if l < |s.cs| then CompleterStep(s, l, r, spurious) else s
    case NewThread => s.(ts := s.ts + [Thr(Cur(s), TTest)])
    case Thread(t, spurious) =>
      if t < |s.ts| && s.ts[t].life == Cur(s)
      then s.(ts := s.ts[t := s.ts[t].(pc := TNext(s.sh, s.ts[t].pc, spurious))])
      else s
    case StrayWake => s.(sh := Stray(s.sh))
    case Reuse => ReuseStep(s)
  }

  function Run(s: State, acts: seq<Act>): State {
    if acts == [] then s else Step(Run(s, acts[..|acts| - 1]), acts[|acts| - 1])
  }

  // ---------------------------------------------------------------- invariant

  /** In the wait: published, and not yet cleared. */
  predicate Waits(j: JPc) {
    !j.Entry? && !j.Publish? && !j.Joined?
  }

  /** The target is done and the joiner is parked, or past its last look without a wake. */
  predicate NeedsWake(s: Shared, j: JPc) {
    s.done && (s.word == Parked || ((j.Stopped? || j.Commit?) && s.word == Running))
  }

  predicate JoinInv(s: Shared, j: JPc, c: CPc, cur: nat, res: int, robbed: bool) {
    && (s.done <==> !c.Working? && !c.SetDone?)
    && (!c.Working? ==> s.result == res)
    && (s.word == Parked || s.word == Queued <==> j.Off?)
    && (c.Exchange? || !s.done ==> (s.waiter <==> Waits(j) && !robbed))
    && (s.done && !c.Exchange? && s.waiter ==> j.Test? || j.Clear?)
    && (robbed ==> !j.Entry? && !j.Publish?)
    && (j.Clear? ==> s.done)
    && (NeedsWake(s, j) && !robbed ==> c.Exchange? || (Unparking(c) && c.t == cur))
    && (j.Joined? ==> s.done && j.ret == res)
  }

  predicate ThreadInv(s: Shared, c: CPc, cur: nat, t: Thr, res: seq<int>) {
    && t.life <= cur < |res|
    && (t.life < cur ==> t.pc.TJoined?)
    && (t.pc.TRecheck? || t.pc.TSleep? ==> t.pc.gen <= s.gen)
    && (t.pc.TSleep? && c.Finished? ==> t.pc.gen != s.gen)
    && (t.pc.TJoined? ==> t.pc.ret == res[t.life] && (t.life == cur ==> s.done))
  }

  /** The worker of an earlier life is past its store of done, and the join of it returned its result. */
  predicate PastInv(j: JPc, c: CPc, res: int) {
    && !c.Working? && !c.SetDone?
    && (j.Joined? ==> j.ret == res)
  }

  predicate Inv(s: State) {
    && Shape(s)
    && JoinInv(s.sh, s.js[Cur(s)], s.cs[Cur(s)], Cur(s), s.res[Cur(s)], s.robbed)
    && (forall l | 0 <= l < Cur(s) :: PastInv(s.js[l], s.cs[l], s.res[l]))
    && (forall t | 0 <= t < |s.ts| :: ThreadInv(s.sh, s.cs[Cur(s)], Cur(s), s.ts[t], s.res))
  }

  lemma JoinerInv(s: State)
    requires Inv(s)
    ensures Inv(JoinerStep(s))
  {
    var s' := JoinerStep(s);
    forall t | 0 <= t < |s.ts| ensures ThreadInv(s'.sh, s'.cs[Cur(s')], Cur(s'), s'.ts[t], s'.res) {
      assert ThreadInv(s.sh, s.cs[Cur(s)], Cur(s), s.ts[t], s.res);
    }
    forall l | 0 <= l < Cur(s') ensures PastInv(s'.js[l], s'.cs[l], s'.res[l]) {
      assert PastInv(s.js[l], s.cs[l], s.res[l]);
    }
  }

  /** The worker of the current life. */
  lemma WorkerInv(s: State, r: int, spurious: bool)
    requires Inv(s)
    ensures Inv(CompleterStep(s, Cur(s), r, spurious))
  {
    var s' := CompleterStep(s, Cur(s), r, spurious);
    forall t | 0 <= t < |s.ts| ensures ThreadInv(s'.sh, s'.cs[Cur(s')], Cur(s'), s'.ts[t], s'.res) {
      assert ThreadInv(s.sh, s.cs[Cur(s)], Cur(s), s.ts[t], s.res);
    }
    forall l | 0 <= l < Cur(s') ensures PastInv(s'.js[l], s'.cs[l], s'.res[l]) {
      assert PastInv(s.js[l], s.cs[l], s.res[l]);
    }
  }

  /** The worker of an earlier life can only take the publication, or wake somebody. */
  lemma OldWorkerInv(s: State, l: nat, r: int, spurious: bool)
    requires Inv(s) && l < Cur(s)
    ensures Inv(CompleterStep(s, l, r, spurious))
  {
    var s' := CompleterStep(s, l, r, spurious);
    assert PastInv(s.js[l], s.cs[l], s.res[l]);
    forall t | 0 <= t < |s.ts| ensures ThreadInv(s'.sh, s'.cs[Cur(s')], Cur(s'), s'.ts[t], s'.res) {
      assert ThreadInv(s.sh, s.cs[Cur(s)], Cur(s), s.ts[t], s.res);
    }
    forall k | 0 <= k < Cur(s') ensures PastInv(s'.js[k], s'.cs[k], s'.res[k]) {
      assert PastInv(s.js[k], s.cs[k], s.res[k]);
    }
  }

  lemma ReuseInv(s: State)
    requires Inv(s)
    ensures Inv(ReuseStep(s))
  {
    var s' := ReuseStep(s);
    if s' != s {
      forall t | 0 <= t < |s.ts| ensures ThreadInv(s'.sh, s'.cs[Cur(s')], Cur(s'), s'.ts[t], s'.res) {
        assert ThreadInv(s.sh, s.cs[Cur(s)], Cur(s), s.ts[t], s.res);
      }
      forall l | 0 <= l < Cur(s') ensures PastInv(s'.js[l], s'.cs[l], s'.res[l]) {
        if l < Cur(s) { assert PastInv(s.js[l], s.cs[l], s.res[l]); }
      }
    }
  }

  lemma StepInv(s: State, a: Act)
    requires Inv(s)
    ensures Inv(Step(s, a))
  {
    match a
    case Joiner => JoinerInv(s);
    case Completer(l, r, spurious) =>
      if l < Cur(s) { OldWorkerInv(s, l, r, spurious); } else if l == Cur(s) { WorkerInv(s, r, spurious); }
    case NewThread =>
    case Thread(t, _) => if t < |s.ts| { assert ThreadInv(s.sh, s.cs[Cur(s)], Cur(s), s.ts[t], s.res); }
    case StrayWake =>
      forall t | 0 <= t < |s.ts| ensures ThreadInv(Stray(s.sh), s.cs[Cur(s)], Cur(s), s.ts[t], s.res) {
        assert ThreadInv(s.sh, s.cs[Cur(s)], Cur(s), s.ts[t], s.res);
      }
    case Reuse => ReuseInv(s);
  }

  lemma {:induction false} RunInv(s: State, acts: seq<Act>)
    requires Inv(s)
    ensures Inv(Run(s, acts))
  {
    if acts != [] {
      RunInv(s, acts[..|acts| - 1]);
      StepInv(Run(s, acts[..|acts| - 1]), acts[|acts| - 1]);
    }
  }

  // ---------------------------------------------------------------- what every run guarantees

  /** The step that robs was taken in this life of the target. */
  predicate Robbed(acts: seq<Act>) {
    && acts != []
    && var k := |acts| - 1;
       var s := Run(Init(), acts[..k]);
       Robs(s, acts[k]) || (Robbed(acts[..k]) && !Respawns(s, acts[k]))
  }

  lemma {:induction false} RobbedIff(acts: seq<Act>)
    ensures Run(Init(), acts).robbed <==> Robbed(acts)
  {
    if acts != [] {
      var k := |acts| - 1;
      RobbedIff(acts[..k]);
      RunInv(Init(), acts[..k]);
    }
  }

  predicate PastUnpark(c: CPc) {
    c.WakeAll? || c.Finished?
  }

  /** When the worker comes to take the waiter, it finds a joiner that waits if and only if no worker of an
      earlier life has taken its publication. */
  lemma {:induction false} WorkerFindsJoinerIff(acts: seq<Act>)
    ensures var s := Run(Init(), acts);
      && Inv(s)
      && (s.cs[Cur(s)].Exchange? && Waits(s.js[Cur(s)]) ==> (s.sh.waiter <==> !s.robbed))
  {
    RunInv(Init(), acts);
  }

  /** Once the completing worker has passed its exchange-and-unpark, a joining fiber that was not robbed
      is not parked, in every interleaving of publish, guarded park, park commit, completion, release and
      respawn; and it cannot commit a park any more. */
  lemma {:induction false} JoinerNeverStranded(acts: seq<Act>, a: Act)
    ensures var s := Run(Init(), acts);
      && Inv(s)
      && (PastUnpark(s.cs[Cur(s)]) && !s.robbed ==> s.sh.word != Parked && Step(s, a).sh.word != Parked)
  {
    var s := Run(Init(), acts);
    RunInv(Init(), acts);
    StepInv(s, a);
  }

  /** Once it has also bumped the counter, no thread joiner sleeps on the value it read. */
  lemma {:induction false} ThreadsNeverStranded(acts: seq<Act>, t: nat)
    requires t < |Run(Init(), acts).ts|
    ensures var s := Run(Init(), acts);
      && Inv(s)
      && (s.ts[t].life == Cur(s) && s.cs[Cur(s)].Finished? ==> s.ts[t].pc != TSleep(s.sh.gen))
      && (s.ts[t].life < Cur(s) ==> s.ts[t].pc.TJoined?)
  {
    var s := Run(Init(), acts);
    RunInv(Init(), acts);
    assert ThreadInv(s.sh, s.cs[Cur(s)], Cur(s), s.ts[t], s.res);
  }

  /** Every join, in every life, returns the result of the life it joined. */
  lemma {:induction false} JoinReturnsResult(acts: seq<Act>)
    ensures var s := Run(Init(), acts);
      && Inv(s)
      && (forall l | 0 <= l < |s.js| && s.js[l].Joined? :: s.js[l].ret == s.res[l])
      && (forall t | 0 <= t < |s.ts| && s.ts[t].pc.TJoined? ::
            s.ts[t].life < |s.res| && s.ts[t].pc.ret == s.res[s.ts[t].life])
  {
    var s := Run(Init(), acts);
    RunInv(Init(), acts);
    forall l | 0 <= l < |s.js| && s.js[l].Joined? ensures s.js[l].ret == s.res[l] {
      if l < Cur(s) { assert PastInv(s.js[l], s.cs[l], s.res[l]); }
    }
    forall t | 0 <= t < |s.ts| && s.ts[t].pc.TJoined?
      ensures s.ts[t].life < |s.res| && s.ts[t].pc.ret == s.res[s.ts[t].life]
    {
      assert ThreadInv(s.sh, s.cs[Cur(s)], Cur(s), s.ts[t], s.res);
    }
  }

  // ---------------------------------------------------------------- a joiner that was robbed

  /** Parked although the target is done, with nobody left to unpark it. */
  predicate Forgotten(s: State) {
    && Shape(s) && s.sh.done && s.sh.word == Parked && s.js[Cur(s)].Off? && !s.sh.waiter
    && PastUnpark(s.cs[Cur(s)])
    && forall l | 0 <= l < |s.cs| :: !(Unparking(s.cs[l]) && s.cs[l].t == Cur(s))
  }

  /** A joiner that is parked past its worker's unpark was robbed, and it is forgotten unless the robber is
      still unparking it. */
  lemma {:induction false} ParkedIsForgotten(acts: seq<Act>)
    ensures var s := Run(Init(), acts);
      && Inv(s)
      && (PastUnpark(s.cs[Cur(s)]) && s.sh.word == Parked ==>
            && s.robbed
            && (Forgotten(s) || exists l :: 0 <= l < Cur(s) && Unparking(s.cs[l]) && s.cs[l].t == Cur(s)))
  {
    RunInv(Init(), acts);
  }

  lemma ForgottenStep(s: State, a: Act)
    requires Inv(s) && Forgotten(s) && a != StrayWake
    ensures Forgotten(Step(s, a))
  {
  }

  /** It stays parked for good, unless something else wakes it. */
  lemma {:induction false} ForgottenForGood(s: State, acts: seq<Act>)
    requires Inv(s) && Forgotten(s) && StrayWake !in acts
    ensures Forgotten(Run(s, acts))
  {
    if acts != [] {
      var k := |acts| - 1;
      assert acts[k] in acts;
      ForgottenForGood(s, acts[..k]);
      RunInv(s, acts[..k]);
      ForgottenStep(Run(s, acts[..k]), acts[k]);
    }
  }

  // ---- When nobody is robbed ----

  /** The target is released before its worker has taken the waiter. */
  predicate Hasty(s: State, a: Act) {
    Shape(s) && a.Reuse? && s.cs[Cur(s)].Exchange?
  }

  predicate Patient(s: State, acts: seq<Act>) {
    acts != [] ==>
      Patient(s, acts[..|acts| - 1]) && !Hasty(Run(s, acts[..|acts| - 1]), acts[|acts| - 1])
  }

  predicate Settled(s: State) {
    Shape(s) && !s.robbed && forall l | 0 <= l < Cur(s) :: !s.cs[l].Exchange?
  }

  lemma SettledStep(s: State, a: Act)
    requires Inv(s) && Settled(s) && !Hasty(s, a)
    ensures Settled(Step(s, a))
  {
    if a.Completer? && a.l < Cur(s) { assert PastInv(s.js[a.l], s.cs[a.l], s.res[a.l]); }
  }

  /** If the target is never released between its worker's store of done and its exchange, nobody is robbed. */
  lemma {:induction false} PatientNeverRobbed(acts: seq<Act>)
    requires Patient(Init(), acts)
    ensures Settled(Run(Init(), acts))
  {
    if acts != [] {
      var k := |acts| - 1;
      PatientNeverRobbed(acts[..k]);
      RunInv(Init(), acts[..k]);
      SettledStep(Run(Init(), acts[..k]), acts[k]);
    }
  }

  // ---- It happens ----

  ghost predicate Reachable(s: State) {
    exists acts: seq<Act> :: s == Run(Init(), acts)
  }

  lemma Hop(s: State, a: Act, b: Act)
    requires Reachable(s)
    ensures Reachable(Step(Step(s, a), b))
  {
    var acts: seq<Act> :| s == Run(Init(), acts);
    assert (acts + [a])[..|acts|] == acts && (acts + [a] + [b])[..|acts| + 1] == acts + [a];
    assert Step(Step(s, a), b) == Run(Init(), acts + [a] + [b]);
  }

  /** The second life, with no threads. */
  function Scene(done: bool, waiter: bool, word: Word, gen: nat, j: JPc, c0: CPc, c1: CPc, robbed: bool): State {
    State(Shared(done, 0, waiter, word, gen), [Joined(0), j], [c0, c1], [], [0, 0], robbed)
  }

  const OLD := Completer(0, 0, false)
  const NEW := Completer(1, 0, false)

  function Respawned(): State { Scene(false, false, Running, 0, Entry, Exchange, Working, false) }
  function Published(): State { Scene(false, true, Parked, 0, Off, Exchange, Working, false) }
  function Woken(): State { Scene(false, false, Queued, 1, Off, Finished, Working, true) }
  function ParkedAgain(): State { Scene(false, false, Parked, 1, Off, Finished, SetDone, true) }
  function Abandoned(): State { Scene(true, false, Parked, 2, Off, Finished, Finished, true) }

  /** The first life is done and joined, and the target respawned before its worker's exchange. */
  lemma RespawnSteps()
    ensures var s2 := State(Shared(true, 0, false, Running, 0), [Entry], [Exchange], [], [0], false);
            Step(Step(Init(), OLD), OLD) == s2 && Step(Step(s2, Joiner), Reuse) == Respawned()
  {
  }

  /** The join of the second life publishes itself and parks. */
  lemma PublishSteps()
    ensures var s2 := Scene(false, true, Running, 0, Test, Exchange, Working, false);
            var s4 := Scene(false, true, Running, 0, Stopped, Exchange, Working, false);
            && Step(Step(Respawned(), Joiner), Joiner) == s2 && Step(Step(s2, Joiner), Joiner) == s4
            && Step(Step(s4, Joiner), Joiner) == Published()
  {
  }

  /** The worker of the first life takes it, and wakes it in vain. */
  lemma RobSteps()
    ensures var s2 := Scene(false, false, Parked, 0, Off, SigWake(1), Working, true);
            Step(Step(Published(), OLD), OLD) == s2 && Step(Step(s2, OLD), OLD) == Woken()
  {
  }

  /** The join finds the target running and parks again, without publishing itself again. */
  lemma ParkSteps()
    ensures var s2 := Scene(false, false, Running, 1, ParkIf, Finished, Working, true);
            var s4 := Scene(false, false, Running, 1, Commit, Finished, Working, true);
            && Step(Step(Woken(), Joiner), Joiner) == s2 && Step(Step(s2, Joiner), Joiner) == s4
            && Step(Step(s4, Joiner), NEW) == ParkedAgain()
  {
  }

  /** The worker of the second life finds nobody to wake. */
  lemma DoneSteps()
    ensures var s2 := Scene(true, false, Parked, 1, Off, Finished, WakeAll, true);
            Step(Step(ParkedAgain(), NEW), NEW) == s2 && Step(Step(s2, NEW), NEW) == Abandoned()
  {
  }

  lemma ReachPublished()
    ensures Reachable(Published())
  {
    assert Init() == Run(Init(), []);
    RespawnSteps();
    Hop(Init(), OLD, OLD);
    Hop(State(Shared(true, 0, false, Running, 0), [Entry], [Exchange], [], [0], false), Joiner, Reuse);
    PublishSteps();
    Hop(Respawned(), Joiner, Joiner);
    Hop(Scene(false, true, Running, 0, Test, Exchange, Working, false), Joiner, Joiner);
    Hop(Scene(false, true, Running, 0, Stopped, Exchange, Working, false), Joiner, Joiner);
  }

  lemma ReachParkedAgain()
    ensures Reachable(ParkedAgain())
  {
    ReachPublished();
    RobSteps();
    Hop(Published(), OLD, OLD);
    Hop(Scene(false, false, Parked, 0, Off, SigWake(1), Working, true), OLD, OLD);
    ParkSteps();
    Hop(Woken(), Joiner, Joiner);
    Hop(Scene(false, false, Running, 1, ParkIf, Finished, Working, true), Joiner, Joiner);
    Hop(Scene(false, false, Running, 1, Commit, Finished, Working, true), Joiner, NEW);
  }

  /** A run that ends with both workers finished and a joiner forgotten. */
  lemma RobberyHappens() returns (s: State)
    ensures Reachable(s) && Forgotten(s) && forall l | 0 <= l < |s.cs| :: s.cs[l].Finished?
  {
    ReachParkedAgain();
    DoneSteps();
    Hop(ParkedAgain(), NEW, NEW);
    s := Abandoned();
    Hop(Scene(true, false, Parked, 1, Off, Finished, WakeAll, true), NEW, NEW);
  }
}
