/**
The worker idle/wake handshake of the scheduler: producers push on the ready queue and then look
for an idle worker; workers mark themselves idle, re-check the queue and sleep.  Any number of
producers, a pool of workers that grows on demand, wakes skipped on a deep queue.  One action is
one atomic access; under the pool lock a worker is started first and counted afterwards, and it runs
in between.
*/
module WorkerWake {
  datatype WPc =
    | Drain                // pop and run fibers until the queue is empty
    | Mark                 // store is_idle = 1
    | Count                // idle_workers += 1
    | LoadVal              // load the wake counter
    | Recheck(val: nat)    // load the queue count
    | Unmark               // exchange is_idle with 0
    | Uncount              // idle_workers -= 1
    | Sleep(val: nat)      // wait while the wake counter equals val

  datatype Worker = Worker(isIdle: bool, value: nat, pc: WPc)

  datatype PPc =
    | Out
    | Push                 // push on the ready queue
    | Loop                 // load the queue count
    | Look                 // load idle_workers in the wake loop
    | Try                  // load idle_workers again in try_wake_one
    | Num                  // load the number of workers
    | Scan(i: nat, n: nat) // compare-and-swap is_idle of worker i from 1 to 0
    | Sub(i: nat)          // claimed worker i: idle_workers -= 1
    | Wake(i: nat)         // bump worker i's wake counter
    | Expand               // take the pool lock and start one more worker if the pool may grow
    | Publish(id: nat)     // count the started worker: store num_threads, release the lock

  datatype State = State(
    count: nat,            // ready queue depth
    idle: int,             // idle_workers
    skip: nat,             // wake skip depth, 0 = never skip
    max: nat,              // pool limit
    num: nat,              // num_threads
    lock: bool,            // start_mu is held
    ws: seq<Worker>,       // the workers started
    ps: seq<PPc>,
    leader: nat,           // history: the producer whose push ended the last empty period
    left: int)             // history: the sleeper that the leader's last count left out, or -1

  datatype Choice = Go | Spurious

  datatype Act = W(w: nat, c: Choice) | P(p: nat, c: Choice)

  function Init(skip: nat, max: nat, producers: nat): State {
    State(0, 0, skip, max, 1, false, [Worker(false, 0, Drain)], seq(producers, i => Out), 0, -1)
  }

  // ---------------------------------------------------------------- workers

  function SetW(s: State, w: nat, x: Worker): State
    requires w < |s.ws|
  {
    s.(ws := s.ws[w := x])
  }

  /** Blocked in the wait: the wake counter still has the value the worker read. */
  predicate Asleep(x: Worker) {
    x.pc.Sleep? && x.value == x.pc.val
  }

  /** Asleep and claimable. */
  predicate Dozing(x: Worker) {
    Asleep(x) && x.isIdle
  }

  /** History: worker w has been woken or claimed. */
  function Roused(s: State, w: nat): State {
    if s.left == w then s.(left := -1) else s
  }

  function WStep(s: State, w: nat, c: Choice): State
    requires w < |s.ws|
  {
    var x := s.ws[w];
    match x.pc
    case Drain =>
      if s.count > 0 then s.(count := s.count - 1) else SetW(s, w, x.(pc := Mark))
    case Mark => SetW(s, w, x.(isIdle := true, pc := Count))
    case Count => SetW(s, w, x.(pc := LoadVal)).(idle := s.idle + 1)
    case LoadVal => SetW(s, w, x.(pc := Recheck(x.value)))
    case Recheck(val) => SetW(s, w, x.(pc := if s.count > 0 then Unmark else Sleep(val)))
    case Unmark => SetW(s, w, x.(isIdle := false, pc := if x.isIdle then Uncount else Drain))
    case Uncount => SetW(s, w, x.(pc := Drain)).(idle := s.idle - 1)
    case Sleep(val) =>
      if x.value != val || c == Spurious then Roused(SetW(s, w, x.(pc := Unmark)), w) else s
  }

  // ---------------------------------------------------------------- producers

  function SetP(s: State, p: nat, pc: PPc): State
    requires p < |s.ps|
  {
    s.(ps := s.ps[p := pc])
  }

  /** Push; the wake is skipped when the queue was already deep. */
  function PushStep(s: State, p: nat): State
    requires p < |s.ps|
  {
    var deep := s.skip > 0 && s.count >= s.skip;
    SetP(s, p, if deep then Out else Loop)
      .(count := s.count + 1, leader := if s.count == 0 then p else s.leader,
        left := if s.count == 0 then -1 else s.left)
  }

  /** Load num_threads: a worker that is started and not counted is left out. */
  function NumStep(s: State, p: nat): State
    requires p < |s.ps|
  {
    var t := SetP(s, p, Scan(0, s.num));
    if p != s.leader then t
    else t.(left := if s.num < |s.ws| && Dozing(s.ws[s.num]) then s.num else -1)
  }

  function ScanStep(s: State, p: nat, i: nat, n: nat): State
    requires p < |s.ps|
  {
    if i >= n || i >= |s.ws| then SetP(s, p, Expand)
    else if s.ws[i].isIdle then Roused(SetP(SetW(s, i, s.ws[i].(isIdle := false)), p, Sub(i)), i)
    else SetP(s, p, Scan(i + 1, n))
  }

  function WakeStep(s: State, p: nat, i: nat): State
    requires p < |s.ps|
  {
    if i >= |s.ws| then s
    else Roused(SetP(SetW(s, i, s.ws[i].(value := s.ws[i].value + 1)), p, Loop), i)
  }

  /** One caller at a time: others wait for the lock. */
  function ExpandStep(s: State, p: nat, c: Choice): State
    requires p < |s.ps|
  {
    if s.lock then s
    else if s.num >= s.max || c != Go then SetP(s, p, Out)
    else SetP(s, p, Publish(s.num)).(lock := true, ws := s.ws + [Worker(false, 0, Drain)])
  }

  function PStep(s: State, p: nat, c: Choice): State
    requires p < |s.ps|
  {
    match s.ps[p]
    case Out => SetP(s, p, Push)
    case Push => PushStep(s, p)
    case Loop => SetP(s, p, if s.count > 0 then Look else Out)
    case Look => SetP(s, p, if s.idle <= 0 then Expand else Try)
    case Try => SetP(s, p, if s.idle <= 0 then Expand else Num)
    case Num => NumStep(s, p)
    case Scan(i, n) => ScanStep(s, p, i, n)
    case Sub(i) => SetP(s, p, Wake(i)).(idle := s.idle - 1)
    case Wake(i) => WakeStep(s, p, i)
    case Expand => ExpandStep(s, p, c)
    case Publish(id) => SetP(s, p, Out).(num := id + 1, lock := false)
  }

  function Step(s: State, a: Act): State {
    match a
    case W(w, c) => if w < |s.ws| then WStep(s, w, c) else s
    case P(p, c) => if p < |s.ps| then PStep(s, p, c) else s
  }

  function Run(s: State, acts: seq<Act>): State {
    if acts == [] then s else Step(Run(s, acts[..|acts| - 1]), acts[|acts| - 1])
  }

  // ---------------------------------------------------------------- invariant

  predicate Claims(pc: PPc, w: nat) {
    pc == Sub(w) || pc == Wake(w)
  }

  /** A producer has claimed worker w and is still to bump its counter. */
  ghost predicate InFlight(ps: seq<PPc>, w: nat) {
    exists p :: 0 <= p < |ps| && Claims(ps[p], w)
  }

  ghost predicate Awake(s: State, w: nat)
    requires w < |s.ws|
  {
    !Asleep(s.ws[w]) || InFlight(s.ps, w)
  }

  /** Asleep although is_idle is clear and nobody is about to wake it: no producer can claim it. */
  ghost predicate Stranded(s: State, w: nat)
    requires w < |s.ws|
  {
    Asleep(s.ws[w]) && !s.ws[w].isIdle && !InFlight(s.ps, w)
  }

  /** The producer that ended the empty period has not given up: each worker it has tried, or did not
      count, is not both asleep and claimable, but for the one left out. */
  ghost predicate LeaderLooks(s: State) {
    && s.leader < |s.ps|
    && var pc := s.ps[s.leader];
       || pc.Loop? || pc.Look? || pc.Try? || pc.Num?
       || (pc.Scan? && forall w | 0 <= w < |s.ws| && (w < pc.i || pc.n <= w) ::
             Dozing(s.ws[w]) ==> s.left == w)
  }

  ghost predicate SomeAwake(s: State) {
    exists w :: 0 <= w < |s.ws| && Awake(s, w)
  }

  /** Out of reach of the producers: stranded, or left out of the count. */
  ghost predicate Lost(s: State, w: nat)
    requires w < |s.ws|
  {
    Stranded(s, w) || s.left == w
  }

  ghost predicate AllLost(s: State) {
    forall w | 0 <= w < |s.ws| :: Lost(s, w)
  }

  /** Contribution of a worker, or a producer, to the gap between idle_workers and the flags. */
  function Weight(x: Worker): int {
    (if x.isIdle then 1 else 0) - (if x.pc.Count? then 1 else 0) + (if x.pc.Uncount? then 1 else 0)
  }

  function WorkerSum(ws: seq<Worker>): int {
    if ws == [] then 0 else WorkerSum(ws[..|ws| - 1]) + Weight(ws[|ws| - 1])
  }

  function ClaimSum(ps: seq<PPc>): int {
    if ps == [] then 0 else ClaimSum(ps[..|ps| - 1]) + (if ps[|ps| - 1].Sub? then 1 else 0)
  }

  /** A worker is flagged idle only while it is parking, and its wake counter only grows. */
  predicate WorkerOk(x: Worker) {
    && (x.isIdle ==> x.pc.Count? || x.pc.LoadVal? || x.pc.Recheck? || x.pc.Sleep? || x.pc.Unmark?)
    && (x.pc.Recheck? || x.pc.Sleep? ==> x.pc.val <= x.value)
  }

  predicate RangeInv(s: State) {
    && |s.ws| >= 1
    && (forall w | 0 <= w < |s.ws| :: WorkerOk(s.ws[w]))
    && (forall p | 0 <= p < |s.ps| :: (s.ps[p].Sub? || s.ps[p].Wake?) ==> s.ps[p].i < |s.ws|)
    && (forall p | 0 <= p < |s.ps| && s.ps[p].Scan? :: s.ps[p].n <= |s.ws|)
  }

  /** The lock is held by the one producer that has started a worker and not yet counted it. */
  predicate LockInv(s: State) {
    && 1 <= s.num && |s.ws| == s.num + (if s.lock then 1 else 0)
    && (forall p | 0 <= p < |s.ps| && s.ps[p].Publish? :: s.lock && s.ps[p].id == s.num)
    && (forall p, q | 0 <= p < q < |s.ps| :: !s.ps[p].Publish? || !s.ps[q].Publish?)
  }

  /** The first worker is always counted. */
  predicate LeftInv(s: State) {
    s.left == -1 || (1 <= s.left < |s.ws| && Dozing(s.ws[s.left]))
  }

  /** Queued work has a worker that is up or about to be, or a producer still looking, or no worker
      that a producer can reach. */
  ghost predicate Covered(s: State) {
    s.count > 0 ==> SomeAwake(s) || AllLost(s) || LeaderLooks(s)
  }

  ghost predicate Inv(s: State) {
    && RangeInv(s) && LockInv(s) && LeftInv(s)
    && s.idle == WorkerSum(s.ws) + ClaimSum(s.ps)
    && Covered(s)
  }

  lemma {:induction false} WorkerSumUpdate(ws: seq<Worker>, w: nat, x: Worker)
    requires w < |ws|
    ensures WorkerSum(ws[w := x]) == WorkerSum(ws) - Weight(ws[w]) + Weight(x)
  {
    var k := |ws| - 1;
    if w == k {
      assert ws[w := x][..k] == ws[..k];
    } else {
      assert ws[w := x][..k] == ws[..k][w := x];
      WorkerSumUpdate(ws[..k], w, x);
    }
  }

  lemma {:induction false} ClaimSumUpdate(ps: seq<PPc>, p: nat, pc: PPc)
    requires p < |ps|
    ensures ClaimSum(ps[p := pc]) == ClaimSum(ps) - (if ps[p].Sub? then 1 else 0) + (if pc.Sub? then 1 else 0)
  {
    var k := |ps| - 1;
    if p == k {
      assert ps[p := pc][..k] == ps[..k];
    } else {
      assert ps[p := pc][..k] == ps[..k][p := pc];
      ClaimSumUpdate(ps[..k], p, pc);
    }
  }

  /** With every worker settled, idle_workers counts the claimable ones. */
  lemma {:induction false} WorkerSumSettled(ws: seq<Worker>)
    requires forall w | 0 <= w < |ws| :: ws[w].pc.Sleep?
    ensures WorkerSum(ws) >= 0
    ensures WorkerSum(ws) == 0 ==> forall w | 0 <= w < |ws| :: !ws[w].isIdle
  {
    if ws != [] { WorkerSumSettled(ws[..|ws| - 1]); }
  }

  lemma {:induction false} ClaimSumPositive(ps: seq<PPc>)
    ensures ClaimSum(ps) >= 0
  {
    if ps != [] { ClaimSumPositive(ps[..|ps| - 1]); }
  }

  /** When a producer sees no idle worker, either some worker is awake or all are lost. */
  lemma NoneIdle(s: State)
    requires Inv(s) && s.idle <= 0
    ensures SomeAwake(s) || AllLost(s)
  {
    if !SomeAwake(s) {
      forall w | 0 <= w < |s.ws| ensures Asleep(s.ws[w]) && !InFlight(s.ps, w) {
        assert !Awake(s, w);
      }
      WorkerSumSettled(s.ws);
      ClaimSumPositive(s.ps);
    }
  }

  lemma WorkerRange(s: State, w: nat, c: Choice)
    requires RangeInv(s) && w < |s.ws|
    ensures RangeInv(WStep(s, w, c))
  {
    assert WorkerOk(s.ws[w]);
  }

  /** A worker changes idle_workers by as much as its own weight. */
  lemma WorkerDelta(s: State, w: nat, c: Choice)
    requires w < |s.ws| && WorkerOk(s.ws[w])
    ensures var s' := WStep(s, w, c);
            && s'.ps == s.ps && |s'.ws| == |s.ws| && s'.ws == s.ws[w := s'.ws[w]]
            && s'.idle - s.idle == Weight(s'.ws[w]) - Weight(s.ws[w])
  {
  }

  lemma WorkerBalance(s: State, w: nat, s': State)
    requires w < |s.ws| == |s'.ws| && s.idle == WorkerSum(s.ws) + ClaimSum(s.ps)
    requires s'.ps == s.ps && s'.ws == s.ws[w := s'.ws[w]]
    requires s'.idle - s.idle == Weight(s'.ws[w]) - Weight(s.ws[w])
    ensures s'.idle == WorkerSum(s'.ws) + ClaimSum(s'.ps)
  {
    WorkerSumUpdate(s.ws, w, s'.ws[w]);
  }

  lemma WorkerLeft(s: State, w: nat, c: Choice)
    requires LockInv(s) && LeftInv(s) && w < |s.ws|
    ensures LockInv(WStep(s, w, c)) && LeftInv(WStep(s, w, c))
  {
  }

  lemma WorkerCover(s: State, w: nat, c: Choice)
    requires Covered(s) && w < |s.ws| && WorkerOk(s.ws[w])
    ensures Covered(WStep(s, w, c))
  {
    var s' := WStep(s, w, c);
    if s' != s && s'.count > 0 { assert Awake(s', w); }
  }

  lemma WorkerInv(s: State, w: nat, c: Choice)
    requires Inv(s) && w < |s.ws|
    ensures Inv(WStep(s, w, c))
  {
    assert WorkerOk(s.ws[w]);
    WorkerRange(s, w, c);
    WorkerLeft(s, w, c);
    WorkerDelta(s, w, c);
    WorkerBalance(s, w, WStep(s, w, c));
    WorkerCover(s, w, c);
  }

  lemma SameFlight(ps: seq<PPc>, p: nat, pc: PPc, w: nat)
    requires p < |ps| && (Claims(ps[p], w) <==> Claims(pc, w))
    ensures InFlight(ps, w) <==> InFlight(ps[p := pc], w)
  {
    var ps' := ps[p := pc];
    if InFlight(ps, w) {
      var q :| 0 <= q < |ps| && Claims(ps[q], w);
      assert Claims(ps'[q], w);
    }
    if InFlight(ps', w) {
      var q :| 0 <= q < |ps'| && Claims(ps'[q], w);
      assert Claims(ps[q], w);
    }
  }

  predicate Claiming(pc: PPc) {
    pc.Sub? || pc.Wake?
  }

  /** A producer that moves without touching the workers or the claims. */
  predicate Quiet(pc: PPc) {
    !Claiming(pc) && !pc.Publish?
  }

  lemma QuietProducer(s: State, p: nat, pc: PPc)
    requires Inv(s) && p < |s.ps| && Quiet(s.ps[p]) && Quiet(pc)
    requires pc.Scan? ==> pc.n <= |s.ws|
    requires p == s.leader && s.count > 0 && LeaderLooks(s) ==>
               SomeAwake(s) || AllLost(s) || LeaderLooks(SetP(s, p, pc))
    ensures Inv(SetP(s, p, pc))
  {
    ClaimSumUpdate(s.ps, p, pc);
    KeepCover(s, p, pc);
  }

  lemma KeepAwake(s: State, p: nat, pc: PPc)
    requires p < |s.ps| && Quiet(s.ps[p]) && Quiet(pc) && SomeAwake(s)
    ensures SomeAwake(SetP(s, p, pc))
  {
    var w :| 0 <= w < |s.ws| && Awake(s, w);
    SameFlight(s.ps, p, pc, w);
    assert Awake(SetP(s, p, pc), w);
  }

  lemma KeepLost(s: State, p: nat, pc: PPc)
    requires p < |s.ps| && Quiet(s.ps[p]) && Quiet(pc) && AllLost(s)
    ensures AllLost(SetP(s, p, pc))
  {
    forall w | 0 <= w < |s.ws| ensures Lost(SetP(s, p, pc), w) {
      assert Lost(s, w);
      SameFlight(s.ps, p, pc, w);
    }
  }

  lemma KeepCover(s: State, p: nat, pc: PPc)
    requires Covered(s) && p < |s.ps| && Quiet(s.ps[p]) && Quiet(pc)
    requires p == s.leader && s.count > 0 && LeaderLooks(s) ==>
               SomeAwake(s) || AllLost(s) || LeaderLooks(SetP(s, p, pc))
    ensures Covered(SetP(s, p, pc))
  {
    if s.count > 0 && SomeAwake(s) {
      KeepAwake(s, p, pc);
    } else if s.count > 0 && AllLost(s) {
      KeepLost(s, p, pc);
    }
  }

  lemma PushInv(s: State, p: nat)
    requires Inv(s) && p < |s.ps| && s.ps[p] == Push
    ensures Inv(PushStep(s, p))
  {
    var s' := PushStep(s, p);
    QuietProducer(s, p, s'.ps[p]);
    var s1 := SetP(s, p, s'.ps[p]);
    if s.count > 0 {
      if SomeAwake(s1) {
        var w :| 0 <= w < |s1.ws| && Awake(s1, w);
        assert Awake(s', w);
      } else if AllLost(s1) {
        forall w | 0 <= w < |s.ws| ensures Lost(s', w) { assert Lost(s1, w); }
      }
    }
  }

  /** A count by anyone but the leader leaves the histories alone. */
  lemma NumByOther(s: State, p: nat)
    requires Inv(s) && p < |s.ps| && s.ps[p] == Num && p != s.leader
    ensures Inv(NumStep(s, p))
  {
    QuietProducer(s, p, Scan(0, s.num));
  }

  lemma NumByLeader(s: State, p: nat)
    requires Inv(s) && p < |s.ps| && s.ps[p] == Num && p == s.leader
    ensures Inv(NumStep(s, p))
  {
    ClaimSumUpdate(s.ps, p, Scan(0, s.num));
    assert LeaderLooks(NumStep(s, p));
  }

  /** A scan that found nobody: whoever sleeps claimable was left out. */
  lemma ScanMissed(s: State, p: nat, i: nat, n: nat)
    requires Inv(s) && p < |s.ps| && s.ps[p] == Scan(i, n) && i >= n && p == s.leader && LeaderLooks(s)
    ensures SomeAwake(s) || AllLost(s)
  {
    if !SomeAwake(s) {
      forall w | 0 <= w < |s.ws| ensures Lost(s, w) { assert !Awake(s, w); }
    }
  }

  /** The parts of the invariant about the indices, the lock and the one left out. */
  predicate BaseInv(s: State) {
    RangeInv(s) && LockInv(s) && LeftInv(s)
  }

  lemma ClaimBase(s: State, p: nat, i: nat, n: nat)
    requires BaseInv(s) && p < |s.ps| && s.ps[p] == Scan(i, n) && i < n && s.ws[i].isIdle
    ensures BaseInv(ScanStep(s, p, i, n))
  {
    assert WorkerOk(s.ws[i]);
  }

  lemma ClaimInv(s: State, p: nat, i: nat, n: nat)
    requires Inv(s) && p < |s.ps| && s.ps[p] == Scan(i, n) && i < n && s.ws[i].isIdle
    ensures Inv(ScanStep(s, p, i, n))
  {
    var s' := ScanStep(s, p, i, n);
    WorkerSumUpdate(s.ws, i, s'.ws[i]);
    ClaimSumUpdate(s.ps, p, Sub(i));
    ClaimBase(s, p, i, n);
    assert Claims(s'.ps[p], i);
    assert Awake(s', i);
  }

  lemma ScanInv(s: State, p: nat, i: nat, n: nat)
    requires Inv(s) && p < |s.ps| && s.ps[p] == Scan(i, n)
    ensures Inv(ScanStep(s, p, i, n))
  {
    if i >= n {
      if p == s.leader && LeaderLooks(s) { ScanMissed(s, p, i, n); }
      QuietProducer(s, p, Expand);
    } else if s.ws[i].isIdle {
      ClaimInv(s, p, i, n);
    } else {
      QuietProducer(s, p, Scan(i + 1, n));
    }
  }

  lemma SubInv(s: State, p: nat, i: nat)
    requires Inv(s) && p < |s.ps| && s.ps[p] == Sub(i)
    ensures Inv(SetP(s, p, Wake(i)).(idle := s.idle - 1))
  {
    var s' := SetP(s, p, Wake(i)).(idle := s.idle - 1);
    ClaimSumUpdate(s.ps, p, Wake(i));
    assert Claims(s'.ps[p], i);
    assert Awake(s', i);
  }

  lemma WakeBase(s: State, p: nat, i: nat)
    requires BaseInv(s) && p < |s.ps| && s.ps[p] == Wake(i)
    ensures BaseInv(WakeStep(s, p, i))
  {
    assert WorkerOk(s.ws[i]);
  }

  lemma WakeInv(s: State, p: nat, i: nat)
    requires Inv(s) && p < |s.ps| && s.ps[p] == Wake(i)
    ensures Inv(WakeStep(s, p, i))
  {
    var s' := WakeStep(s, p, i);
    WakeBase(s, p, i);
    assert WorkerOk(s.ws[i]);
    WorkerSumUpdate(s.ws, i, s'.ws[i]);
    ClaimSumUpdate(s.ps, p, Loop);
    assert Awake(s', i);
  }

  lemma ExpandInv(s: State, p: nat, c: Choice)
    requires Inv(s) && p < |s.ps| && s.ps[p] == Expand
    ensures Inv(ExpandStep(s, p, c))
  {
    if !s.lock {
      if s.num >= s.max || c != Go {
        QuietProducer(s, p, Out);
      } else {
        var s' := ExpandStep(s, p, c);
        ClaimSumUpdate(s.ps, p, Publish(s.num));
        assert s'.ws[..|s.ws|] == s.ws;
        assert Awake(s', |s.ws|);
      }
    }
  }

  /** Counting the new worker leaves everybody where they are. */
  lemma PublishInv(s: State, p: nat, id: nat)
    requires Inv(s) && p < |s.ps| && s.ps[p] == Publish(id)
    ensures Inv(SetP(s, p, Out).(num := id + 1, lock := false))
  {
    var s' := SetP(s, p, Out).(num := id + 1, lock := false);
    ClaimSumUpdate(s.ps, p, Out);
    if s.count > 0 && SomeAwake(s) {
      var w :| 0 <= w < |s.ws| && Awake(s, w);
      SameFlight(s.ps, p, Out, w);
      assert Awake(s', w);
    } else if s.count > 0 && AllLost(s) {
      forall w | 0 <= w < |s.ws| ensures Lost(s', w) {
        assert Lost(s, w);
        SameFlight(s.ps, p, Out, w);
      }
    }
  }

  lemma LookInv(s: State, p: nat, c: Choice)
    requires Inv(s) && p < |s.ps|
    requires s.ps[p].Out? || s.ps[p].Loop? || s.ps[p].Look? || s.ps[p].Try?
    ensures Inv(PStep(s, p, c))
  {
    if s.idle <= 0 { NoneIdle(s); }
    QuietProducer(s, p, PStep(s, p, c).ps[p]);
  }

  lemma ClaimerInv(s: State, p: nat, c: Choice)
    requires Inv(s) && p < |s.ps| && (s.ps[p].Num? || s.ps[p].Scan? || Claiming(s.ps[p]))
    ensures Inv(PStep(s, p, c))
  {
    match s.ps[p]
    case Num => if p == s.leader { NumByLeader(s, p); } else { NumByOther(s, p); }
    case Scan(i, n) => ScanInv(s, p, i, n);
    case Sub(i) => SubInv(s, p, i);
    case Wake(i) => WakeInv(s, p, i);
  }

  lemma ProducerInv(s: State, p: nat, c: Choice)
    requires Inv(s) && p < |s.ps|
    ensures Inv(PStep(s, p, c))
  {
    if s.ps[p].Num? || s.ps[p].Scan? || Claiming(s.ps[p]) {
      ClaimerInv(s, p, c);
    } else {
      match s.ps[p]
      case Push => PushInv(s, p);
      case Expand => ExpandInv(s, p, c);
      case Publish(id) => PublishInv(s, p, id);
      case _ => LookInv(s, p, c);
    }
  }

  lemma StepInv(s: State, a: Act)
    requires Inv(s)
    ensures Inv(Step(s, a))
  {
    match a
    case W(w, c) => if w < |s.ws| { WorkerInv(s, w, c); }
    case P(p, c) => if p < |s.ps| { ProducerInv(s, p, c); }
  }

  lemma {:induction false} RunInv(s: State, acts: seq<Act>)
    requires Inv(s)
    ensures Inv(Run(s, acts))
  {
    if acts != [] {
      RunInv(s, acts[..|acts| - 1]);
      StepInv(Run(s, acts[..|acts| - 1]), acts[|acts| - 1]);
    }
  }

  // ---------------------------------------------------------------- what every run guarantees

  ghost predicate Reachable(s: State) {
    exists skip: nat, max: nat, producers: nat, acts: seq<Act> :: s == Run(Init(skip, max, producers), acts)
  }

  lemma ReachableInv(s: State)
    requires Reachable(s)
    ensures Inv(s)
  {
    var skip: nat, max: nat, producers: nat, acts: seq<Act> :| s == Run(Init(skip, max, producers), acts);
    InitInv(skip, max, producers);
    RunInv(Init(skip, max, producers), acts);
  }

  lemma InitInv(skip: nat, max: nat, producers: nat)
    ensures Inv(Init(skip, max, producers))
  {
    var s := Init(skip, max, producers);
    NoClaims(s.ps);
    assert WorkerSum(s.ws) == 0;
  }

  lemma {:induction false} NoClaims(ps: seq<PPc>)
    requires forall p | 0 <= p < |ps| :: ps[p] == Out
    ensures ClaimSum(ps) == 0
  {
    if ps != [] { NoClaims(ps[..|ps| - 1]); }
  }

  /** Between its push and the end of its wake. */
  predicate Waking(pc: PPc) {
    !pc.Out? && !pc.Push?
  }

  /** If the queue is non-empty and every worker is blocked with is_idle still set, some producer is
      still between its push and the end of its wake, even though wakes on a deep queue are
      skipped. */
  lemma IdleWorkersAreWoken(s: State)
    requires Reachable(s) && s.count > 0
    requires forall w | 0 <= w < |s.ws| :: Asleep(s.ws[w]) && s.ws[w].isIdle
    ensures exists p :: 0 <= p < |s.ps| && Waking(s.ps[p])
  {
    ReachableInv(s);
    assert !AllLost(s) by { assert !Lost(s, 0); }
    if SomeAwake(s) {
      var w :| 0 <= w < |s.ws| && Awake(s, w);
      var p :| 0 <= p < |s.ps| && Claims(s.ps[p], w);
      assert Waking(s.ps[p]);
    } else {
      assert Waking(s.ps[s.leader]);
    }
  }

  // ---------------------------------------------------------------- when a wake is lost

  /** A worker passes its re-check of an empty queue although a producer has already taken its flag. */
  predicate Strands(s: State, a: Act) {
    a.W? && a.w < |s.ws| && s.ws[a.w].pc.Recheck? && s.count == 0 && !s.ws[a.w].isIdle
  }

  /** The step that strands worker w: the counter it read is the one its claimer has already bumped. */
  ghost predicate StrandsAt(s: State, a: Act, w: nat) {
    Strands(s, a) && a.w == w && s.ws[w].value == s.ws[w].pc.val && !InFlight(s.ps, w)
  }

  /** Worker w took that step, and its sleep has not ended by itself since. */
  ghost predicate Trapped(s: State, acts: seq<Act>, w: nat) {
    && acts != []
    && var k := |acts| - 1;
       || StrandsAt(Run(s, acts[..k]), acts[k], w)
       || (Trapped(s, acts[..k], w) && acts[k] != W(w, Spurious))
  }

  lemma StrandedByWorker(s: State, v: nat, c: Choice, w: nat)
    requires v < |s.ws| && w < |s.ws|
    ensures Stranded(WStep(s, v, c), w) <==>
            StrandsAt(s, W(v, c), w) || (Stranded(s, w) && W(v, c) != W(w, Spurious))
  {
    if v == w {
      match s.ws[w].pc
      case Sleep(val) =>
      case Recheck(val) =>
      case _ =>
    }
  }

  /** A claim that takes the flag is in flight, and the bump that ends it changes the counter. */
  lemma StrandedByClaim(s: State, p: nat, i: nat, n: nat, w: nat)
    requires RangeInv(s) && p < |s.ps| && w < |s.ws| && s.ps[p] == Scan(i, n)
    ensures Stranded(ScanStep(s, p, i, n), w) <==> Stranded(s, w)
  {
    var s' := ScanStep(s, p, i, n);
    if i < n && s.ws[i].isIdle && i == w {
      assert Claims(s'.ps[p], w);
    } else {
      SameFlight(s.ps, p, s'.ps[p], w);
    }
  }

  lemma StrandedByWake(s: State, p: nat, i: nat, w: nat)
    requires RangeInv(s) && p < |s.ps| && w < |s.ws| && s.ps[p] == Wake(i)
    ensures Stranded(WakeStep(s, p, i), w) <==> Stranded(s, w)
  {
    if i == w {
      assert WorkerOk(s.ws[w]);
      assert Claims(s.ps[p], w);
    } else {
      SameFlight(s.ps, p, Loop, w);
    }
  }

  lemma StrandedByProducer(s: State, p: nat, c: Choice, w: nat)
    requires RangeInv(s) && p < |s.ps| && w < |s.ws|
    ensures Stranded(PStep(s, p, c), w) <==> Stranded(s, w)
  {
    match s.ps[p]
    case Scan(i, n) => StrandedByClaim(s, p, i, n, w);
    case Wake(i) => StrandedByWake(s, p, i, w);
    case _ => SameFlight(s.ps, p, PStep(s, p, c).ps[p], w);
  }

  // ---- The worker that is left out ----

  /** The producer that ended the empty period counts the workers while w, started and not counted, sleeps. */
  predicate Overlooks(s: State, a: Act, w: nat) {
    a.P? && a.p == s.leader < |s.ps| && s.ps[a.p] == Num && s.num == w < |s.ws| && Dozing(s.ws[w])
  }

  /** Worker w wakes by itself or is claimed or woken, or there is a new count or a new empty period. */
  predicate Relieves(s: State, a: Act, w: nat) {
    match a
    case W(v, c) => v == w && c == Spurious
    case P(p, c) =>
      p < |s.ps| &&
      match s.ps[p]
      case Scan(i, n) => i == w < n
      case Wake(i) => i == w
      case Push => s.count == 0
      case Num => p == s.leader
      case _ => false
  }

  /** The leader's last count left out w asleep, and nothing has relieved it since. */
  predicate Overlooked(s: State, acts: seq<Act>, w: nat) {
    && acts != []
    && var k := |acts| - 1;
       || Overlooks(Run(s, acts[..k]), acts[k], w)
       || (Overlooked(s, acts[..k], w) && !Relieves(Run(s, acts[..k]), acts[k], w))
  }

  lemma LeftByWorker(s: State, v: nat, c: Choice, w: nat)
    requires LeftInv(s) && v < |s.ws|
    ensures WStep(s, v, c).left == w <==> s.left == w && !Relieves(s, W(v, c), w)
  {
  }

  lemma LeftByProducer(s: State, p: nat, c: Choice, w: nat)
    requires RangeInv(s) && LeftInv(s) && p < |s.ps|
    ensures PStep(s, p, c).left == w <==> Overlooks(s, P(p, c), w) || (s.left == w && !Relieves(s, P(p, c), w))
  {
    match s.ps[p]
    case Num =>
    case Scan(i, n) =>
    case Wake(i) =>
    case _ =>
  }

  lemma {:induction false} LeftIffOverlooked(s: State, acts: seq<Act>, w: nat)
    requires Inv(s) && s.left == -1
    ensures Run(s, acts).left == w <==> Overlooked(s, acts, w)
  {
    if acts != [] {
      var k := |acts| - 1;
      var t := Run(s, acts[..k]);
      LeftIffOverlooked(s, acts[..k], w);
      RunInv(s, acts[..k]);
      match acts[k]
      case W(v, c) => if v < |t.ws| { LeftByWorker(t, v, c, w); }
      case P(p, c) => if p < |t.ps| { LeftByProducer(t, p, c, w); }
    }
  }

  /** One step strands a worker or lets it go exactly like that. */
  lemma StrandedStep(s: State, a: Act, w: nat)
    requires RangeInv(s) && w < |Step(s, a).ws|
    ensures Stranded(Step(s, a), w) <==>
            StrandsAt(s, a, w) || (w < |s.ws| && Stranded(s, w) && a != W(w, Spurious))
  {
    match a
    case W(v, c) => if v < |s.ws| { StrandedByWorker(s, v, c, w); }
    case P(p, c) => if p < |s.ps| && w < |s.ws| { StrandedByProducer(s, p, c, w); }
  }

  lemma PoolGrows(s: State, a: Act)
    ensures |s.ws| <= |Step(s, a).ws|
  {
  }

  /** A worker that has not been started yet is not trapped. */
  lemma {:induction false} TrappedStarted(s: State, acts: seq<Act>, w: nat)
    requires Trapped(s, acts, w)
    ensures w < |Run(s, acts).ws|
  {
    var k := |acts| - 1;
    PoolGrows(Run(s, acts[..k]), acts[k]);
    if !StrandsAt(Run(s, acts[..k]), acts[k], w) { TrappedStarted(s, acts[..k], w); }
  }

  /** In every run a worker is stranded exactly when it took that step. */
  lemma {:induction false} StrandedIffTrapped(s: State, acts: seq<Act>, w: nat)
    requires Inv(s) && w < |Run(s, acts).ws| && (w < |s.ws| ==> !Stranded(s, w))
    ensures Stranded(Run(s, acts), w) <==> Trapped(s, acts, w)
  {
    if acts != [] {
      var k := |acts| - 1;
      RunInv(s, acts[..k]);
      StrandedStep(Run(s, acts[..k]), acts[k], w);
      if w < |Run(s, acts[..k]).ws| {
        StrandedIffTrapped(s, acts[..k], w);
      } else if Trapped(s, acts[..k], w) {
        TrappedStarted(s, acts[..k], w);
      }
    }
  }

  ghost predicate AllAsleep(s: State) {
    forall w | 0 <= w < |s.ws| :: Asleep(s.ws[w])
  }

  ghost predicate NoneWaking(s: State) {
    forall p | 0 <= p < |s.ps| :: !Waking(s.ps[p])
  }

  /** With queued work and no producer in its wake, workers that are all asleep are all lost. */
  lemma LossMeansLost(s: State)
    requires Inv(s) && s.count > 0 && NoneWaking(s) && AllAsleep(s)
    ensures AllLost(s)
  {
    forall w | 0 <= w < |s.ws| ensures !Awake(s, w) {
      forall p | 0 <= p < |s.ps| ensures !Claims(s.ps[p], w) { assert !Waking(s.ps[p]); }
    }
  }

  /** Every worker took the step that strands it, or is the one that was left out. */
  ghost predicate AllMissed(s: State, acts: seq<Act>) {
    forall w | 0 <= w < |Run(s, acts).ws| :: Trapped(s, acts, w) || Overlooked(s, acts, w)
  }

  lemma {:induction false} LostIffMissed(s0: State, acts: seq<Act>, s: State, w: nat)
    requires Inv(s0) && s0.left == -1 && forall v | 0 <= v < |s0.ws| :: !Stranded(s0, v)
    requires s == Run(s0, acts) && w < |s.ws|
    ensures Lost(s, w) <==> Trapped(s0, acts, w) || Overlooked(s0, acts, w)
  {
    StrandedIffTrapped(s0, acts, w);
    LeftIffOverlooked(s0, acts, w);
  }

  lemma {:induction false} LossIffMissed(s0: State, acts: seq<Act>, s: State)
    requires Inv(s0) && s0.left == -1 && forall w | 0 <= w < |s0.ws| :: !Stranded(s0, w)
    requires s == Run(s0, acts) && s.count > 0 && NoneWaking(s)
    ensures AllAsleep(s) <==> AllMissed(s0, acts)
  {
    RunInv(s0, acts);
    if AllAsleep(s) {
      LossMeansLost(s);
      forall w | 0 <= w < |s.ws| ensures Trapped(s0, acts, w) || Overlooked(s0, acts, w) {
        assert Lost(s, w);
        LostIffMissed(s0, acts, s, w);
      }
    } else {
      var w :| 0 <= w < |s.ws| && !Asleep(s.ws[w]);
      LostIffMissed(s0, acts, s, w);
      assert !(Trapped(s0, acts, w) || Overlooked(s0, acts, w));
    }
  }

  /** Exactly when a wake is lost: with queued work and no producer in its wake, every worker is asleep
      if and only if every worker took the step that strands it, or is the one that was left out. */
  lemma {:induction false} LostWakeIff(skip: nat, max: nat, producers: nat, acts: seq<Act>)
    requires var s := Run(Init(skip, max, producers), acts); s.count > 0 && NoneWaking(s)
    ensures var s0 := Init(skip, max, producers); AllAsleep(Run(s0, acts)) <==> AllMissed(s0, acts)
  {
    var s0 := Init(skip, max, producers);
    InitInv(skip, max, producers);
    LossIffMissed(s0, acts, Run(s0, acts));
  }

  /** At most one worker is left out, and never the first. */
  lemma {:induction false} OneOverlooked(skip: nat, max: nat, producers: nat, acts: seq<Act>, v: nat, w: nat)
    requires var s0 := Init(skip, max, producers); Overlooked(s0, acts, v) && Overlooked(s0, acts, w)
    ensures v == w > 0
  {
    var s0 := Init(skip, max, producers);
    InitInv(skip, max, producers);
    RunInv(s0, acts);
    LeftIffOverlooked(s0, acts, v);
    LeftIffOverlooked(s0, acts, w);
  }

  /** No worker passes its re-check with its flag taken. */
  predicate Careful(s: State, acts: seq<Act>) {
    acts != [] ==>
      Careful(s, acts[..|acts| - 1]) && !Strands(Run(s, acts[..|acts| - 1]), acts[|acts| - 1])
  }

  lemma {:induction false} CarefulNotTrapped(s: State, acts: seq<Act>, w: nat)
    requires Careful(s, acts)
    ensures !Trapped(s, acts, w)
  {
    if acts != [] { CarefulNotTrapped(s, acts[..|acts| - 1], w); }
  }

  /** Without that step no wake is lost: queued work and no producer in its wake leave some worker up. */
  lemma {:induction false} NoStrandNoLoss(skip: nat, max: nat, producers: nat, acts: seq<Act>)
    requires Careful(Init(skip, max, producers), acts)
    ensures var s := Run(Init(skip, max, producers), acts); s.count > 0 && NoneWaking(s) ==> !AllAsleep(s)
  {
    var s0 := Init(skip, max, producers);
    var s := Run(s0, acts);
    InitInv(skip, max, producers);
    RunInv(s0, acts);
    if s.count > 0 && NoneWaking(s) {
      LostWakeIff(skip, max, producers, acts);
      CarefulNotTrapped(s0, acts, 0);
      LeftIffOverlooked(s0, acts, 0);
    }
  }

  // ---------------------------------------------------------------- a lost wake

  function Two(s: State, a: Act): State { Step(Step(s, a), a) }
  function Three(s: State, a: Act): State { Step(Two(s, a), a) }

  lemma ReachStep(s: State, a: Act)
    requires Reachable(s)
    ensures Reachable(Step(s, a))
  {
    var skip: nat, max: nat, producers: nat, acts: seq<Act> :| s == Run(Init(skip, max, producers), acts);
    assert (acts + [a])[..|acts|] == acts;
    assert Step(s, a) == Run(Init(skip, max, producers), acts + [a]);
  }

  lemma Hop2(s: State, a: Act, s': State)
    requires Reachable(s) && Two(s, a) == s'
    ensures Reachable(s')
  {
    ReachStep(s, a);
    ReachStep(Step(s, a), a);
  }

  lemma Hop3(s: State, a: Act, s': State)
    requires Reachable(s) && Three(s, a) == s'
    ensures Reachable(s')
  {
    Hop2(s, a, Two(s, a));
    ReachStep(Two(s, a), a);
  }

  /** One worker in a pool of up to max, two producers. */
  function Scene(max: nat, count: nat, idle: int, x: Worker, p0: PPc, p1: PPc, leader: nat): State {
    State(count, idle, 4, max, 1, false, [x], [p0, p1], leader, -1)
  }

  /** The worker parks. */
  lemma LostWake1(m: nat)
    ensures Reachable(Scene(m, 0, 1, Worker(true, 0, Sleep(0)), Out, Out, 0))
  {
    var s0 := Scene(m, 0, 0, Worker(false, 0, Drain), Out, Out, 0);
    assert s0 == Init(4, m, 2) == Run(Init(4, m, 2), []);
    var s1 := Scene(m, 0, 1, Worker(true, 0, LoadVal), Out, Out, 0);
    Hop3(s0, W(0, Go), s1);
    Hop2(s1, W(0, Go), Scene(m, 0, 1, Worker(true, 0, Sleep(0)), Out, Out, 0));
  }

  /** Producer 0 pushes and stops just before its compare-and-swap. */
  lemma LostWake2(m: nat)
    ensures Reachable(Scene(m, 1, 1, Worker(true, 0, Sleep(0)), Scan(0, 1), Out, 0))
  {
    LostWake1(m);
    var x := Worker(true, 0, Sleep(0));
    Hop3(Scene(m, 0, 1, x, Out, Out, 0), P(0, Go), Scene(m, 1, 1, x, Look, Out, 0));
    Hop3(Scene(m, 1, 1, x, Look, Out, 0), P(0, Go), Scene(m, 1, 1, x, Scan(0, 1), Out, 0));
  }

  /** Producer 1 pushes and reaches the same point. */
  lemma LostWake3(m: nat)
    ensures Reachable(Scene(m, 2, 1, Worker(true, 0, Sleep(0)), Scan(0, 1), Scan(0, 1), 0))
  {
    LostWake2(m);
    var x := Worker(true, 0, Sleep(0));
    Hop3(Scene(m, 1, 1, x, Scan(0, 1), Out, 0), P(1, Go), Scene(m, 2, 1, x, Scan(0, 1), Look, 0));
    Hop3(Scene(m, 2, 1, x, Scan(0, 1), Look, 0), P(1, Go), Scene(m, 2, 1, x, Scan(0, 1), Scan(0, 1), 0));
  }

  lemma WakeSteps(m: nat)
    ensures var s1 := Scene(m, 2, 0, Worker(false, 1, Sleep(0)), Scan(0, 1), Loop, 0);
            && Three(Scene(m, 2, 1, Worker(true, 0, Sleep(0)), Scan(0, 1), Scan(0, 1), 0), P(1, Go)) == s1
            && Three(s1, W(0, Go)) == Scene(m, 1, 0, Worker(false, 1, Drain), Scan(0, 1), Loop, 0)
  {
  }

  /** Producer 1 claims and wakes the worker, which drains one item. */
  lemma LostWake4(m: nat)
    ensures Reachable(Scene(m, 1, 0, Worker(false, 1, Drain), Scan(0, 1), Loop, 0))
  {
    LostWake3(m);
    WakeSteps(m);
    var s1 := Scene(m, 2, 0, Worker(false, 1, Sleep(0)), Scan(0, 1), Loop, 0);
    Hop3(Scene(m, 2, 1, Worker(true, 0, Sleep(0)), Scan(0, 1), Scan(0, 1), 0), P(1, Go), s1);
    Hop3(s1, W(0, Go), Scene(m, 1, 0, Worker(false, 1, Drain), Scan(0, 1), Loop, 0));
  }

  /** The worker drains the other and marks itself idle; producer 1 finds the queue empty and leaves. */
  lemma LostWake5(m: nat)
    ensures Reachable(Scene(m, 0, 0, Worker(true, 1, Count), Scan(0, 1), Out, 0))
  {
    LostWake4(m);
    var s1 := Scene(m, 0, 0, Worker(true, 1, Count), Scan(0, 1), Loop, 0);
    Hop3(Scene(m, 1, 0, Worker(false, 1, Drain), Scan(0, 1), Loop, 0), W(0, Go), s1);
    assert Step(s1, P(1, Go)) == Scene(m, 0, 0, Worker(true, 1, Count), Scan(0, 1), Out, 0);
    ReachStep(s1, P(1, Go));
  }

  /** Producer 0's late compare-and-swap claims it and bumps its counter. */
  lemma LostWake6(m: nat)
    ensures Reachable(Scene(m, 0, -1, Worker(false, 2, Count), Out, Out, 0))
  {
    LostWake5(m);
    var s1 := Scene(m, 0, -1, Worker(false, 1, Count), Wake(0), Out, 0);
    Hop2(Scene(m, 0, 0, Worker(true, 1, Count), Scan(0, 1), Out, 0), P(0, Go), s1);
    Hop2(s1, P(0, Go), Scene(m, 0, -1, Worker(false, 2, Count), Out, Out, 0));
  }

  /** The worker reads the bumped counter, re-checks an empty queue and sleeps with is_idle clear. */
  lemma LostWake7(m: nat)
    ensures Reachable(Scene(m, 0, 0, Worker(false, 2, Sleep(2)), Out, Out, 0))
  {
    LostWake6(m);
    Hop3(Scene(m, 0, -1, Worker(false, 2, Count), Out, Out, 0), W(0, Go),
         Scene(m, 0, 0, Worker(false, 2, Sleep(2)), Out, Out, 0));
  }

  /** A wake is lost: a run that ends with work queued, every producer finished and the only worker
      asleep. */
  lemma LostWakeHappens() returns (s: State)
    ensures Reachable(s) && s.count > 0
    ensures NoneWaking(s) && AllAsleep(s)
  {
    LostWake7(1);
    var x := Worker(false, 2, Sleep(2));
    s := Scene(1, 1, 0, x, Out, Out, 1);
    Hop2(Scene(1, 0, 0, x, Out, Out, 0), P(1, Go), Scene(1, 1, 0, x, Out, Loop, 1));
    Hop3(Scene(1, 1, 0, x, Out, Loop, 1), P(1, Go), s);
  }

  // ---- A wake lost on a worker that is not counted yet ----

  /** Worker 0 is stranded; worker 1 has been started by producer 1, which holds the lock. */
  function Uncounted(count: nat, idle: int, y: Worker, p0: PPc, leader: nat, left: int): State {
    State(count, idle, 4, 2, 1, true, [Worker(false, 2, Sleep(2)), y], [p0, Publish(1)], leader, left)
  }

  /** Producer 1 pushes, sees no idle worker and starts one. */
  lemma Uncounted1()
    ensures Reachable(Uncounted(1, 0, Worker(false, 0, Drain), Out, 1, -1))
  {
    LostWake7(2);
    var x := Worker(false, 2, Sleep(2));
    Hop3(Scene(2, 0, 0, x, Out, Out, 0), P(1, Go), Scene(2, 1, 0, x, Out, Look, 1));
    Hop2(Scene(2, 1, 0, x, Out, Look, 1), P(1, Go), Uncounted(1, 0, Worker(false, 0, Drain), Out, 1, -1));
  }

  /** The new worker drains the item and parks. */
  lemma Uncounted2()
    ensures Reachable(Uncounted(0, 1, Worker(true, 0, Sleep(0)), Out, 1, -1))
  {
    Uncounted1();
    var s1 := Uncounted(0, 0, Worker(true, 0, Count), Out, 1, -1);
    Hop3(Uncounted(1, 0, Worker(false, 0, Drain), Out, 1, -1), W(1, Go), s1);
    Hop3(s1, W(1, Go), Uncounted(0, 1, Worker(true, 0, Sleep(0)), Out, 1, -1));
  }

  /** Producer 0 pushes, sees an idle worker and counts one. */
  lemma Uncounted3()
    ensures Reachable(Uncounted(1, 1, Worker(true, 0, Sleep(0)), Scan(0, 1), 0, 1))
  {
    Uncounted2();
    var y := Worker(true, 0, Sleep(0));
    Hop3(Uncounted(0, 1, y, Out, 1, -1), P(0, Go), Uncounted(1, 1, y, Look, 0, -1));
    Hop3(Uncounted(1, 1, y, Look, 0, -1), P(0, Go), Uncounted(1, 1, y, Scan(0, 1), 0, 1));
  }

  /** Both have left: worker 1 is counted too late, and the pool is full. */
  function Overdue(): State {
    State(1, 1, 4, 2, 2, false, [Worker(false, 2, Sleep(2)), Worker(true, 0, Sleep(0))], [Out, Out], 0, 1)
  }

  lemma CountedLate()
    ensures var s := Uncounted(1, 1, Worker(true, 0, Sleep(0)), Expand, 0, 1);
            Step(Step(s, P(1, Go)), P(0, Go)) == Overdue()
  {
  }

  /** A wake is lost with a worker asleep and claimable. */
  lemma OverlookHappens() returns (s: State)
    ensures Reachable(s) && s.count > 0 && NoneWaking(s) && AllAsleep(s)
    ensures |s.ws| == s.max == 2 && s.ws[1].isIdle
  {
    Uncounted3();
    var y := Worker(true, 0, Sleep(0));
    var s1 := Uncounted(1, 1, y, Expand, 0, 1);
    Hop2(Uncounted(1, 1, y, Scan(0, 1), 0, 1), P(0, Go), s1);
    CountedLate();
    ReachStep(s1, P(1, Go));
    ReachStep(Step(s1, P(1, Go)), P(0, Go));
    s := Overdue();
  }
}
