/**
What the workers and the producers of the scheduler come to when they are left alone: a worker drains the
queue and sleeps where producers can find it, and one round of a producer wakes the first idle worker.
*/
module WorkerOutcomes {
  import opened WorkerWake

  // ---------------------------------------------------------------- the queue

  /** The step pushes. */
  predicate Pushes(s: State, a: Act) {
    a.P? && a.p < |s.ps| && s.ps[a.p] == Push
  }

  /** The step pops. */
  predicate Pops(s: State, a: Act) {
    a.W? && a.w < |s.ws| && s.ws[a.w].pc == Drain && s.count > 0
  }

  function Pushed(s: State, acts: seq<Act>): nat {
    if acts == [] then 0
    else
      var k := |acts| - 1;
      Pushed(s, acts[..k]) + if Pushes(Run(s, acts[..k]), acts[k]) then 1 else 0
  }

  function Popped(s: State, acts: seq<Act>): nat {
    if acts == [] then 0
    else
      var k := |acts| - 1;
      Popped(s, acts[..k]) + if Pops(Run(s, acts[..k]), acts[k]) then 1 else 0
  }

  lemma CountStep(s: State, a: Act)
    ensures Step(s, a).count == s.count + (if Pushes(s, a) then 1 else 0) - (if Pops(s, a) then 1 else 0)
  {
  }

  /** The depth of the queue is what was pushed and has not been popped. */
  lemma {:induction false} DepthIsOutstanding(s: State, acts: seq<Act>)
    ensures Run(s, acts).count == s.count + Pushed(s, acts) - Popped(s, acts)
  {
    if acts != [] {
      var k := |acts| - 1;
      DepthIsOutstanding(s, acts[..k]);
      CountStep(Run(s, acts[..k]), acts[k]);
    }
  }

  // ---------------------------------------------------------------- a worker left alone

  function WorkerAlone(s: State, w: nat, n: nat): State
    decreases n
  {
    if n == 0 then s else WorkerAlone(Step(s, W(w, Go)), w, n - 1)
  }

  /** On its way to sleep: nothing is queued and its wake counter has not moved. */
  predicate Settling(s: State, x: Worker) {
    s.count == 0 && (x.pc == Count || x.pc == LoadVal || x.pc == Recheck(x.value))
  }

  /**
  A worker that is not asleep drains the queue, marks itself idle, is counted, and sleeps on the value of its
  wake counter.  One that is settling does so as it is, claimed or not.
  */
  function EndWorker(s: State, x: Worker): Worker {
    if Asleep(x) then x else Worker(if Settling(s, x) then x.isIdle else true, x.value, Sleep(x.value))
  }

  function EndIdle(s: State, x: Worker): int {
    if Asleep(x) then s.idle
    else if Settling(s, x) then s.idle + (if x.pc == Count then 1 else 0)
    else s.idle - Weight(x) + 1
  }

  function EndCount(s: State, x: Worker): nat {
    if Asleep(x) then s.count else 0
  }

  function WorkerRank(s: State, x: Worker): nat {
    var late := s.count > 0;
    match x.pc
    case Mark => if late then 11 + s.count else 4
    case Count => if late then 10 + s.count else 3
    case LoadVal => if late then 9 + s.count else 2
    case Recheck(val) => if val != x.value then 9 + s.count else if late then 8 + s.count else 1
    case Drain => 5 + s.count
    case Uncount => 6 + s.count
    case Unmark => 7 + s.count
    case Sleep(val) => if val != x.value then 8 + s.count else 0
  }

  /** The worker's next step changes nothing but the worker and the two counts, and takes it nearer to the same end. */
  predicate Nears(s: State, w: nat)
    requires w < |s.ws|
  {
    var t, x := Step(s, W(w, Go)), s.ws[w];
    && |t.ws| == |s.ws| && WorkerOk(t.ws[w])
    && t == s.(ws := s.ws[w := t.ws[w]], count := t.count, idle := t.idle)
    && WorkerRank(t, t.ws[w]) < WorkerRank(s, x) && EndWorker(t, t.ws[w]) == EndWorker(s, x)
    && EndIdle(t, t.ws[w]) == EndIdle(s, x) && EndCount(t, t.ws[w]) == EndCount(s, x)
  }

  lemma DrainNears(s: State, w: nat)
    requires w < |s.ws| && WorkerOk(s.ws[w])
    requires var pc := s.ws[w].pc; pc.Drain? || pc.Mark? || pc.Count? || pc.LoadVal?
    ensures Nears(s, w)
  {
    assert s.ws[w := s.ws[w]] == s.ws;
  }

  lemma WakeNears(s: State, w: nat)
    requires w < |s.ws| && WorkerOk(s.ws[w]) && LeftInv(s) && !Asleep(s.ws[w])
    requires var pc := s.ws[w].pc; pc.Recheck? || pc.Unmark? || pc.Uncount? || pc.Sleep?
    ensures Nears(s, w)
  {
  }

  /** Left alone, a worker ends asleep, with the queue empty unless it was asleep all along. */
  lemma {:induction false} SleepsAlone(s: State, w: nat) returns (n: nat)
    requires Inv(s) && w < |s.ws|
    ensures var x := s.ws[w];
            WorkerAlone(s, w, n)
              == s.(ws := s.ws[w := EndWorker(s, x)], count := EndCount(s, x), idle := EndIdle(s, x))
    decreases WorkerRank(s, s.ws[w])
  {
    var x := s.ws[w];
    if Asleep(x) {
      n := 0;
      assert s.ws[w := x] == s.ws;
    } else {
      var t := Step(s, W(w, Go));
      if x.pc.Drain? || x.pc.Mark? || x.pc.Count? || x.pc.LoadVal? { DrainNears(s, w); } else { WakeNears(s, w); }
      StepInv(s, W(w, Go));
      n := SleepsAlone(t, w);
      assert t.ws[w := EndWorker(s, x)] == s.ws[w := EndWorker(s, x)];
      n := n + 1;
    }
  }

  // ---------------------------------------------------------------- a producer left alone

  function ProducerAlone(s: State, p: nat, n: nat): State
    decreases n
  {
    if n == 0 then s else ProducerAlone(Step(s, P(p, Go)), p, n - 1)
  }

  /** The first worker from i on, below n, that is flagged idle; n if there is none. */
  function FirstIdle(ws: seq<Worker>, i: nat, n: nat): (k: nat)
    ensures k < n ==> k < |ws| && i <= k && ws[k].isIdle
    decreases n - i
  {
    if i >= n || i >= |ws| then n else if ws[i].isIdle then i else FirstIdle(ws, i + 1, n)
  }

  /** The worker that the producer's round wakes, or -1. */
  function Target(s: State, pc: PPc): int {
    match pc
    case Look => if s.idle <= 0 then -1 else Seek(s, 0, s.num)
    case Try => if s.idle <= 0 then -1 else Seek(s, 0, s.num)
    case Num => Seek(s, 0, s.num)
    case Scan(i, n) => Seek(s, i, n)
    case Sub(i) => i
    case Wake(i) => i
    case _ => -1
  }

  function Seek(s: State, i: nat, n: nat): int {
    if FirstIdle(s.ws, i, n) < n then FirstIdle(s.ws, i, n) else -1
  }

  predicate InRound(pc: PPc) {
    pc.Look? || pc.Try? || pc.Num? || pc.Scan? || pc.Sub? || pc.Wake?
  }

  /** The target is claimed unless it has been already, its wake counter is bumped, and it is counted out. */
  function TargetEnd(pc: PPc, x: Worker): Worker {
    x.(isIdle := (pc.Sub? || pc.Wake?) && x.isIdle, value := x.value + 1)
  }

  function RoundEnd(s: State, p: nat): State
    requires p < |s.ps|
  {
    var (pc, k) := (s.ps[p], Target(s, s.ps[p]));
    if k < 0 || k >= |s.ws| then SetP(s, p, Expand)
    else SetP(SetW(s, k, TargetEnd(pc, s.ws[k])), p, Loop).(idle := s.idle - if pc.Wake? then 0 else 1)
  }

  predicate ClaimedOk(s: State, pc: PPc) {
    (pc.Sub? || pc.Wake? ==> pc.i < |s.ws|) && (pc.Scan? ==> pc.n <= |s.ws|)
  }

  function RoundRank(s: State, pc: PPc): nat {
    match pc
    case Look => s.num + 5
    case Try => s.num + 4
    case Num => s.num + 3
    case Scan(i, n) => if i < n then n - i + 2 else 2
    case Sub(_) => 2
    case Wake(_) => 1
    case _ => 0
  }

  /** What the leader's history records has no part in the outcome. */
  function Plain(s: State): State {
    s.(left := -1)
  }

  lemma ScanNears(s: State, p: nat, i: nat, n: nat)
    requires p < |s.ps| && s.ps[p] == Scan(i, n) && n <= |s.ws|
    ensures var t := ScanStep(s, p, i, n);
            && |t.ps| == |s.ps| && ClaimedOk(t, t.ps[p])
            && (InRound(t.ps[p]) ==> RoundRank(t, t.ps[p]) < RoundRank(s, s.ps[p])
                                     && Plain(RoundEnd(t, p)) == Plain(RoundEnd(s, p)))
            && (!InRound(t.ps[p]) ==> Plain(t) == Plain(RoundEnd(s, p)))
  {
    var t := ScanStep(s, p, i, n);
    if i < n {
      if s.ws[i].isIdle {
        var x := TargetEnd(s.ps[p], s.ws[i]);
        assert t.ws[i := x] == s.ws[i := x];
        assert t.ps[p := Loop] == s.ps[p := Loop];
      } else {
        assert t.ps[p := Loop] == s.ps[p := Loop] && t.ps[p := Expand] == s.ps[p := Expand];
      }
    }
  }

  lemma LookNears(s: State, p: nat)
    requires p < |s.ps| && (s.ps[p].Look? || s.ps[p].Try? || s.ps[p].Num?) && s.num <= |s.ws|
    ensures var t := Step(s, P(p, Go));
            && |t.ps| == |s.ps| && ClaimedOk(t, t.ps[p]) && t.num <= |t.ws|
            && (InRound(t.ps[p]) ==> RoundRank(t, t.ps[p]) < RoundRank(s, s.ps[p])
                                     && Plain(RoundEnd(t, p)) == Plain(RoundEnd(s, p)))
            && (!InRound(t.ps[p]) ==> Plain(t) == Plain(RoundEnd(s, p)))
  {
    var t := Step(s, P(p, Go));
    assert t.ps[p := Loop] == s.ps[p := Loop] && t.ps[p := Expand] == s.ps[p := Expand];
  }

  lemma ClaimNears(s: State, p: nat)
    requires p < |s.ps| && (s.ps[p].Sub? || s.ps[p].Wake?) && s.ps[p].i < |s.ws| && s.num <= |s.ws|
    ensures var t := Step(s, P(p, Go));
            && |t.ps| == |s.ps| && ClaimedOk(t, t.ps[p]) && t.num <= |t.ws|
            && (InRound(t.ps[p]) ==> RoundRank(t, t.ps[p]) < RoundRank(s, s.ps[p])
                                     && Plain(RoundEnd(t, p)) == Plain(RoundEnd(s, p)))
            && (!InRound(t.ps[p]) ==> Plain(t) == Plain(RoundEnd(s, p)))
  {
    var t := Step(s, P(p, Go));
    assert t.ps[p := Loop] == s.ps[p := Loop];
  }

  /**
  One round of a producer that is left alone wakes the first worker flagged idle, and turns to starting another
  worker only if it sees none.
  */
  lemma {:induction false} RoundAlone(s: State, p: nat) returns (n: nat)
    requires Inv(s) && p < |s.ps| && InRound(s.ps[p])
    ensures Plain(ProducerAlone(s, p, n)) == Plain(RoundEnd(s, p))
    decreases RoundRank(s, s.ps[p])
  {
    var t := Step(s, P(p, Go));
    StepInv(s, P(p, Go));
    if s.ps[p].Scan? {
      assert t == ScanStep(s, p, s.ps[p].i, s.ps[p].n);
      ScanNears(s, p, s.ps[p].i, s.ps[p].n);
    } else if s.ps[p].Sub? || s.ps[p].Wake? {
      ClaimNears(s, p);
    } else {
      LookNears(s, p);
    }
    if InRound(t.ps[p]) {
      n := RoundAlone(t, p);
      n := n + 1;
    } else {
      n := 1;
      assert ProducerAlone(t, p, 0) == t;
    }
  }

  /** A push adds one and looks for a worker unless the queue was deep; a look goes on while something is queued;
      with the lock free, the pool grows by one running worker that is counted, up to its limit. */
  lemma TurnsAlone(s: State, p: nat)
    requires p < |s.ps|
    ensures s.ps[p] == Out ==> Step(s, P(p, Go)).ps[p] == Push
    ensures s.ps[p] == Push ==>
              var t := Step(s, P(p, Go));
              t.count == s.count + 1 && (t.ps[p] == if s.skip == 0 || s.count < s.skip then Loop else Out)
    ensures s.ps[p] == Loop ==> Step(s, P(p, Go)) == SetP(s, p, if s.count == 0 then Out else Look)
    ensures s.ps[p] == Expand && !s.lock && s.num < s.max ==>
              var t := Step(Step(s, P(p, Go)), P(p, Go));
              t == SetP(s, p, Out).(num := s.num + 1, ws := s.ws + [Worker(false, 0, Drain)])
    ensures s.ps[p] == Expand && !s.lock && s.num >= s.max ==> Step(s, P(p, Go)) == SetP(s, p, Out)
  {
    assert s.ps[p := Publish(s.num)][p := Out] == s.ps[p := Out];
  }
}
