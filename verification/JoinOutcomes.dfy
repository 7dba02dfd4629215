/**
What a join and a completion come to when they are left alone: a join of a target that is done returns
its result, a join of one that is not parks under its publication, and a completion reaches whoever waits.
*/
module JoinOutcomes {
  import opened JoinHandshake

  // ---------------------------------------------------------------- the joining fiber

  function JoinerAlone(s: State, n: nat): State
    decreases n
  {
    if n == 0 then s else JoinerAlone(Step(s, Joiner), n - 1)
  }

  /** Past its last look at `done` with no wake pending: it parks, or has parked. */
  predicate Sinks(s: Shared, j: JPc) {
    ((j.Stopped? || j.Commit?) && s.word == Running) || (j.Off? && s.word != Queued)
  }

  /** Switched out on the way. */
  predicate Away(j: JPc) {
    j.Stopped? || j.Commit? || j.Requeue? || j.Off?
  }

  function JoinEnd(s: Shared, j: JPc): (Shared, JPc) {
    if j.Joined? || (j.Entry? && s.done) then (s, if j.Entry? then Joined(s.result) else j)
    else if j.Clear? || (s.done && !Sinks(s, j)) then
      (s.(waiter := false, word := if Away(j) then Running else s.word), Joined(s.result))
    else (s.(waiter := s.waiter || j.Entry? || j.Publish?, word := Parked), Off)
  }

  /** The state word agrees with where the joiner is. */
  predicate WordFits(s: Shared, j: JPc) {
    s.word == Parked || s.word == Queued <==> j.Off?
  }

  function JoinRank(s: Shared, j: JPc): nat {
    match j
    case Joined(_) => 0
    case Clear => 1
    case Off => if s.word == Queued then 7 else 0
    case Requeue => 8
    case Commit => if s.word == Running then 1 else 11
    case Stopped => if s.word == Running then 2 else 12
    case ParkIf => if s.done then 6 else if s.word == Running then 3 else 13
    case Test => if s.done then 5 else if s.word == Running then 4 else 14
    case Publish => if s.word == Running then 6 else 15
    case Entry => if s.word == Running then 7 else 16
  }

  lemma JoinNears(s: Shared, j: JPc)
    requires WordFits(s, j) && (j.Clear? ==> s.done)
    ensures var (t, k) := JNext(s, j);
            && WordFits(t, k) && (k.Clear? ==> t.done) && JoinEnd(t, k) == JoinEnd(s, j)
            && (JoinRank(s, j) > 0 ==> JoinRank(t, k) < JoinRank(s, j))
            && (JoinRank(s, j) == 0 ==> JoinEnd(s, j) == (s, j))
  {
  }

  /** Left alone, a join returns or parks, and nobody else's state changes. */
  lemma {:induction false} JoinAlone(s: State) returns (n: nat)
    requires Inv(s)
    ensures var (sh, j) := JoinEnd(s.sh, s.js[Cur(s)]);
            JoinerAlone(s, n) == s.(sh := sh, js := s.js[Cur(s) := j])
    decreases JoinRank(s.sh, s.js[Cur(s)])
  {
    var j := s.js[Cur(s)];
    JoinNears(s.sh, j);
    if JoinRank(s.sh, j) == 0 {
      n := 0;
      assert s.js[Cur(s) := j] == s.js;
    } else {
      StepInv(s, Joiner);
      n := JoinAlone(Step(s, Joiner));
      n := n + 1;
    }
  }

  /**
  Once the worker of the target has unparked the published waiter, a join that has not been robbed returns
  the result; so does one that comes later.
  */
  lemma {:induction false} JoinReturns(acts: seq<Act>) returns (n: nat)
    ensures var s := Run(Init(), acts);
      && Inv(s)
      && (PastUnpark(s.cs[Cur(s)]) && !s.robbed ==>
            |JoinerAlone(s, n).js| == |s.js| && JoinerAlone(s, n).js[Cur(s)] == Joined(s.res[Cur(s)]))
  {
    var s := Run(Init(), acts);
    RunInv(Init(), acts);
    n := JoinAlone(s);
  }

  // ---------------------------------------------------------------- the completing worker

  function WorkerAlone(s: State, l: nat, r: int, n: nat): State
    decreases n
  {
    if n == 0 then s else WorkerAlone(Step(s, Completer(l, r, false)), l, r, n - 1)
  }

  /** The effect of an unpark on the joiner's state word. */
  function Unparked(w: Word): Word {
    if w == Running then Pending else if w == Parked then Queued else w
  }

  /** The worker is about to take a published waiter, or has taken the current one. */
  predicate Reaches(s: Shared, c: CPc, cur: nat) {
    if Unparking(c) then c.t == cur else s.waiter && (c.Working? || c.SetDone? || c.Exchange?)
  }

  /** The result and the flag are stored, the waiter is taken and unparked, and the counter is bumped once. */
  function WorkEnd(s: Shared, c: CPc, cur: nat, r: int): Shared {
    if c.Finished? then s else
    Shared(
      s.done || c.Working? || c.SetDone?,
      if c.Working? then r else s.result,
      s.waiter && (Unparking(c) || c.WakeAll?),
      if Reaches(s, c, cur) then Unparked(s.word) else s.word,
      s.gen + 1)
  }

  function WorkRank(s: Shared, c: CPc, cur: nat): nat {
    match c
    case Finished => 0
    case WakeAll => 1
    case SigLoad(_) => 3
    case SigMark(t) => if t == cur && s.word != Running then 4 else 2
    case SigWake(t) => if t == cur && s.word != Parked then 4 else 2
    case Exchange => 5
    case SetDone => 6
    case Working => 7
  }

  lemma WorkNears(s: Shared, c: CPc, cur: nat, r: int)
    requires !c.Finished?
    ensures var (t, d) := CNext(s, c, cur, r, false);
            WorkEnd(t, d, cur, r) == WorkEnd(s, c, cur, r) && WorkRank(t, d, cur) < WorkRank(s, c, cur)
  {
  }

  /**
  Left alone, the worker of any life finishes; its own life's joiner is unparked if it is published, and
  the worker of an earlier life takes the publication of the current one if it has not made its exchange.
  */
  lemma {:induction false} CompletionAlone(s: State, l: nat, r: int) returns (n: nat)
    requires Inv(s) && l < |s.cs|
    ensures var c := s.cs[l];
            WorkerAlone(s, l, r, n) ==
              s.(sh := WorkEnd(s.sh, c, Cur(s), r), cs := s.cs[l := Finished],
                 res := if c.Working? then s.res[l := r] else s.res,
                 robbed := s.robbed || (l < Cur(s) && c.Exchange? && s.sh.waiter))
    decreases WorkRank(s.sh, s.cs[l], Cur(s))
  {
    if s.cs[l].Finished? {
      n := 0;
      assert s.cs[l := Finished] == s.cs;
    } else {
      if l < Cur(s) { assert PastInv(s.js[l], s.cs[l], s.res[l]); }
      WorkNears(s.sh, s.cs[l], Cur(s), r);
      StepInv(s, Completer(l, r, false));
      var t := Step(s, Completer(l, r, false));
      n := CompletionAlone(t, l, r);
      assert t.cs[l := Finished] == s.cs[l := Finished];
      n := n + 1;
    }
  }

  // ---------------------------------------------------------------- a joining thread

  function ThreadAlone(s: State, t: nat, n: nat): State
    decreases n
  {
    if n == 0 then s else ThreadAlone(Step(s, Thread(t, false)), t, n - 1)
  }

  /** It returns if the target is done and it is not asleep on the counter's value; otherwise it sleeps on it. */
  function ThreadEnd(s: Shared, p: TPc): TPc {
    if p.TJoined? then p else if s.done && p != TSleep(s.gen) then TJoined(s.result) else TSleep(s.gen)
  }

  function ThreadRank(s: Shared, p: TPc): nat {
    match p
    case TJoined(_) => 0
    case TSleep(gen) => if gen == s.gen then 0 else 4
    case TTest => 3
    case TLoad => 2
    case TRecheck(gen) => if gen == s.gen then 1 else 5
  }

  lemma ThreadNears(s: Shared, p: TPc)
    ensures var q := TNext(s, p, false);
            && ThreadEnd(s, q) == ThreadEnd(s, p)
            && (ThreadRank(s, p) > 0 ==> ThreadRank(s, q) < ThreadRank(s, p))
            && (ThreadRank(s, p) == 0 ==> ThreadEnd(s, p) == p)
  {
  }

  /** Left alone, a joining thread returns or sleeps. */
  lemma {:induction false} ThreadJoinAlone(s: State, t: nat) returns (n: nat)
    requires Inv(s) && t < |s.ts| && s.ts[t].life == Cur(s)
    ensures ThreadAlone(s, t, n) == s.(ts := s.ts[t := s.ts[t].(pc := ThreadEnd(s.sh, s.ts[t].pc))])
    decreases ThreadRank(s.sh, s.ts[t].pc)
  {
    var p := s.ts[t].pc;
    ThreadNears(s.sh, p);
    if ThreadRank(s.sh, p) == 0 {
      n := 0;
      assert s.ts[t := s.ts[t].(pc := p)] == s.ts;
    } else {
      var u := Step(s, Thread(t, false));
      StepInv(s, Thread(t, false));
      n := ThreadJoinAlone(u, t);
      assert u.ts[t := s.ts[t].(pc := ThreadEnd(s.sh, p))] == s.ts[t := s.ts[t].(pc := ThreadEnd(s.sh, p))];
      n := n + 1;
    }
  }

  /** The life of the target that each thread joins. */
  function Lives(acts: seq<Act>): seq<int> {
    if acts == [] then []
    else
      var k := |acts| - 1;
      Lives(acts[..k]) + if acts[k] == NewThread then [|Run(Init(), acts[..k]).cs| - 1] else []
  }

  predicate Joining(ts: seq<Thr>, l: seq<int>) {
    |ts| == |l| && forall t | 0 <= t < |ts| :: ts[t].life == l[t]
  }

  lemma LivesStep(s: State, a: Act, l: seq<int>)
    requires Shape(s) && Joining(s.ts, l)
    ensures Joining(Step(s, a).ts, l + if a == NewThread then [Cur(s)] else [])
  {
    assert l + [] == l;
  }

  /** Every thread that calls joins the life it found, and keeps to it. */
  lemma {:induction false} ThreadsJoin(acts: seq<Act>)
    ensures Joining(Run(Init(), acts).ts, Lives(acts))
  {
    if acts != [] {
      var k := |acts| - 1;
      ThreadsJoin(acts[..k]);
      RunInv(Init(), acts[..k]);
      LivesStep(Run(Init(), acts[..k]), acts[k], Lives(acts[..k]));
    }
  }

  /** A stray wake is an unpark like any other. */
  lemma StrayUnparks(s: State)
    requires Inv(s)
    ensures Step(s, StrayWake) == s.(sh := s.sh.(word := Unparked(s.sh.word)))
  {
  }

  /** Once the worker has finished, every thread that joins returns the result. */
  lemma {:induction false} ThreadReturns(acts: seq<Act>, t: nat) returns (n: nat)
    requires t < |Run(Init(), acts).ts| && Run(Init(), acts).ts[t].life == |Run(Init(), acts).cs| - 1
    ensures var s := Run(Init(), acts);
      && Inv(s)
      && (s.cs[Cur(s)].Finished? ==>
            t < |ThreadAlone(s, t, n).ts| && ThreadAlone(s, t, n).ts[t].pc == TJoined(s.res[Cur(s)]))
  {
    var s := Run(Init(), acts);
    RunInv(Init(), acts);
    assert ThreadInv(s.sh, s.cs[Cur(s)], Cur(s), s.ts[t], s.res);
    n := ThreadJoinAlone(s, t);
  }
}
