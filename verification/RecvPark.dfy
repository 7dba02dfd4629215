/**
Blocking receive on an open ring channel: the register / fence / re-check / park sequence of one
receiving fiber against any number of senders, with off-list probing, direct handoff and wake
coalescing.  One action is one atomic access, or one section under the channel mutex.

The ring is reduced to what the protocol reads: the claim counters and which positions are
published.  Unparking is one atomic update of the fiber's state word (see FiberStates).
*/
module RecvPark {
  datatype Notify = NONE | SIGNAL | DATA

  /** The receiving fiber's state word; Pending is RUNNING with the signal-pending bit. */
  datatype Word = Running | Pending | Parked | Queued

  /** The receiver's next step; comments give what it does. */
  datatype Rx =
    | RxIdle
    | RxTry       // dequeue at the top of the loop
    | RxAdd       // lock: link the node
    | RxCount     // load tail and head after the first link
    | RxEarly     // a non-empty ring was seen: load notified
    | RxUnlink    // lock: load notified, unlink, retry
    | RxEarly2    // an empty ring was seen: load notified
    | RxPreDeq    // lock: load notified, unlink to probe
    | RxProbe     // dequeue while off the list
    | RxReadd     // lock: link the node again
    | RxRecount   // load tail and head after the second link
    | RxCheck(n: nat)  // n more loads of notified guard the park
    | RxYield     // switched out; the worker commits the park
    | RxSleep     // parked, or queued to be resumed
    | RxPost      // lock: load notified after the park, unlink

  /** How a sender notifies: the lock-free coalescing path or the canonical locked one. */
  datatype Path = Coalesce | Locked

  datatype Tx =
    | TxIdle
    | TxHandoff            // load has_recv_waiters to decide on a direct handoff
    | TxHandoffLock        // lock: pop the waiter and hand over
    | TxClaim(path: Path)  // claim a position, or find the ring full
    | TxPublish(pos: nat, path: Path)
    | TxWaiters            // load has_recv_waiters
    | TxInflight           // load recv_wake_inflight
    | TxBudget             // lock: signal up to target - inflight waiters
    | TxSignal             // lock: signal one waiter
    | TxDekker             // about to park on a full ring: load has_recv_waiters
    | TxDekkerLock         // lock: signal one waiter before parking
    | TxFlush(blocked: bool)  // unpark the fiber that was notified

  /** What the threads share. */
  datatype Chan = Chan(
    target: nat,       // recv wake target, at least 1
    head: nat,
    tail: nat,
    pub: set<nat>,     // published positions
    linked: bool,
    note: Notify,
    waiters: nat,      // has_recv_waiters
    inflight: nat,     // recv_wake_inflight
    word: Word,
    handed: nat,       // history: direct handoffs made
    kept: nat)         // history: direct handoffs returned by a receive

  datatype State = State(ch: Chan, rx: Rx, tx: seq<Tx>)

  datatype Choice = Begin | Direct | Full | Go

  datatype Act = Receiver(c: Choice) | Sender(t: nat, c: Choice) | StrayWake

  function Init(target: nat, senders: nat): State {
    State(Chan(target, 0, 0, {}, false, NONE, 0, 0, Running, 0, 0), RxIdle, seq(senders, i => TxIdle))
  }

  // ---------------------------------------------------------------- list sections

  /** Counters clamp at zero. */
  function Dec(n: nat): nat { if n == 0 then 0 else n - 1 }

  function Link(s: Chan): Chan {
    s.(linked := true, note := NONE, waiters := s.waiters + 1)
  }

  function Unlink(s: Chan): Chan {
    if !s.linked then s.(waiters := 0)
    else match s.note
      case NONE => s.(linked := false, waiters := Dec(s.waiters))
      case SIGNAL => s.(linked := false, inflight := Dec(s.inflight))
      case DATA => s.(linked := false)
  }

  /** Signal up to k plain waiters; here there is at most one. */
  function SignalWaiters(s: Chan, k: int): Chan {
    if k > 0 && s.linked && s.note == NONE
    then s.(note := SIGNAL, waiters := Dec(s.waiters), inflight := s.inflight + 1)
    else s
  }

  /** Pop a waiter and hand over, or drop a waiter that was already signalled. */
  function PopAndHand(s: Chan): Chan {
    if s.linked && s.note == NONE
    then s.(linked := false, note := DATA, waiters := Dec(s.waiters), handed := s.handed + 1)
    else if s.linked
    then s.(linked := false, inflight := if s.note == SIGNAL then Dec(s.inflight) else s.inflight)
    else s
  }

  /** `sched_v2_signal` on the receiving fiber. */
  function Unpark(s: Chan): Chan {
    match s.word
    case Running => s.(word := Pending)
    case Parked => s.(word := Queued)
    case _ => s
  }

  // ---------------------------------------------------------------- receiver

  function Dequeue(s: Chan, ok: Rx, no: Rx): (Chan, Rx) {
    if s.head in s.pub then (s.(head := s.head + 1), ok) else (s, no)
  }

  /** The receive returns the value handed to it. */
  function Return(s: Chan): (Chan, Rx) {
    (s.(kept := s.kept + 1), RxIdle)
  }

  function RxNext(s: Chan, pc: Rx, c: Choice): (Chan, Rx) {
    match pc
    case RxIdle => (s, if c == Begin then RxTry else RxIdle)
    case RxTry => Dequeue(s, RxIdle, RxAdd)
    case RxAdd => (Link(s), RxCount)
    case RxCount => (s, if s.tail > s.head then RxEarly else RxEarly2)
    case RxEarly => if s.note == DATA then Return(s) else (s, RxUnlink)
    case RxUnlink => if s.note == DATA then Return(s) else (Unlink(s), RxTry)
    case RxEarly2 => if s.note == DATA then Return(s) else (s, RxPreDeq)
    case RxPreDeq =>
      if s.note == DATA then Return(s)
      else (Unlink(s), if s.note == NONE then RxProbe else RxTry)
    case RxProbe => Dequeue(s, RxIdle, RxReadd)
    case RxReadd =>
      if s.note == DATA then Return(s)
      else if s.note != NONE then (s, RxTry)
      else (Link(s), RxRecount)
    case RxRecount => (s, if s.tail > s.head then RxEarly else RxCheck(3))
    case RxCheck(n) =>
      (s, if s.note != NONE then RxPost else if n == 0 then RxYield else RxCheck(n - 1))
    case RxYield => (s.(word := if s.word == Pending then Queued else Parked), RxSleep)
    case RxSleep => if s.word == Queued then (s.(word := Running), RxPost) else (s, RxSleep)
    case RxPost => if s.note == DATA then Return(s) else (Unlink(s), RxTry)
  }

  // ---------------------------------------------------------------- senders

  /** Leave a locked section: the wake batch is flushed next if a waiter was notified. */
  function Leave(s: Chan, s': Chan, blocked: bool): (Chan, Tx) {
    (s', if s'.note != s.note then TxFlush(blocked) else AfterFlush(blocked))
  }

  function AfterFlush(blocked: bool): Tx {
    if blocked then TxClaim(Locked) else TxIdle
  }

  function TxNext(s: Chan, pc: Tx, c: Choice): (Chan, Tx) {
    match pc
    case TxIdle =>
      (s, if c == Begin then TxClaim(Coalesce) else if c == Direct then TxHandoff else TxIdle)
    case TxHandoff => (s, if s.waiters > 0 then TxHandoffLock else TxClaim(Coalesce))
    case TxHandoffLock =>
      var s' := PopAndHand(s);
      (s', if s'.note != s.note then TxFlush(false) else TxClaim(Coalesce))
    case TxClaim(path) =>
      if c == Full then (s, TxDekker)
      else (s.(tail := s.tail + 1), TxPublish(s.tail, path))
    case TxPublish(pos, path) =>
      (s.(pub := s.pub + {pos}), if path == Coalesce then TxWaiters else TxSignal)
    case TxWaiters => (s, if s.waiters == 0 then TxIdle else TxInflight)
    case TxInflight => (s, if s.inflight >= s.target then TxIdle else TxBudget)
    case TxBudget => Leave(s, SignalWaiters(s, s.target - s.inflight), false)
    case TxSignal => Leave(s, SignalWaiters(s, 1), false)
    case TxDekker => (s, if s.waiters > 0 then TxDekkerLock else TxClaim(Locked))
    case TxDekkerLock => Leave(s, SignalWaiters(s, 1), true)
    case TxFlush(blocked) => (Unpark(s), AfterFlush(blocked))
  }

  /** A stray wake models an unpark left over from anything else the fiber waited on. */
  function Step(s: State, a: Act): State {
    match a
    case Receiver(c) => var (ch, rx) := RxNext(s.ch, s.rx, c); State(ch, rx, s.tx)
    case Sender(t, c) =>
      if t >= |s.tx| then s else
      var (ch, pc) := TxNext(s.ch, s.tx[t], c);
      State(ch, s.rx, s.tx[t := pc])
    case StrayWake => s.(ch := Unpark(s.ch))
  }

  function Run(s: State, acts: seq<Act>): State {
    if acts == [] then s else Step(Run(s, acts[..|acts| - 1]), acts[|acts| - 1])
  }

  // ---------------------------------------------------------------- invariant

  predicate Registered(rx: Rx) {
    !(rx.RxIdle? || rx.RxTry? || rx.RxAdd? || rx.RxProbe? || rx.RxReadd?)
  }

  /** Past the second count: on the way to sleep. */
  predicate Committed(rx: Rx) {
    rx.RxCheck? || rx.RxYield? || rx.RxSleep?
  }

  /** A sender that has claimed a position and has yet to decide whether to signal. */
  predicate WillNotify(pc: Tx) {
    pc.TxPublish? || pc.TxWaiters? || pc.TxInflight? || pc.TxBudget? || pc.TxSignal?
  }

  predicate Waiting(s: Chan) { s.linked && s.note == NONE }

  /** The two counters agree with the list. */
  predicate CountInv(s: Chan, rx: Rx) {
    && s.target >= 1
    && s.waiters == (if Waiting(s) then 1 else 0)
    && s.inflight == (if s.linked && s.note == SIGNAL then 1 else 0)
    && (s.linked ==> s.note != DATA && Registered(rx))
    && (Registered(rx) && !s.linked ==> s.note != NONE)
    && (rx.RxProbe? || rx.RxReadd? ==> s.note == NONE)
  }

  /** The fiber's word is parked or queued exactly while it is switched out; and every direct
      handoff has been returned, except one the receiver has yet to look at. */
  predicate LocalInv(s: Chan, rx: Rx) {
    && CountInv(s, rx)
    && (rx.RxSleep? <==> (s.word == Parked || s.word == Queued))
    && s.handed == s.kept + (if Registered(rx) && s.note == DATA then 1 else 0)
  }

  predicate PositionInv(s: Chan) {
    s.head <= s.tail && (forall p | p in s.pub :: p < s.tail)
  }

  predicate ClaimInv(s: Chan, pc: Tx) {
    pc.TxPublish? ==> pc.pos < s.tail
  }

  /** The receiver is going to sleep past a claimed position. */
  predicate Uncovered(s: Chan, rx: Rx) {
    Committed(rx) && Waiting(s) && s.tail > s.head
  }

  /** The receiver is notified, and asleep or past its last look. */
  predicate Unwoken(s: Chan, rx: Rx) {
    s.note != NONE && (s.word == Parked || (rx.RxYield? && s.word == Running))
  }

  /** A receiver going to sleep past a claimed position has a sender about to notify it; a
      notified receiver that is asleep has a sender about to unpark it. */
  ghost predicate Inv(s: State) {
    && PositionInv(s.ch) && LocalInv(s.ch, s.rx)
    && (forall t | 0 <= t < |s.tx| :: ClaimInv(s.ch, s.tx[t]))
    && (Uncovered(s.ch, s.rx) ==> exists t :: 0 <= t < |s.tx| && WillNotify(s.tx[t]))
    && (Unwoken(s.ch, s.rx) ==> exists t :: 0 <= t < |s.tx| && s.tx[t].TxFlush?)
  }

  lemma RxKeeps(s: Chan, pc: Rx, c: Choice)
    requires PositionInv(s) && LocalInv(s, pc)
    ensures var (s', pc') := RxNext(s, pc, c);
      && PositionInv(s') && LocalInv(s', pc') && s'.tail == s.tail
      && (Uncovered(s', pc') ==> Uncovered(s, pc))
      && (Unwoken(s', pc') ==> Unwoken(s, pc))
  {
  }

  /** A sender step that leaves the receiver going to sleep past a claimed position is by a sender
      that is about to notify, or changes nothing of it; likewise for the unpark. */
  lemma TxPosition(s: Chan, pc: Tx, c: Choice)
    requires PositionInv(s) && ClaimInv(s, pc)
    ensures var (s', pc') := TxNext(s, pc, c); PositionInv(s') && ClaimInv(s', pc') && s.tail <= s'.tail
  {
  }

  lemma TxLocal(s: Chan, rx: Rx, pc: Tx, c: Choice)
    requires LocalInv(s, rx)
    ensures LocalInv(TxNext(s, pc, c).0, rx)
  {
  }

  /** A sender leaves no claimed position unannounced that was announced before. */
  lemma TxCovers(s: Chan, rx: Rx, pc: Tx, c: Choice)
    requires LocalInv(s, rx)
    ensures var (s', pc') := TxNext(s, pc, c);
      Uncovered(s', rx) ==> WillNotify(pc') || (Uncovered(s, rx) && !WillNotify(pc))
  {
  }

  /** ... and no notified receiver asleep. */
  lemma TxWakes(s: Chan, rx: Rx, pc: Tx, c: Choice)
    requires LocalInv(s, rx)
    ensures var (s', pc') := TxNext(s, pc, c);
      Unwoken(s', rx) ==> pc'.TxFlush? || (Unwoken(s, rx) && !pc.TxFlush?)
  {
  }

  lemma StepInv(s: State, a: Act)
    requires Inv(s)
    ensures Inv(Step(s, a))
  {
    match a
    case Receiver(c) => RxKeeps(s.ch, s.rx, c);
    case Sender(t, c) =>
      if t < |s.tx| { SenderInv(s, t, c); }
    case StrayWake =>
  }

  lemma SenderInv(s: State, t: nat, c: Choice)
    requires Inv(s) && t < |s.tx|
    ensures Inv(Step(s, Sender(t, c)))
  {
    TxPosition(s.ch, s.tx[t], c);
    TxLocal(s.ch, s.rx, s.tx[t], c);
    TxCovers(s.ch, s.rx, s.tx[t], c);
    TxWakes(s.ch, s.rx, s.tx[t], c);
    var s' := Step(s, Sender(t, c));
    assert forall u | 0 <= u < |s.tx| && u != t :: s'.tx[u] == s.tx[u];
    if Uncovered(s'.ch, s.rx) && !WillNotify(s'.tx[t]) {
      var u :| 0 <= u < |s.tx| && WillNotify(s.tx[u]);
      assert WillNotify(s'.tx[u]);
    }
    if Unwoken(s'.ch, s.rx) && !s'.tx[t].TxFlush? {
      var u :| 0 <= u < |s.tx| && s.tx[u].TxFlush?;
      assert s'.tx[u].TxFlush?;
    }
  }

  lemma {:induction false} RunInv(s: State, acts: seq<Act>)
    requires Inv(s)
    ensures Inv(Run(s, acts))
  {
    if acts != [] {
      RunInv(s, acts[..|acts| - 1]);
      StepInv(Run(s, acts[..|acts| - 1]), acts[|acts| - 1]);
    }
  }

  // ---------------------------------------------------------------- what every run guarantees

  /** Not between a claim and the end of its notify. */
  predicate Notified(pc: Tx) {
    !WillNotify(pc) && !pc.TxFlush?
  }

  /** No lost wake: when every sender has finished its notify, a parked receiver is unnotified and
      nothing has been claimed that it has not taken. */
  lemma {:induction false} NoLostWake(target: nat, senders: nat, acts: seq<Act>)
    requires target >= 1
    ensures var s := Run(Init(target, senders), acts);
      s.ch.word == Parked && (forall t | 0 <= t < |s.tx| :: Notified(s.tx[t])) ==>
        s.ch.tail == s.ch.head && s.ch.note == NONE && s.ch.linked
  {
    RunInv(Init(target, senders), acts);
  }

  /** No handoff is lost: a receive that is not registered has returned every value handed to it,
      and at most one value is ever waiting to be noticed. */
  lemma {:induction false} NoLostHandoff(target: nat, senders: nat, acts: seq<Act>)
    requires target >= 1
    ensures var s := Run(Init(target, senders), acts);
      s.ch.kept <= s.ch.handed <= s.ch.kept + 1 && (s.rx == RxIdle ==> s.ch.handed == s.ch.kept)
  {
    RunInv(Init(target, senders), acts);
  }

  /** The waiter and in-flight counters agree with the list, so coalescing never mistakes an old
      wake for one still in flight. */
  lemma {:induction false} CountersAgree(target: nat, senders: nat, acts: seq<Act>)
    requires target >= 1
    ensures var s := Run(Init(target, senders), acts);
      && (s.ch.waiters > 0 <==> s.ch.linked && s.ch.note == NONE)
      && (s.ch.inflight > 0 <==> s.ch.linked && s.ch.note == SIGNAL)
      && s.ch.waiters + s.ch.inflight <= 1
  {
    RunInv(Init(target, senders), acts);
  }

  // ---------------------------------------------------------------- what a call returns with

  /** How often the receiver has returned from a receive. */
  function Receives(s: State, acts: seq<Act>): nat {
    if acts == [] then 0
    else
      var k := |acts| - 1;
      Receives(s, acts[..k]) + (if Run(s, acts[..k]).rx != RxIdle && Run(s, acts).rx == RxIdle then 1 else 0)
  }

  lemma ReceiverTakes(s: Chan, pc: Rx, c: Choice)
    ensures var (s', pc') := RxNext(s, pc, c);
      s'.head + s'.kept - s.head - s.kept == if pc != RxIdle && pc' == RxIdle then 1 else 0
  {
  }

  lemma SenderTakesNothing(s: Chan, pc: Tx, c: Choice)
    ensures var s' := TxNext(s, pc, c).0; s'.head == s.head && s'.kept == s.kept
  {
  }

  /** Every receive returns exactly one value, from the ring or handed over. */
  lemma {:induction false} ReceiveReturnsOne(target: nat, senders: nat, acts: seq<Act>)
    ensures var s := Run(Init(target, senders), acts);
      Receives(Init(target, senders), acts) == s.ch.head + s.ch.kept
  {
    if acts != [] {
      var k := |acts| - 1;
      var s := Run(Init(target, senders), acts[..k]);
      ReceiveReturnsOne(target, senders, acts[..k]);
      match acts[k]
      case Receiver(c) => ReceiverTakes(s.ch, s.rx, c);
      case Sender(t, c) => if t < |s.tx| { SenderTakesNothing(s.ch, s.tx[t], c); }
      case StrayWake =>
    }
  }

  /** The sender has claimed a position or handed its value over, and has not returned yet. */
  predicate Placed(pc: Tx) {
    WillNotify(pc) || pc == TxFlush(false)
  }

  /** How often sender t has claimed a position or handed a value over, and how often it has returned. */
  function Placements(s: State, acts: seq<Act>, t: nat): nat {
    if acts == [] then 0
    else
      var k := |acts| - 1;
      var (u, v) := (Run(s, acts[..k]).ch, Run(s, acts).ch);
      Placements(s, acts[..k], t) +
      if acts[k].Sender? && acts[k].t == t && v.tail + v.handed > u.tail + u.handed
      then v.tail + v.handed - u.tail - u.handed else 0
  }

  function Sends(s: State, acts: seq<Act>, t: nat): nat {
    if acts == [] then 0
    else
      var k := |acts| - 1;
      var (u, v) := (Run(s, acts[..k]).tx, Run(s, acts).tx);
      Sends(s, acts[..k], t) + if t < |u| == |v| && u[t] != TxIdle && v[t] == TxIdle then 1 else 0
  }

  lemma SenderPlaces(s: Chan, pc: Tx, c: Choice)
    ensures var (s', pc') := TxNext(s, pc, c);
      s'.tail + s'.handed - s.tail - s.handed ==
        (if Placed(pc') then 1 else 0) - (if Placed(pc) then 1 else 0) + if pc != TxIdle && pc' == TxIdle then 1 else 0
  {
  }

  /** A step of another thread neither places for sender t nor ends its send. */
  lemma OthersPlaceNothing(s: State, a: Act, t: nat)
    requires t < |s.tx| && !(a.Sender? && a.t == t)
    ensures |Step(s, a).tx| == |s.tx| && Step(s, a).tx[t] == s.tx[t]
  {
  }

  /** Every send that returns has claimed one position or handed over one value, and no send does more. */
  lemma {:induction false} SendPlacesOne(target: nat, senders: nat, acts: seq<Act>, t: nat)
    requires t < senders
    ensures var s0 := Init(target, senders);
      var s := Run(s0, acts);
      |s.tx| == senders && Placements(s0, acts, t) == Sends(s0, acts, t) + if Placed(s.tx[t]) then 1 else 0
  {
    if acts != [] {
      var k := |acts| - 1;
      var s := Run(Init(target, senders), acts[..k]);
      SendPlacesOne(target, senders, acts[..k], t);
      assert Run(Init(target, senders), acts) == Step(s, acts[k]);
      if acts[k].Sender? && acts[k].t == t {
        SenderPlaces(s.ch, s.tx[t], acts[k].c);
      } else {
        OthersPlaceNothing(s, acts[k], t);
      }
    }
  }

  /** Position p is published, or its sender is about to publish it. */
  ghost predicate Appears(s: State, p: nat) {
    p in s.ch.pub || exists t :: 0 <= t < |s.tx| && s.tx[t].TxPublish? && s.tx[t].pos == p
  }

  lemma SenderPublishes(s: Chan, pc: Tx, c: Choice)
    ensures var (s', pc') := TxNext(s, pc, c);
      && s.pub <= s'.pub && s.tail <= s'.tail <= s.tail + 1
      && (pc.TxPublish? ==> pc.pos in s'.pub)
      && (s'.tail > s.tail ==> pc'.TxPublish? && pc'.pos == s.tail)
  {
  }

  lemma AppearsStep(s: State, a: Act, p: nat)
    requires p < Step(s, a).ch.tail && (p < s.ch.tail ==> Appears(s, p))
    ensures Appears(Step(s, a), p)
  {
    var s' := Step(s, a);
    if a.Sender? && a.t < |s.tx| {
      SenderPublishes(s.ch, s.tx[a.t], a.c);
      if p >= s.ch.tail { assert s'.tx[a.t].TxPublish? && s'.tx[a.t].pos == p; }
    }
    if p < s.ch.tail && p !in s.ch.pub {
      var t :| 0 <= t < |s.tx| && s.tx[t].TxPublish? && s.tx[t].pos == p;
      assert p in s'.ch.pub || s'.tx[t] == s.tx[t];
    }
  }

  /** Every claimed position is published by the time its sender looks for waiters. */
  lemma {:induction false} ClaimsArePublished(target: nat, senders: nat, acts: seq<Act>, p: nat)
    requires p < Run(Init(target, senders), acts).ch.tail
    ensures Appears(Run(Init(target, senders), acts), p)
  {
    if acts != [] {
      var k := |acts| - 1;
      var s := Run(Init(target, senders), acts[..k]);
      if p < s.ch.tail { ClaimsArePublished(target, senders, acts[..k], p); }
      AppearsStep(s, acts[k], p);
    }
  }

  // ---------------------------------------------------------------- a receive left alone

  /** n accesses by the receiver alone. */
  function Alone(s: Chan, rx: Rx, n: nat): (Chan, Rx)
    decreases n
  {
    if n == 0 then (s, rx) else
    var (s', rx') := RxNext(s, rx, Go);
    Alone(s', rx', n - 1)
  }

  datatype Fate = Returns(head: nat, kept: nat) | Parks

  /** Past its last look, with nothing to turn it back. */
  predicate Sinking(s: Chan, rx: Rx) {
    || (rx.RxCheck? && s.note == NONE && s.word == Running)
    || (rx.RxYield? && s.word == Running)
    || (rx.RxSleep? && s.word == Parked)
  }

  /** The receive returns the value handed to it, else the value at the head of the ring, else it parks. */
  function Predict(s: Chan, rx: Rx): Fate {
    if rx == RxIdle then Returns(s.head, s.kept)
    else if Sinking(s, rx) then Parks
    else if Registered(rx) && s.note == DATA then Returns(s.head, s.kept + 1)
    else if s.head in s.pub then Returns(s.head + 1, s.kept)
    else Parks
  }

  /** A receive that finds a claimed position unpublished looks again until it is published. */
  predicate Determined(s: Chan, rx: Rx) {
    || rx == RxIdle || Sinking(s, rx) || (Registered(rx) && s.note == DATA) || s.head in s.pub || s.tail == s.head
  }

  predicate Ended(s: Chan, rx: Rx, f: Fate) {
    match f
    case Returns(head, kept) => rx == RxIdle && s.head == head && s.kept == kept && !s.linked
    case Parks => rx == RxSleep && s.word == Parked && (s.note == NONE ==> s.linked)
  }

  /** A bound on the accesses that are left, with a value to take and without. */
  function Rank(s: Chan, rx: Rx): nat {
    if s.head in s.pub then
      match rx
      case RxIdle => 0
      case RxTry => 1
      case RxAdd => 5
      case RxCount => 4
      case RxEarly => 3
      case RxUnlink => 2
      case RxEarly2 => 3
      case RxPreDeq => 2
      case RxProbe => 1
      case RxReadd => 5
      case RxRecount => 4
      case RxCheck(n) => 5 + n
      case RxYield => 4
      case RxSleep => if s.word == Parked then 0 else 3
      case RxPost => 2
    else
      (if s.word == Pending && rx != RxIdle then 40 else 0) +
      match rx
      case RxIdle => 0
      case RxTry => 20
      case RxAdd => 19
      case RxCount => if s.note == NONE then 18 else 26
      case RxEarly => 22
      case RxUnlink => 21
      case RxEarly2 => if s.note == NONE then 17 else 25
      case RxPreDeq => if s.note == NONE then 16 else 24
      case RxProbe => 15
      case RxReadd => 14
      case RxRecount => if s.note == NONE then 13 else 31
      case RxCheck(n) => if s.note == NONE then 9 + n else 26
      case RxYield => 8
      case RxSleep => if s.word == Parked then 0 else 27
      case RxPost => 25
  }

  lemma Nears(s: Chan, rx: Rx)
    requires PositionInv(s) && LocalInv(s, rx) && Determined(s, rx) && Rank(s, rx) > 0
    ensures var (s', rx') := RxNext(s, rx, Go);
      Determined(s', rx') && Predict(s', rx') == Predict(s, rx) && Rank(s', rx') < Rank(s, rx)
  {
  }

  lemma AtEnd(s: Chan, rx: Rx)
    requires LocalInv(s, rx) && Rank(s, rx) == 0
    ensures Ended(s, rx, Predict(s, rx))
  {
  }

  /** Whatever happened before, a receive that is left alone ends within a few accesses as predicted. */
  lemma {:induction false} ReceiveAlone(s: Chan, rx: Rx) returns (n: nat)
    requires PositionInv(s) && LocalInv(s, rx) && Determined(s, rx)
    ensures n <= Rank(s, rx) && var (s', rx') := Alone(s, rx, n); Ended(s', rx', Predict(s, rx))
    decreases Rank(s, rx)
  {
    if Rank(s, rx) == 0 {
      AtEnd(s, rx);
      n := 0;
    } else {
      var (s', rx') := RxNext(s, rx, Go);
      Nears(s, rx);
      RxKeeps(s, rx, Go);
      var m := ReceiveAlone(s', rx');
      n := m + 1;
    }
  }

  // ---------------------------------------------------------------- a send left alone

  /** n accesses by one sender alone on a ring with room, and how many of them were sections under the mutex. */
  function SenderAlone(s: Chan, pc: Tx, n: nat): (Chan, Tx, nat)
    decreases n
  {
    if n == 0 then (s, pc, 0) else
    var (s', pc') := TxNext(s, pc, Go);
    var (e, q, m) := SenderAlone(s', pc', n - 1);
    (e, q, m + if InSection(pc) then 1 else 0)
  }

  predicate InSection(pc: Tx) {
    pc.TxHandoffLock? || pc.TxBudget? || pc.TxSignal? || pc.TxDekkerLock?
  }

  function Woken(w: Word): Word {
    if w == Running then Pending else if w == Parked then Queued else w
  }

  /** A waiter is signalled and woken. */
  function Told(s: Chan): Chan {
    if Waiting(s) then s.(note := SIGNAL, waiters := 0, inflight := 1, word := Woken(s.word)) else s
  }

  /** The value of a new position is published and a waiter is told. */
  function Placing(s: Chan): Chan {
    Told(s.(tail := s.tail + 1, pub := s.pub + {s.tail}))
  }

  /**
  A direct send hands its value to a waiter that has not been notified, dropping one that has; every other send
  publishes its position and tells a waiter; one that found the ring full tells the waiter first.
  */
  function SendEnd(s: Chan, pc: Tx): Chan {
    match pc
    case TxIdle => s
    case TxHandoff => if Waiting(s) then Handing(s) else Placing(s)
    case TxHandoffLock => if Waiting(s) then Handing(s) else Placing(s.(linked := false, inflight := 0))
    case TxClaim(_) => Placing(s)
    case TxPublish(pos, _) => Told(s.(pub := s.pub + {pos}))
    case TxDekker => Placing(Told(s))
    case TxDekkerLock => Placing(Told(s))
    case TxFlush(blocked) =>
      var t := s.(word := Woken(s.word));
      if blocked then Placing(t) else t
    case _ => Told(s)
  }

  function Handing(s: Chan): Chan {
    s.(linked := false, note := DATA, waiters := 0, handed := s.handed + 1, word := Woken(s.word))
  }

  /** The mutex is taken to hand over and to signal, on the coalescing path only while a waiter has yet to be
      told and few wakes are under way. */
  function Sections(s: Chan, pc: Tx): nat {
    match pc
    case TxIdle => 0
    case TxHandoff => if Waiting(s) then 1 else 0
    case TxHandoffLock => 1
    case TxClaim(path) => if path == Locked || Waiting(s) then 1 else 0
    case TxPublish(_, path) => if path == Locked || Waiting(s) then 1 else 0
    case TxWaiters => if Waiting(s) then 1 else 0
    case TxInflight => if s.inflight < s.target then 1 else 0
    case TxBudget => 1
    case TxSignal => 1
    case TxDekker => if Waiting(s) then 2 else 1
    case TxDekkerLock => 2
    case TxFlush(blocked) => if blocked then 1 else 0
  }

  /** A sender has fewer accesses to make with each one, once its ring has room. */
  function SendRank(pc: Tx): nat {
    match pc
    case TxIdle => 0
    case TxFlush(blocked) => if blocked then 8 else 1
    case TxSignal => 2
    case TxBudget => 2
    case TxInflight => 3
    case TxWaiters => 4
    case TxPublish(_, _) => 5
    case TxClaim(_) => 6
    case TxHandoffLock => 7
    case TxHandoff => 8
    case TxDekkerLock => 9
    case TxDekker => 10
  }

  /** The next access takes the sender nearer to the same end. */
  predicate SendNears(s: Chan, pc: Tx, rx: Rx) {
    var (s', pc') := TxNext(s, pc, Go);
    && CountInv(s', rx) && SendRank(pc') < SendRank(pc) && SendEnd(s', pc') == SendEnd(s, pc)
    && Sections(s', pc') + (if InSection(pc) then 1 else 0) == Sections(s, pc)
  }

  lemma NotifyNears(s: Chan, pc: Tx, rx: Rx)
    requires CountInv(s, rx) && WillNotify(pc)
    ensures SendNears(s, pc, rx)
  {
  }

  lemma HandNears(s: Chan, pc: Tx, rx: Rx)
    requires CountInv(s, rx) && (pc.TxHandoff? || pc.TxHandoffLock?)
    ensures SendNears(s, pc, rx)
  {
  }

  lemma FullNears(s: Chan, pc: Tx, rx: Rx)
    requires CountInv(s, rx) && (pc.TxDekker? || pc.TxDekkerLock?)
    ensures SendNears(s, pc, rx)
  {
  }

  lemma ClaimNears(s: Chan, pc: Tx, rx: Rx)
    requires CountInv(s, rx) && (pc.TxClaim? || pc.TxFlush?)
    ensures SendNears(s, pc, rx)
  {
  }

  /** Left alone on a ring with room, a send returns, and its value and the waiter are as promised. */
  lemma {:induction false} SendAlone(s: Chan, pc: Tx, rx: Rx) returns (n: nat)
    requires CountInv(s, rx)
    ensures n <= SendRank(pc) && SenderAlone(s, pc, n) == (SendEnd(s, pc), TxIdle, Sections(s, pc))
    decreases SendRank(pc)
  {
    if pc == TxIdle {
      n := 0;
    } else {
      var (s', pc') := TxNext(s, pc, Go);
      if WillNotify(pc) {
        NotifyNears(s, pc, rx);
      } else if pc.TxHandoff? || pc.TxHandoffLock? {
        HandNears(s, pc, rx);
      } else if pc.TxDekker? || pc.TxDekkerLock? {
        FullNears(s, pc, rx);
      } else {
        ClaimNears(s, pc, rx);
      }
      n := SendAlone(s', pc', rx);
      n := n + 1;
    }
  }

  /** Calls begin with the first access of their path, and a stray wake is an unpark. */
  lemma CallsBegin(s: State, t: nat)
    requires t < |s.tx|
    ensures s.rx == RxIdle ==> Step(s, Receiver(Begin)) == s.(rx := RxTry) && Step(s, Receiver(Go)) == s
    ensures s.tx[t] == TxIdle ==>
              && Step(s, Sender(t, Begin)) == s.(tx := s.tx[t := TxClaim(Coalesce)])
              && Step(s, Sender(t, Direct)) == s.(tx := s.tx[t := TxHandoff])
              && Step(s, Sender(t, Go)) == s
    ensures forall path | s.tx[t] == TxClaim(path) :: Step(s, Sender(t, Full)) == s.(tx := s.tx[t := TxDekker])
    ensures Step(s, StrayWake) == s.(ch := s.ch.(word := Woken(s.ch.word)))
  {
    assert s.tx[t := s.tx[t]] == s.tx;
  }
}
