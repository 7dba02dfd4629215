/**
Unbuffered channels: a send and a receive meet by direct handoff through wait nodes.  Every section
under the channel mutex is one action; between two sections a waiting operation sleeps, and any
sleep may end at any time.  Each call is an operation of its own, so any number of threads, fibers
and timed callers may be running.  Threads of one side share a condition variable, and a signal to it
wakes one of those that are blocked.
*/
module Rendezvous {
  import opened Distinctness

  const EPIPE := 32
  const EAGAIN := 11
  const ETIMEDOUT := 110

  datatype Kind = SEND | RECV

  /** How a blocked operation waits: a parked fiber, a condition variable, one with a deadline, or not at all. */
  datatype Mode = FIBER | THREAD | TIMED | TRY

  datatype Notify = NONE | DATA | CLOSE

  datatype Pc =
    | Enter              // about to take the mutex
    | Asleep             // waiting outside the mutex
    | Relock             // woken fiber that did not see DATA: about to take the mutex again
    | Failed             // a try that found nobody: about to read the closed flags outside the mutex
    | Returned(rc: int)

  /**
  One call.  `value` is the value to send, or the receiver's out slot.  `hits` and `mate` are history:
  how often the call took part in a handoff, and with which other call.  `up` is for a sleeping thread:
  its wait on the condition variable has ended.
  */
  datatype Op = Op(kind: Kind, mode: Mode, value: int, note: Notify, pc: Pc, hits: nat, mate: nat, up: bool)

  datatype State = State(
    ops: seq<Op>,
    sendq: seq<nat>,      // send_waiters
    recvq: seq<nat>,      // recv_waiters
    closed: bool,
    rxClosed: bool,
    txErr: int,
    rxErr: int)

  datatype Act =
    | Begin(kind: Kind, mode: Mode, value: int)
    | Go(o: nat, expired: bool, x: nat)   // the next section of call o; its deadline has passed or not
    | TrySend(v: int, x: nat)             // x: the thread that a signal wakes, if it can
    | TryRecv(x: nat)
    | Wake(o: nat)                        // the sleep of o ends by itself or by its deadline
    | Close(tx: bool, rx: bool, txCode: int, rxCode: int)

  function Init(): State {
    State([], [], [], false, false, 0, 0)
  }

  function CloseErr(s: State): int {
    if s.rxClosed && s.rxErr != 0 then s.rxErr else EPIPE
  }

  function RecvErr(s: State): int {
    if s.txErr != 0 then s.txErr else EPIPE
  }

  function Put(s: State, o: nat, op: Op): State
    requires o < |s.ops|
  {
    s.(ops := s.ops[o := op])
  }

  function Return(s: State, o: nat, rc: int): State
    requires o < |s.ops|
  {
    Put(s, o, s.ops[o].(pc := Returned(rc)))
  }

  /** Unlink a node wherever it is. */
  function Without(q: seq<nat>, o: nat): seq<nat> {
    if q == [] then [] else if q[0] == o then q[1..] else [q[0]] + Without(q[1..], o)
  }

  function Unlink(s: State, o: nat): State
    requires o < |s.ops|
  {
    if s.ops[o].kind == SEND then s.(sendq := Without(s.sendq, o)) else s.(recvq := Without(s.recvq, o))
  }

  /** Link at the tail of the call's own list and go to sleep. */
  function Link(s: State, o: nat): State
    requires o < |s.ops|
  {
    var t := Put(s, o, s.ops[o].(pc := Asleep, up := false));
    if s.ops[o].kind == SEND then t.(sendq := s.sendq + [o]) else t.(recvq := s.recvq + [o])
  }

  /** Copy the value from call a to call b. */
  function Copy(ops: seq<Op>, a: nat, b: nat): seq<Op>
    requires a < |ops| && b < |ops|
  {
    var x := ops[a].(hits := ops[a].hits + 1, mate := b);
    var y := ops[b].(hits := ops[b].hits + 1, mate := a, value := ops[a].value);
    ops[a := x][b := y]
  }

  /** Call o pops the first waiter of the other side, trades with it and returns 0. */
  function Trade(s: State, o: nat): State
    requires o < |s.ops|
  {
    var q := if s.ops[o].kind == SEND then s.recvq else s.sendq;
    if q == [] || q[0] >= |s.ops| then s
    else
      var w := q[0];
      var ops := if s.ops[o].kind == SEND then Copy(s.ops, o, w) else Copy(s.ops, w, o);
      var t := s.(ops := ops[w := ops[w].(note := DATA)]);
      var u := if s.ops[o].kind == SEND then t.(recvq := q[1..]) else t.(sendq := q[1..]);
      Return(u, o, 0)
  }

  /** Blocked on the condition variable of its side. */
  predicate Blocked(op: Op) {
    op.pc == Asleep && op.mode != FIBER && !op.up
  }

  predicate BlockedOn(ops: seq<Op>, x: nat, k: Kind) {
    x < |ops| && Blocked(ops[x]) && ops[x].kind == k
  }

  function Rouse(s: State, x: nat): State
    requires x < |s.ops|
  {
    Put(s, x, s.ops[x].(up := true))
  }

  /** Wake call w: a fiber directly, a thread by a signal that may wake another one of its side. */
  function Signal(s: State, w: nat, x: nat): State
    requires w < |s.ops|
  {
    if s.ops[w].mode == FIBER then s
    else if BlockedOn(s.ops, x, s.ops[w].kind) then Rouse(s, x)
    else if Blocked(s.ops[w]) then Rouse(s, w)
    else s
  }

  /** The first waiter of the other side. */
  function Waiter(s: State, k: Kind): nat {
    if k == SEND then (if s.recvq == [] then 0 else s.recvq[0]) else if s.sendq == [] then 0 else s.sendq[0]
  }

  function HandOff(s: State, o: nat, x: nat): State
    requires o < |s.ops|
  {
    var w, t := Waiter(s, s.ops[o].kind), Trade(s, o);
    if w < |t.ops| then Signal(t, w, x) else t
  }

  predicate Shut(s: State, k: Kind) {
    s.closed || (k == SEND && s.rxClosed)
  }

  function Refusal(s: State, k: Kind): int {
    if k == RECV then RecvErr(s) else if s.closed then CloseErr(s) else s.rxErr
  }

  /** The error a call that had linked itself reports; a send prefers the receiver's code. */
  function LateRefusal(s: State, k: Kind): int {
    if k == RECV then RecvErr(s) else if s.rxClosed then s.rxErr else CloseErr(s)
  }

  predicate Partner(s: State, k: Kind) {
    if k == SEND then s.recvq != [] else s.sendq != []
  }

  /** First section of a blocking call. */
  function EnterStep(s: State, o: nat, x: nat): State
    requires o < |s.ops|
  {
    var k := s.ops[o].kind;
    if Shut(s, k) then Return(s, o, Refusal(s, k))
    else if Partner(s, k) then HandOff(s, o, x)
    else Link(s, o)
  }

  /** Section after a sleep. */
  function RelockStep(s: State, o: nat, expired: bool, x: nat): State
    requires o < |s.ops|
  {
    var op := s.ops[o];
    if !Shut(s, op.kind) && op.note == NONE && !(op.mode == TIMED && expired) then
      if op.kind == SEND && op.mode == FIBER && Partner(s, SEND) then HandOff(Unlink(s, o), o, x)
      else Put(s, o, op.(pc := Asleep, up := false))
    else if op.note == DATA then Return(s, o, 0)
    else if op.note == CLOSE then Return(Unlink(s, o), o, LateRefusal(s, op.kind))
    else Return(Unlink(s, o), o, if Shut(s, op.kind) then LateRefusal(s, op.kind) else ETIMEDOUT)
  }

  /** What a try that found nobody reports; by then the channel may have been closed. */
  function FailCode(s: State, k: Kind): int {
    if k == RECV then (if s.closed then RecvErr(s) else EAGAIN)
    else if s.rxClosed then s.rxErr else if s.closed then CloseErr(s) else EAGAIN
  }

  /** The section of a call that does not block: it trades with a waiter or fails. */
  function TryStep(s: State, k: Kind, v: int, x: nat): State {
    var t := s.(ops := s.ops + [Op(k, TRY, v, NONE, Enter, 0, 0, false)]);
    var o := |s.ops|;
    if k == SEND && Shut(s, SEND) then Return(t, o, Refusal(s, SEND))
    else if Partner(s, k) then HandOff(t, o, x)
    else Put(t, o, t.ops[o].(pc := Failed))
  }

  /** Wake everyone on the list q with a close note. */
  function Tell(ops: seq<Op>, q: seq<nat>): (r: seq<Op>)
    ensures |r| == |ops|
  {
    seq(|ops|, i requires 0 <= i < |ops| => if i in q then ops[i].(note := CLOSE) else ops[i])
  }

  /** End every wait on the senders' condition variable, or on both. */
  function Broadcast(ops: seq<Op>, both: bool): (r: seq<Op>)
    ensures |r| == |ops|
  {
    seq(|ops|, i requires 0 <= i < |ops| =>
      if Blocked(ops[i]) && (both || ops[i].kind == SEND) then ops[i].(up := true) else ops[i])
  }

  function CloseStep(s: State, tx: bool, rx: bool, txCode: int, rxCode: int): State {
    var t := TellStep(s, tx, rx, txCode, rxCode);
    if tx || rx then t.(ops := Broadcast(t.ops, tx)) else t
  }

  function TellStep(s: State, tx: bool, rx: bool, txCode: int, rxCode: int): State {
    var t := s.(closed := s.closed || tx, rxClosed := s.rxClosed || rx,
                txErr := if tx && txCode != 0 then txCode else s.txErr,
                rxErr := if rx && rxCode != 0 then rxCode else s.rxErr);
    if tx then t.(ops := Tell(Tell(s.ops, s.sendq), s.recvq), sendq := [], recvq := [])
    else if rx then t.(ops := Tell(s.ops, s.sendq), sendq := [])
    else s
  }

  function GoStep(s: State, o: nat, expired: bool, x: nat): State
    requires o < |s.ops|
  {
    var op := s.ops[o];
    match op.pc
    case Enter => EnterStep(s, o, x)
    case Asleep =>
      if Blocked(op) then s
      else if op.mode != FIBER then RelockStep(s, o, expired, x)
      else if op.note == DATA then Return(s, o, 0)
      else Put(s, o, op.(pc := Relock))
    case Relock => RelockStep(s, o, expired, x)
    case Failed => Return(s, o, FailCode(s, op.kind))
    case Returned(_) => s
  }

  function Step(s: State, a: Act): State {
    match a
    case Begin(k, m, v) => if m == TRY then s else s.(ops := s.ops + [Op(k, m, v, NONE, Enter, 0, 0, false)])
    case Go(o, expired, x) => if o < |s.ops| then GoStep(s, o, expired, x) else s
    case TrySend(v, x) => TryStep(s, SEND, v, x)
    case TryRecv(x) => TryStep(s, RECV, 0, x)
    case Wake(o) => if o < |s.ops| && Blocked(s.ops[o]) then Rouse(s, o) else s
    case Close(tx, rx, tc, rc) => CloseStep(s, tx, rx, tc, rc)
  }

  function Run(acts: seq<Act>): State {
    if acts == [] then Init() else Step(Run(acts[..|acts| - 1]), acts[|acts| - 1])
  }

  // ---- The invariant ----

  predicate Sleeping(op: Op) {
    op.pc == Asleep || op.pc == Relock
  }

  ghost predicate Waits(ops: seq<Op>, o: nat, k: Kind) {
    o < |ops| && ops[o].kind == k && Sleeping(ops[o]) && ops[o].note == NONE
  }

  /** A wait list holds exactly the sleeping calls of one side that have not been notified. */
  ghost predicate QueueOk(ops: seq<Op>, q: seq<nat>, k: Kind) {
    Distinct(q) && forall o: nat :: o in q <==> Waits(ops, o, k)
  }

  ghost predicate Mated(ops: seq<Op>, o: nat)
    requires o < |ops|
  {
    var m := ops[o].mate;
    m < |ops| && ops[m].mate == o && ops[m].hits == 1 && ops[m].kind != ops[o].kind && ops[m].value == ops[o].value
  }

  /** What may make a call fail: its side is shut, its deadline passed, or it would have had to wait. */
  predicate Excused(s: State, op: Op, rc: int) {
    Shut(s, op.kind) || (rc == ETIMEDOUT && op.mode == TIMED) || (rc == EAGAIN && op.mode == TRY)
  }

  /** `codes`: every receive-side close so far came with an error code. */
  ghost predicate OpOk(s: State, o: nat, codes: bool)
    requires o < |s.ops|
  {
    var op := s.ops[o];
    && op.hits <= 1
    && (op.hits == 1 ==> Mated(s.ops, o))
    && match op.pc
       case Enter => op.note == NONE && op.hits == 0
       case Failed => op.note == NONE && op.hits == 0 && op.mode == TRY
       case Returned(rc) => (op.hits == 1 ==> rc == 0) && (codes && rc == 0 ==> op.hits == 1)
                            && (rc == 0 && op.kind == RECV ==> op.hits == 1)
                            && (op.hits == 0 ==> Excused(s, op, rc))
       case _ => (op.note == DATA <==> op.hits == 1) && (op.note == CLOSE ==> Shut(s, op.kind))
  }

  ghost predicate ShutOk(s: State, codes: bool) {
    && (s.sendq == [] || s.recvq == [])
    && (s.closed ==> s.sendq == [] && s.recvq == [])
    && (s.rxClosed ==> s.sendq == [])
    && (codes && s.rxClosed ==> s.rxErr != 0)
  }

  ghost predicate OpsOk(s: State, codes: bool) {
    forall o: nat | o < |s.ops| :: OpOk(s, o, codes)
  }

  ghost predicate Core(s: State, codes: bool) {
    QueueOk(s.ops, s.sendq, SEND) && QueueOk(s.ops, s.recvq, RECV) && OpsOk(s, codes)
  }

  ghost predicate Inv(s: State, codes: bool) {
    Core(s, codes) && ShutOk(s, codes)
  }

  // ---- Wait lists ----

  lemma {:induction false} WithoutIn(q: seq<nat>, o: nat, x: nat)
    requires Distinct(q)
    ensures x in Without(q, o) <==> x in q && x != o
  {
    if q != [] {
      TailIn(q);
      WithoutIn(q[1..], o, x);
      assert q == [q[0]] + q[1..];
    }
  }

  lemma TailIn(q: seq<nat>)
    requires Distinct(q) && q != []
    ensures Distinct(q[1..])
    ensures forall x: nat :: x in q[1..] <==> x in q && x != q[0]
  {
    DistinctTail(q);
    assert q == [q[0]] + q[1..];
  }

  lemma {:induction false} WithoutDistinct(q: seq<nat>, o: nat)
    requires Distinct(q)
    ensures Distinct(Without(q, o))
  {
    if q != [] && q[0] == o {
      TailIn(q);
    } else if q != [] {
      TailIn(q);
      var r := Without(q[1..], o);
      WithoutDistinct(q[1..], o);
      WithoutIn(q[1..], o, q[0]);
      forall i, j | 0 <= i < j < |[q[0]] + r| ensures Apart([q[0]] + r, i, j) {
        if i > 0 { assert Apart(r, i - 1, j - 1); } else { assert r[j - 1] in r; }
      }
    }
  }

  /** A list is unaffected by changes that leave who waits on it alone. */
  lemma KeepQueue(ops: seq<Op>, ops': seq<Op>, q: seq<nat>, k: Kind)
    requires QueueOk(ops, q, k)
    requires forall o: nat :: Waits(ops, o, k) <==> Waits(ops', o, k)
    ensures QueueOk(ops', q, k)
  {
    forall o: nat ensures o in q <==> Waits(ops', o, k) { assert Waits(ops, o, k) <==> Waits(ops', o, k); }
  }

  // ---- Who is awake does not matter to the lists and the histories ----

  predicate Alike(a: Op, b: Op) {
    a.(up := false) == b.(up := false)
  }

  ghost predicate AllAlike(a: seq<Op>, b: seq<Op>) {
    |a| == |b| && forall i | 0 <= i < |a| :: Alike(a[i], b[i])
  }

  lemma AlikeInv(s: State, t: State, codes: bool)
    requires Inv(s, codes) && AllAlike(s.ops, t.ops) && t == s.(ops := t.ops)
    ensures Inv(t, codes)
  {
    forall x: nat, k ensures Waits(s.ops, x, k) <==> Waits(t.ops, x, k) {
      if x < |s.ops| { assert Alike(s.ops[x], t.ops[x]); }
    }
    KeepQueue(s.ops, t.ops, s.sendq, SEND);
    KeepQueue(s.ops, t.ops, s.recvq, RECV);
    forall x: nat | x < |t.ops| ensures OpOk(t, x, codes) {
      assert OpOk(s, x, codes) && Alike(s.ops[x], t.ops[x]);
      if s.ops[x].mate < |s.ops| { assert Alike(s.ops[s.ops[x].mate], t.ops[s.ops[x].mate]); }
    }
  }

  lemma SignalInv(s: State, w: nat, x: nat, codes: bool)
    requires Inv(s, codes) && w < |s.ops|
    ensures Inv(Signal(s, w, x), codes)
  {
    AlikeInv(s, Signal(s, w, x), codes);
  }

  lemma HandOffInv(s: State, o: nat, x: nat, codes: bool)
    requires Inv(s, codes) && o < |s.ops| && s.ops[o].pc == Enter
    requires Partner(s, s.ops[o].kind)
    ensures Inv(HandOff(s, o, x), codes)
  {
    var w, t := Waiter(s, s.ops[o].kind), Trade(s, o);
    TradeInv(s, o, codes);
    if w < |t.ops| { SignalInv(t, w, x, codes); }
  }

  /** Back to sleep, as Put and Rouse leave it. */
  lemma SleepInv(s: State, o: nat, codes: bool)
    requires Inv(s, codes) && o < |s.ops| && Waits(s.ops, o, s.ops[o].kind)
    ensures Inv(Put(s, o, s.ops[o].(pc := Asleep, up := false)), codes)
  {
    assert OpOk(s, o, codes);
    var t := Put(s, o, s.ops[o].(pc := Asleep));
    PutInv(s, o, Asleep, codes);
    AlikeInv(t, Put(s, o, s.ops[o].(pc := Asleep, up := false)), codes);
  }

  // ---- Steps ----

  /** A call that is not linked changes its program counter only. */
  lemma PutInv(s: State, o: nat, pc: Pc, codes: bool)
    requires Inv(s, codes) && o < |s.ops|
    requires forall k :: Waits(s.ops, o, k) <==> Waits(s.ops[o := s.ops[o].(pc := pc)], o, k)
    requires OpOk(Put(s, o, s.ops[o].(pc := pc)), o, codes)
    ensures Inv(Put(s, o, s.ops[o].(pc := pc)), codes)
  {
    var t := Put(s, o, s.ops[o].(pc := pc));
    forall x: nat, k ensures Waits(s.ops, x, k) <==> Waits(t.ops, x, k) {
      if x == o { assert Waits(s.ops, o, k) <==> Waits(s.ops[o := s.ops[o].(pc := pc)], o, k); }
    }
    KeepQueue(s.ops, t.ops, s.sendq, SEND);
    KeepQueue(s.ops, t.ops, s.recvq, RECV);
    forall x: nat | x < |t.ops| ensures OpOk(t, x, codes) { assert OpOk(s, x, codes); }
  }

  lemma ReturnInv(s: State, o: nat, rc: int, codes: bool)
    requires Inv(s, codes) && o < |s.ops|
    requires !Waits(s.ops, o, s.ops[o].kind)
    requires (s.ops[o].hits == 1 ==> rc == 0) && (rc == 0 && (codes || s.ops[o].kind == RECV) ==> s.ops[o].hits == 1)
    requires s.ops[o].hits == 0 ==> Excused(s, s.ops[o], rc)
    ensures Inv(Return(s, o, rc), codes)
  {
    assert OpOk(s, o, codes);
    PutInv(s, o, Returned(rc), codes);
  }

  /** A linked call leaves its list. */
  function Detached(s: State, o: nat): State
    requires o < |s.ops|
  {
    Unlink(Put(s, o, s.ops[o].(pc := Enter)), o)
  }

  lemma DetachInv(s: State, o: nat, codes: bool)
    requires Inv(s, codes) && o < |s.ops| && Waits(s.ops, o, s.ops[o].kind)
    ensures Inv(Detached(s, o), codes)
  {
    var t, k := Detached(s, o), s.ops[o].kind;
    var q := if k == SEND then s.sendq else s.recvq;
    WithoutDistinct(q, o);
    forall x: nat ensures x in Without(q, o) <==> Waits(t.ops, x, k) {
      WithoutIn(q, o, x);
      assert x in q <==> Waits(s.ops, x, k);
    }
    if k == SEND {
      KeepQueue(s.ops, t.ops, s.recvq, RECV);
    } else {
      KeepQueue(s.ops, t.ops, s.sendq, SEND);
    }
    assert q == [] ==> Without(q, o) == [];
    forall x: nat | x < |t.ops| ensures OpOk(t, x, codes) { assert OpOk(s, x, codes); }
  }

  lemma LinkInv(s: State, o: nat, codes: bool)
    requires Inv(s, codes) && o < |s.ops| && s.ops[o].pc == Enter
    requires !Shut(s, s.ops[o].kind) && !Partner(s, s.ops[o].kind)
    ensures Inv(Link(s, o), codes)
  {
    var t, k := Link(s, o), s.ops[o].kind;
    var q := if k == SEND then s.sendq else s.recvq;
    assert OpOk(s, o, codes);
    assert o !in q;
    DistinctAppend(q, o);
    forall x: nat ensures x in q + [o] <==> Waits(t.ops, x, k) {
      assert x in q <==> Waits(s.ops, x, k);
    }
    if k == SEND {
      KeepQueue(s.ops, t.ops, s.recvq, RECV);
    } else {
      KeepQueue(s.ops, t.ops, s.sendq, SEND);
    }
    forall x: nat | x < |t.ops| ensures OpOk(t, x, codes) { assert OpOk(s, x, codes); }
  }

  function Other(k: Kind): Kind {
    if k == SEND then RECV else SEND
  }

  /** The handoff takes the first waiter off its list and leaves the other list alone. */
  lemma TradeQueues(s: State, o: nat, codes: bool)
    requires Inv(s, codes) && o < |s.ops| && s.ops[o].pc == Enter
    requires Partner(s, s.ops[o].kind)
    ensures var t := Trade(s, o); QueueOk(t.ops, t.sendq, SEND) && QueueOk(t.ops, t.recvq, RECV)
  {
    var t, k := Trade(s, o), s.ops[o].kind;
    var q := if k == SEND then s.recvq else s.sendq;
    assert q[0] in q;
    assert Waits(s.ops, q[0], Other(k));
    TailIn(q);
    forall x: nat ensures x in q[1..] <==> Waits(t.ops, x, Other(k)) {
      assert x in q <==> Waits(s.ops, x, Other(k));
    }
    forall x: nat ensures Waits(s.ops, x, k) <==> Waits(t.ops, x, k) { }
    if k == SEND {
      KeepQueue(s.ops, t.ops, s.sendq, SEND);
    } else {
      KeepQueue(s.ops, t.ops, s.recvq, RECV);
    }
  }

  /** Both calls are hit once, and become each other's mates. */
  lemma TradePair(s: State, o: nat, x: nat, codes: bool)
    requires Inv(s, codes) && o < |s.ops| && s.ops[o].pc == Enter && x < |s.ops|
    requires Partner(s, s.ops[o].kind) && (x == o || x == Waiter(s, s.ops[o].kind))
    ensures OpOk(Trade(s, o), x, codes)
  {
    var q := if s.ops[o].kind == SEND then s.recvq else s.sendq;
    assert q[0] in q;
    assert Waits(s.ops, q[0], Other(s.ops[o].kind));
    assert OpOk(s, o, codes) && OpOk(s, q[0], codes);
  }

  /** Nobody else's mate is touched. */
  lemma TradeBystander(s: State, o: nat, x: nat, codes: bool)
    requires Inv(s, codes) && o < |s.ops| && s.ops[o].pc == Enter && x < |s.ops|
    requires Partner(s, s.ops[o].kind) && x != o && x != Waiter(s, s.ops[o].kind)
    ensures OpOk(Trade(s, o), x, codes)
  {
    var q := if s.ops[o].kind == SEND then s.recvq else s.sendq;
    assert q[0] in q;
    assert Waits(s.ops, q[0], Other(s.ops[o].kind));
    assert OpOk(s, o, codes) && OpOk(s, q[0], codes) && OpOk(s, x, codes);
  }

  lemma TradeInv(s: State, o: nat, codes: bool)
    requires Inv(s, codes) && o < |s.ops| && s.ops[o].pc == Enter
    requires Partner(s, s.ops[o].kind)
    ensures Inv(Trade(s, o), codes)
  {
    var t := Trade(s, o);
    TradeQueues(s, o, codes);
    forall x: nat | x < |t.ops| ensures OpOk(t, x, codes) {
      if x == o || x == Waiter(s, s.ops[o].kind) { TradePair(s, o, x, codes); } else { TradeBystander(s, o, x, codes); }
    }
  }

  /** Emptying one list with a close note. */
  lemma TellCore(s: State, k: Kind, t: State, codes: bool)
    requires Core(s, codes) && Shut(t, k)
    requires t.sendq == (if k == SEND then [] else s.sendq) && t.recvq == (if k == RECV then [] else s.recvq)
    requires t.ops == Tell(s.ops, if k == SEND then s.sendq else s.recvq)
    requires (s.closed ==> t.closed) && (s.rxClosed ==> t.rxClosed)
    ensures Core(t, codes)
  {
    var q := if k == SEND then s.sendq else s.recvq;
    forall x: nat ensures !Waits(t.ops, x, k) {
      assert x in q <==> Waits(s.ops, x, k);
    }
    forall x: nat, j | j != k ensures Waits(s.ops, x, j) <==> Waits(t.ops, x, j) {
      assert x in q <==> Waits(s.ops, x, k);
    }
    if k == SEND {
      KeepQueue(s.ops, t.ops, s.recvq, RECV);
    } else {
      KeepQueue(s.ops, t.ops, s.sendq, SEND);
    }
    forall x: nat | x < |t.ops| ensures OpOk(t, x, codes) {
      assert OpOk(s, x, codes);
      assert x in q <==> Waits(s.ops, x, k);
    }
  }

  lemma CloseInv(s: State, tx: bool, rx: bool, txCode: int, rxCode: int, codes: bool)
    requires Inv(s, codes) && (codes && rx ==> rxCode != 0)
    ensures Inv(CloseStep(s, tx, rx, txCode, rxCode), codes)
  {
    TellInv(s, tx, rx, txCode, rxCode, codes);
    AlikeInv(TellStep(s, tx, rx, txCode, rxCode), CloseStep(s, tx, rx, txCode, rxCode), codes);
  }

  lemma TellInv(s: State, tx: bool, rx: bool, txCode: int, rxCode: int, codes: bool)
    requires Inv(s, codes) && (codes && rx ==> rxCode != 0)
    ensures Inv(TellStep(s, tx, rx, txCode, rxCode), codes)
  {
    var t := TellStep(s, tx, rx, txCode, rxCode);
    if tx {
      var m := t.(ops := Tell(s.ops, s.sendq), recvq := s.recvq);
      TellCore(s, SEND, m, codes);
      TellCore(m, RECV, t, codes);
    } else if rx {
      TellCore(s, SEND, t, codes);
    }
  }

  lemma BeginInv(s: State, op: Op, codes: bool)
    requires Inv(s, codes) && op.pc == Enter && op.note == NONE && op.hits == 0
    ensures Inv(s.(ops := s.ops + [op]), codes)
  {
    var t := s.(ops := s.ops + [op]);
    forall x: nat, k ensures Waits(s.ops, x, k) <==> Waits(t.ops, x, k) { }
    KeepQueue(s.ops, t.ops, s.sendq, SEND);
    KeepQueue(s.ops, t.ops, s.recvq, RECV);
    forall x: nat | x < |t.ops| ensures OpOk(t, x, codes) {
      assert x < |s.ops| ==> OpOk(s, x, codes);
    }
  }

  lemma TryInv(s: State, k: Kind, v: int, x: nat, codes: bool)
    requires Inv(s, codes)
    ensures Inv(TryStep(s, k, v, x), codes)
  {
    var op := Op(k, TRY, v, NONE, Enter, 0, 0, false);
    var t, o := s.(ops := s.ops + [op]), |s.ops|;
    BeginInv(s, op, codes);
    if k == SEND && Shut(s, SEND) {
      ReturnInv(t, o, Refusal(s, SEND), codes);
    } else if Partner(s, k) {
      HandOffInv(t, o, x, codes);
    } else {
      PutInv(t, o, Failed, codes);
    }
  }

  lemma EnterInv(s: State, o: nat, x: nat, codes: bool)
    requires Inv(s, codes) && o < |s.ops| && s.ops[o].pc == Enter
    ensures Inv(EnterStep(s, o, x), codes)
  {
    var k := s.ops[o].kind;
    assert OpOk(s, o, codes);
    if Shut(s, k) {
      ReturnInv(s, o, Refusal(s, k), codes);
    } else if Partner(s, k) {
      HandOffInv(s, o, x, codes);
    } else {
      LinkInv(s, o, codes);
    }
  }

  lemma {:induction false} WithoutAbsent(q: seq<nat>, o: nat)
    requires o !in q
    ensures Without(q, o) == q
  {
    if q != [] {
      WithoutAbsent(q[1..], o);
    }
  }

  /** While a call waits there is nobody to trade with: a woken sender's second look finds no receiver. */
  lemma NoPartner(s: State, o: nat, codes: bool)
    requires Inv(s, codes) && o < |s.ops| && Waits(s.ops, o, s.ops[o].kind)
    ensures !Partner(s, s.ops[o].kind)
  {
    assert o in (if s.ops[o].kind == SEND then s.sendq else s.recvq);
  }

  lemma RelockInv(s: State, o: nat, expired: bool, x: nat, codes: bool)
    requires Inv(s, codes) && o < |s.ops| && Sleeping(s.ops[o])
    ensures Inv(RelockStep(s, o, expired, x), codes)
  {
    var op := s.ops[o];
    assert OpOk(s, o, codes);
    if op.note == NONE {
      NoPartner(s, o, codes);
      if !Shut(s, op.kind) && !(op.mode == TIMED && expired) {
        SleepInv(s, o, codes);
      } else {
        var d := Detached(s, o);
        DetachInv(s, o, codes);
        var rc := if Shut(s, op.kind) then LateRefusal(s, op.kind) else ETIMEDOUT;
        ReturnInv(d, o, rc, codes);
        assert Return(Unlink(s, o), o, rc) == Return(d, o, rc);
      }
    } else if op.note == DATA {
      ReturnInv(s, o, 0, codes);
    } else {
      assert o !in s.sendq && o !in s.recvq;
      WithoutAbsent(s.sendq, o);
      WithoutAbsent(s.recvq, o);
      ReturnInv(s, o, LateRefusal(s, op.kind), codes);
    }
  }

  /** Does every receive-side close in this action come with an error code? */
  predicate Coded(a: Act) {
    a.Close? && a.rx ==> a.rxCode != 0
  }

  lemma GoInv(s: State, o: nat, expired: bool, x: nat, codes: bool)
    requires Inv(s, codes) && o < |s.ops|
    ensures Inv(GoStep(s, o, expired, x), codes)
  {
    var op := s.ops[o];
    assert OpOk(s, o, codes);
    match op.pc
    case Enter => EnterInv(s, o, x, codes);
    case Relock => RelockInv(s, o, expired, x, codes);
    case Failed => ReturnInv(s, o, FailCode(s, op.kind), codes);
    case Returned(_) =>
    case Asleep =>
      if op.mode != FIBER {
        if op.up { RelockInv(s, o, expired, x, codes); }
      } else if op.note == DATA {
        ReturnInv(s, o, 0, codes);
      } else {
        PutInv(s, o, Relock, codes);
      }
  }

  lemma StepInv(s: State, a: Act, codes: bool)
    requires Inv(s, codes) && (codes ==> Coded(a))
    ensures Inv(Step(s, a), codes)
  {
    match a
    case Begin(k, m, v) => BeginInv(s, Op(k, m, v, NONE, Enter, 0, 0, false), codes);
    case Go(o, expired, x) => if o < |s.ops| { GoInv(s, o, expired, x, codes); }
    case TrySend(v, x) => TryInv(s, SEND, v, x, codes);
    case TryRecv(x) => TryInv(s, RECV, 0, x, codes);
    case Wake(o) => if o < |s.ops| && Blocked(s.ops[o]) { AlikeInv(s, Rouse(s, o), codes); }
    case Close(tx, rx, tc, rc) => CloseInv(s, tx, rx, tc, rc, codes);
  }

  lemma {:induction false} RunInv(acts: seq<Act>, codes: bool)
    requires codes ==> forall a | a in acts :: Coded(a)
    ensures Inv(Run(acts), codes)
  {
    if acts != [] {
      var k := |acts| - 1;
      assert acts[k] in acts;
      RunInv(acts[..k], codes);
      StepInv(Run(acts[..k]), acts[k], codes);
    }
  }

  // ---- What every run guarantees ----

  /**
  Every call takes part in at most one handoff, handoffs pair one send with one receive, and the
  receive holds the value of its send.
  */
  lemma {:induction false} HandoffsPairUp(acts: seq<Act>, o: nat)
    requires o < |Run(acts).ops| && Run(acts).ops[o].hits > 0
    ensures var ops := Run(acts).ops;
            var m := ops[o].mate;
            && ops[o].hits == 1 && m < |ops| && ops[m].hits == 1 && ops[m].mate == o
            && ops[m].kind != ops[o].kind && ops[m].value == ops[o].value
  {
    RunInv(acts, false);
    assert OpOk(Run(acts), o, false);
  }

  /** A receive returns 0 exactly when one send handed it a value. */
  lemma {:induction false} ReceiveExactlyOnce(acts: seq<Act>, o: nat)
    requires o < |Run(acts).ops| && Run(acts).ops[o].kind == RECV && Run(acts).ops[o].pc.Returned?
    ensures Run(acts).ops[o].pc.rc == 0 <==> Run(acts).ops[o].hits == 1
  {
    RunInv(acts, false);
    assert OpOk(Run(acts), o, false);
  }

  /** A send returns 0 exactly when one receive got its value, if receive-side closes carry an error code. */
  lemma {:induction false} SendExactlyOnce(acts: seq<Act>, o: nat)
    requires o < |Run(acts).ops| && Run(acts).ops[o].kind == SEND && Run(acts).ops[o].pc.Returned?
    requires forall a | a in acts :: Coded(a)
    ensures Run(acts).ops[o].pc.rc == 0 <==> Run(acts).ops[o].hits == 1
  {
    RunInv(acts, true);
    assert OpOk(Run(acts), o, true);
  }

  /** A call fails only because its side is shut, its deadline has passed, or it may not wait. */
  lemma {:induction false} FailsForAReason(acts: seq<Act>, o: nat)
    requires o < |Run(acts).ops| && Run(acts).ops[o].pc.Returned? && Run(acts).ops[o].hits == 0
    ensures Excused(Run(acts), Run(acts).ops[o], Run(acts).ops[o].pc.rc)
  {
    RunInv(acts, false);
    assert OpOk(Run(acts), o, false);
  }

  lemma TradeKeeps(s: State, i: nat, o: nat, codes: bool)
    requires Inv(s, codes) && i < |s.ops| && o < |s.ops| && o != i && s.ops[o].pc.Returned?
    ensures |Trade(s, i).ops| == |s.ops| && Trade(s, i).ops[o] == s.ops[o]
  {
    assert !Waits(s.ops, o, SEND) && !Waits(s.ops, o, RECV);
    assert o !in s.sendq && o !in s.recvq;
  }

  lemma HandOffKeeps(s: State, i: nat, x: nat, o: nat, codes: bool)
    requires Inv(s, codes) && i < |s.ops| && o < |s.ops| && o != i && s.ops[o].pc.Returned?
    ensures |HandOff(s, i, x).ops| == |s.ops| && HandOff(s, i, x).ops[o] == s.ops[o]
  {
    TradeKeeps(s, i, o, codes);
  }

  /** A woken call never trades, so it changes itself only. */
  lemma RelockKeeps(s: State, i: nat, expired: bool, x: nat, o: nat, codes: bool)
    requires Inv(s, codes) && i < |s.ops| && o < |s.ops| && o != i && Sleeping(s.ops[i])
    ensures |RelockStep(s, i, expired, x).ops| == |s.ops| && RelockStep(s, i, expired, x).ops[o] == s.ops[o]
  {
    if s.ops[i].note == NONE { NoPartner(s, i, codes); }
  }

  lemma GoKeeps(s: State, i: nat, expired: bool, x: nat, o: nat, codes: bool)
    requires Inv(s, codes) && i < |s.ops| && o < |s.ops| && o != i && s.ops[o].pc.Returned?
    ensures |GoStep(s, i, expired, x).ops| == |s.ops| && GoStep(s, i, expired, x).ops[o] == s.ops[o]
  {
    match s.ops[i].pc
    case Enter => HandOffKeeps(s, i, x, o, codes);
    case Asleep => if s.ops[i].mode != FIBER { RelockKeeps(s, i, expired, x, o, codes); }
    case Relock => RelockKeeps(s, i, expired, x, o, codes);
    case _ =>
  }

  lemma TryKeeps(s: State, k: Kind, v: int, x: nat, o: nat, codes: bool)
    requires Inv(s, codes) && o < |s.ops| && s.ops[o].pc.Returned?
    ensures o < |TryStep(s, k, v, x).ops| && TryStep(s, k, v, x).ops[o] == s.ops[o]
  {
    var op := Op(k, TRY, v, NONE, Enter, 0, 0, false);
    BeginInv(s, op, codes);
    HandOffKeeps(s.(ops := s.ops + [op]), |s.ops|, x, o, codes);
  }

  lemma ReturnedKeeps(s: State, a: Act, o: nat, codes: bool)
    requires Inv(s, codes) && o < |s.ops| && s.ops[o].pc.Returned?
    ensures o < |Step(s, a).ops| && Step(s, a).ops[o] == s.ops[o]
  {
    match a
    case Begin(_, _, _) =>
    case Go(i, expired, x) => if i < |s.ops| && i != o { GoKeeps(s, i, expired, x, o, codes); }
    case TrySend(v, x) => TryKeeps(s, SEND, v, x, o, codes);
    case TryRecv(x) => TryKeeps(s, RECV, 0, x, o, codes);
    case Wake(i) =>
    case Close(_, _, _, _) =>
      assert !Waits(s.ops, o, SEND) && !Waits(s.ops, o, RECV);
      assert o !in s.sendq && o !in s.recvq;
  }

  lemma Then(acts: seq<Act>, a: Act)
    ensures Run(acts + [a]) == Step(Run(acts), a)
  {
    assert (acts + [a])[..|acts|] == acts;
  }

  /** A call that has returned, with or without a handoff, is never touched again. */
  lemma {:induction false} ReturnedStays(acts: seq<Act>, more: seq<Act>, o: nat)
    requires o < |Run(acts).ops| && Run(acts).ops[o].pc.Returned?
    ensures o < |Run(acts + more).ops| && Run(acts + more).ops[o] == Run(acts).ops[o]
  {
    if more == [] {
      assert acts + more == acts;
    } else {
      var k := |more| - 1;
      ReturnedStays(acts, more[..k], o);
      RunInv(acts + more[..k], false);
      ReturnedKeeps(Run(acts + more[..k]), more[k], o, false);
      Then(acts + more[..k], more[k]);
      assert acts + more == acts + more[..k] + [more[k]];
    }
  }

  /** Unnotified senders and receivers are never both linked, and a closed channel has no waiters. */
  lemma {:induction false} NeverBothLinked(acts: seq<Act>)
    ensures var s := Run(acts);
            && (s.sendq == [] || s.recvq == [])
            && (s.closed ==> s.sendq == [] && s.recvq == [])
            && (s.rxClosed ==> s.sendq == [])
  {
    RunInv(acts, false);
  }

  /** A sleeping call that nobody has notified is linked, on an open side, with nobody to trade with. */
  lemma {:induction false} NobodyStranded(acts: seq<Act>, o: nat)
    requires o < |Run(acts).ops| && Sleeping(Run(acts).ops[o]) && Run(acts).ops[o].note == NONE
    ensures var s := Run(acts);
            var k := s.ops[o].kind;
            o in (if k == SEND then s.sendq else s.recvq) && !Shut(s, k) && !Partner(s, k)
  {
    var s := Run(acts);
    RunInv(acts, false);
    assert Waits(s.ops, o, s.ops[o].kind);
    NoPartner(s, o, false);
  }

  // ---- Threads on the condition variables ----

  /** What the trade itself does: it ends call o and notes the waiter w. */
  lemma TradeShape(s: State, o: nat, codes: bool)
    requires Inv(s, codes) && o < |s.ops| && s.ops[o].pc == Enter && Partner(s, s.ops[o].kind)
    ensures var t, w := Trade(s, o), Waiter(s, s.ops[o].kind);
            && |t.ops| == |s.ops| && w < |s.ops| && w != o && Waits(s.ops, w, Other(s.ops[o].kind))
            && t.ops[w].note == DATA && t.ops[o].pc.Returned? && t.closed == s.closed && t.rxClosed == s.rxClosed
  {
    var q := if s.ops[o].kind == SEND then s.recvq else s.sendq;
    assert q[0] in q;
    assert Waits(s.ops, q[0], Other(s.ops[o].kind));
  }

  /** Nobody's sleep begins or ends by the trade itself, and only w gets a note. */
  lemma TradeSleeps(s: State, o: nat, i: nat)
    requires o < |s.ops| && s.ops[o].pc == Enter && i < |s.ops|
    ensures var t := Trade(s, o);
            && |t.ops| == |s.ops| && (Blocked(t.ops[i]) <==> Blocked(s.ops[i]))
            && t.ops[i].kind == s.ops[i].kind && t.ops[i].mode == s.ops[i].mode
            && (i != Waiter(s, s.ops[o].kind) ==> t.ops[i].note == s.ops[i].note)
  {
  }

  /** No thread stays blocked on a side that is shut. */
  ghost predicate ReachedAt(s: State, i: nat) {
    i < |s.ops| && Shut(s, s.ops[i].kind) ==> !Blocked(s.ops[i])
  }

  ghost predicate Reached(s: State) {
    forall i: nat :: ReachedAt(s, i)
  }

  /** A call that has been served is not blocked. */
  ghost predicate HeardAt(s: State, i: nat) {
    i < |s.ops| && s.ops[i].note == DATA ==> !Blocked(s.ops[i])
  }

  ghost predicate Heard(s: State) {
    forall i: nat :: HeardAt(s, i)
  }

  /** No other thread is blocked on the condition variable on which w is. */
  ghost predicate Alone(s: State, w: nat) {
    w < |s.ops| && Blocked(s.ops[w]) ==> forall x: nat | x != w :: !BlockedOn(s.ops, x, s.ops[w].kind)
  }

  /** A call of kind k would serve a thread that is not alone. */
  ghost predicate Crowded(s: State, k: Kind) {
    Partner(s, k) && !Alone(s, Waiter(s, k))
  }

  ghost predicate Risky(s: State, a: Act) {
    match a
    case Go(o, _, _) => o < |s.ops| && s.ops[o].pc == Enter && !Shut(s, s.ops[o].kind) && Crowded(s, s.ops[o].kind)
    case TrySend(_, _) => !Shut(s, SEND) && Crowded(s, SEND)
    case TryRecv(_) => Crowded(s, RECV)
    case _ => false
  }

  /** What a step promises about call i; `safe`: it serves nobody in a crowd. */
  ghost predicate WakesAt(s: State, t: State, i: nat, safe: bool) {
    && (ReachedAt(s, i) ==> ReachedAt(t, i))
    && (HeardAt(s, i) && safe ==> HeardAt(t, i))
  }

  lemma HandOffWakes(s: State, o: nat, x: nat, i: nat, codes: bool)
    requires Inv(s, codes) && o < |s.ops| && s.ops[o].pc == Enter && Partner(s, s.ops[o].kind)
    ensures WakesAt(s, HandOff(s, o, x), i, !Crowded(s, s.ops[o].kind))
  {
    var w := Waiter(s, s.ops[o].kind);
    TradeShape(s, o, codes);
    TradeSleeps(s, o, w);
    if i < |s.ops| { TradeSleeps(s, o, i); }
    if x < |s.ops| {
      TradeSleeps(s, o, x);
      assert Alone(s, w) && Blocked(s.ops[w]) && x != w ==> !BlockedOn(s.ops, x, s.ops[w].kind);
    }
  }

  lemma RelockWakes(s: State, o: nat, expired: bool, x: nat, i: nat, codes: bool)
    requires Inv(s, codes) && o < |s.ops| && Sleeping(s.ops[o])
    ensures WakesAt(s, RelockStep(s, o, expired, x), i, true)
  {
    if s.ops[o].note == NONE { NoPartner(s, o, codes); }
  }

  lemma GoWakes(s: State, o: nat, expired: bool, x: nat, i: nat, codes: bool)
    requires Inv(s, codes) && o < |s.ops|
    ensures WakesAt(s, GoStep(s, o, expired, x), i, !Risky(s, Go(o, expired, x)))
  {
    assert OpOk(s, o, codes);
    match s.ops[o].pc
    case Enter => if !Shut(s, s.ops[o].kind) && Partner(s, s.ops[o].kind) { HandOffWakes(s, o, x, i, codes); }
    case Asleep => if s.ops[o].mode != FIBER && s.ops[o].up { RelockWakes(s, o, expired, x, i, codes); }
    case Relock => RelockWakes(s, o, expired, x, i, codes);
    case _ =>
  }

  /** A new call is nobody's rival. */
  lemma BeginAlone(s: State, op: Op, w: nat)
    requires op.pc == Enter
    ensures Alone(s.(ops := s.ops + [op]), w) <==> Alone(s, w)
  {
    var t := s.(ops := s.ops + [op]);
    forall x: nat ensures BlockedOn(t.ops, x, SEND) <==> BlockedOn(s.ops, x, SEND) { }
    forall x: nat ensures BlockedOn(t.ops, x, RECV) <==> BlockedOn(s.ops, x, RECV) { }
    if w < |s.ops| { assert t.ops[w] == s.ops[w]; }
  }

  lemma TryWakes(s: State, k: Kind, v: int, x: nat, i: nat, codes: bool)
    requires Inv(s, codes)
    ensures WakesAt(s, TryStep(s, k, v, x), i, (k == SEND && Shut(s, SEND)) || !Crowded(s, k))
  {
    var op := Op(k, TRY, v, NONE, Enter, 0, 0, false);
    var t := s.(ops := s.ops + [op]);
    BeginInv(s, op, codes);
    BeginAlone(s, op, Waiter(s, k));
    if !(k == SEND && Shut(s, SEND)) && Partner(s, k) { HandOffWakes(t, |s.ops|, x, i, codes); }
  }

  lemma CloseWakes(s: State, tx: bool, rx: bool, txCode: int, rxCode: int, i: nat)
    ensures WakesAt(s, CloseStep(s, tx, rx, txCode, rxCode), i, true)
  {
  }

  lemma StepWakes(s: State, a: Act, i: nat, codes: bool)
    requires Inv(s, codes)
    ensures WakesAt(s, Step(s, a), i, !Risky(s, a))
  {
    match a
    case Begin(_, _, _) =>
    case Go(o, expired, x) => if o < |s.ops| { GoWakes(s, o, expired, x, i, codes); }
    case TrySend(v, x) => TryWakes(s, SEND, v, x, i, codes);
    case TryRecv(x) => TryWakes(s, RECV, 0, x, i, codes);
    case Wake(_) =>
    case Close(tx, rx, tc, rc) => CloseWakes(s, tx, rx, tc, rc, i);
  }

  /** In every run, no thread stays blocked on a side that has been shut. */
  lemma {:induction false} CloseReachesAll(acts: seq<Act>, i: nat)
    ensures ReachedAt(Run(acts), i)
  {
    if acts != [] {
      var k := |acts| - 1;
      CloseReachesAll(acts[..k], i);
      RunInv(acts[..k], false);
      StepWakes(Run(acts[..k]), acts[k], i, false);
    }
  }

  /** No step of the run serves a thread in a crowd. */
  ghost predicate Sparse(acts: seq<Act>) {
    acts != [] ==> Sparse(acts[..|acts| - 1]) && !Risky(Run(acts[..|acts| - 1]), acts[|acts| - 1])
  }

  /** Then every thread that has been served is awake, or about to be. */
  lemma {:induction false} ServedAreAwake(acts: seq<Act>, i: nat)
    requires Sparse(acts)
    ensures HeardAt(Run(acts), i)
  {
    if acts != [] {
      var k := |acts| - 1;
      ServedAreAwake(acts[..k], i);
      RunInv(acts[..k], false);
      StepWakes(Run(acts[..k]), acts[k], i, false);
    }
  }

  lemma HandOffDeaf(s: State, o: nat, x: nat, codes: bool)
    requires Inv(s, codes) && o < |s.ops| && s.ops[o].pc == Enter && Partner(s, s.ops[o].kind)
    requires var w := Waiter(s, s.ops[o].kind);
             x != w && w < |s.ops| && Blocked(s.ops[w]) && BlockedOn(s.ops, x, s.ops[w].kind)
    ensures !Heard(HandOff(s, o, x))
  {
    var w := Waiter(s, s.ops[o].kind);
    TradeShape(s, o, codes);
    TradeSleeps(s, o, w);
    TradeSleeps(s, o, x);
    assert !HeardAt(HandOff(s, o, x), w);
  }

  /** Whomever the signal wakes, the call that is served is awake, if and only if it is alone on its
      condition variable. */
  lemma ServedIsAwakeIff(s: State, o: nat, codes: bool)
    requires Inv(s, codes) && Heard(s)
    requires o < |s.ops| && s.ops[o].pc == Enter && Partner(s, s.ops[o].kind)
    ensures (forall x: nat :: Heard(HandOff(s, o, x))) <==> Alone(s, Waiter(s, s.ops[o].kind))
  {
    var w := Waiter(s, s.ops[o].kind);
    if Alone(s, w) {
      forall x: nat, i: nat ensures HeardAt(HandOff(s, o, x), i) {
        assert HeardAt(s, i);
        HandOffWakes(s, o, x, i, codes);
      }
    } else {
      var x: nat :| x != w && BlockedOn(s.ops, x, s.ops[w].kind);
      HandOffDeaf(s, o, x, codes);
    }
  }

  function Reader(up: bool): Op { Op(RECV, THREAD, 0, NONE, Asleep, 0, 0, up) }

  /** Two threads begin to receive and block. */
  lemma TwoBlock()
    ensures Run([Begin(RECV, THREAD, 0)] + [Begin(RECV, THREAD, 0)] + [Go(0, false, 0)] + [Go(1, false, 0)])
            == State([Reader(false), Reader(false)], [], [0, 1], false, false, 0, 0)
  {
    var b, op := Begin(RECV, THREAD, 0), Op(RECV, THREAD, 0, NONE, Enter, 0, 0, false);
    assert [b][..0] == [];
    assert Run([b]) == Step(Init(), b);
    Then([b], b);
    assert Run([b] + [b]) == State([op, op], [], [], false, false, 0, 0);
    Then([b] + [b], Go(0, false, 0));
    Then([b] + [b] + [Go(0, false, 0)], Go(1, false, 0));
  }

  /** A send serves the first, its signal wakes the second, which goes back to sleep. */
  lemma SignalAstray(v: int)
    ensures var s := State([Reader(false), Reader(false)], [], [0, 1], false, false, 0, 0);
            Step(Step(s, TrySend(v, 1)), Go(1, false, 0)).ops
            == [Op(RECV, THREAD, v, DATA, Asleep, 1, 2, false), Reader(false),
                Op(SEND, TRY, v, NONE, Returned(0), 1, 0, false)]
  {
  }

  /** It happens with two receivers: one has been served, the send has returned, and both are blocked. */
  lemma ServedStaysBlocked(v: int)
    ensures var acts := [Begin(RECV, THREAD, 0)] + [Begin(RECV, THREAD, 0)] + [Go(0, false, 0)] + [Go(1, false, 0)];
            var s := Run(acts + [TrySend(v, 1)] + [Go(1, false, 0)]);
            && |s.ops| == 3 && s.ops[0].note == DATA && s.ops[0].value == v && s.ops[2].pc == Returned(0)
            && Blocked(s.ops[0]) && Blocked(s.ops[1])
  {
    var acts := [Begin(RECV, THREAD, 0)] + [Begin(RECV, THREAD, 0)] + [Go(0, false, 0)] + [Go(1, false, 0)];
    TwoBlock();
    SignalAstray(v);
    Then(acts, TrySend(v, 1));
    Then(acts + [TrySend(v, 1)], Go(1, false, 0));
  }

  /**
  Without an error code a send can report success for a value that nobody got.  It does so exactly
  when it finds the receive side closed with code 0 (and, on entry, the channel not closed as well):
  blocking, timed, woken, or after a try that found nobody.
  */
  lemma FalseSuccessIff(s: State, o: nat, expired: bool, x: nat)
    requires Inv(s, false) && o < |s.ops| && s.ops[o].kind == SEND && s.ops[o].note != DATA
    requires Reached(s) && !s.ops[o].pc.Returned? && !(s.ops[o].pc == Asleep && s.ops[o].mode == FIBER)
    ensures var op := GoStep(s, o, expired, x).ops[o];
            (op.pc == Returned(0) && op.hits == 0)
            <==> s.rxClosed && s.rxErr == 0 && (s.ops[o].pc == Enter ==> !s.closed)
  {
    assert OpOk(s, o, false) && ReachedAt(s, o);
    if Partner(s, SEND) { assert s.recvq[0] in s.recvq; assert Waits(s.ops, s.recvq[0], RECV); }
    if s.ops[o].note == NONE && Sleeping(s.ops[o]) { assert Waits(s.ops, o, SEND); NoPartner(s, o, false); }
  }

  /** The section of a try does so exactly when the receive side, and only that side, is closed with code 0. */
  lemma TryFalseSuccessIff(s: State, v: int, x: nat)
    requires Inv(s, false)
    ensures var op := TryStep(s, SEND, v, x).ops[|s.ops|];
            (op.pc == Returned(0) && op.hits == 0) <==> s.rxClosed && s.rxErr == 0 && !s.closed
  {
    if Partner(s, SEND) { assert s.recvq[0] in s.recvq; assert Waits(s.ops, s.recvq[0], RECV); }
  }

  /** The shortest such run: the receive side is closed with code 0 and a send follows. */
  lemma FalseSuccessHappens(v: int)
    ensures var s := Run([Close(false, true, 0, 0), Begin(SEND, FIBER, v), Go(0, false, 0)]);
            |s.ops| == 1 && s.ops[0].kind == SEND && s.ops[0].pc == Returned(0) && s.ops[0].hits == 0
  {
    var a, b, c := Close(false, true, 0, 0), Begin(SEND, FIBER, v), Go(0, false, 0);
    assert [a, b, c][..2] == [a, b] && [a, b][..1] == [a] && [a][..0] == [];
    assert Run([a]) == Step(Init(), a);
    assert Run([a, b]) == Step(Run([a]), b);
    assert Run([a, b, c]) == Step(Run([a, b]), c);
    assert Tell([], []) == [];
  }
}
