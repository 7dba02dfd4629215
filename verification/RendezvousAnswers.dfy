/**
What each call on an unbuffered channel returns, told from the calls themselves: from what each was given,
from the closes so far and from who waits.
*/
module RendezvousAnswers {
  import opened Rendezvous

  // ---- What the calls were given ----

  /** The calls that a run begins, in order. */
  datatype Asked = Asked(kind: Kind, mode: Mode, value: int)

  function Asks(a: Act): seq<Asked> {
    match a
    case Begin(k, m, v) => if m == TRY then [] else [Asked(k, m, v)]
    case TrySend(v, _) => [Asked(SEND, TRY, v)]
    case TryRecv(_) => [Asked(RECV, TRY, 0)]
    case _ => []
  }

  function Inputs(acts: seq<Act>): seq<Asked> {
    if acts == [] then [] else Inputs(acts[..|acts| - 1]) + Asks(acts[|acts| - 1])
  }

  ghost predicate Same(a: Op, b: Op) {
    a.kind == b.kind && a.mode == b.mode && (a.kind == SEND ==> a.value == b.value)
  }

  ghost predicate Records(ops: seq<Op>, l: seq<Asked>) {
    && |ops| == |l|
    && forall i | 0 <= i < |l| ::
         ops[i].kind == l[i].kind && ops[i].mode == l[i].mode && (l[i].kind == SEND ==> ops[i].value == l[i].value)
  }

  lemma TradeSame(s: State, o: nat, i: nat, codes: bool)
    requires Inv(s, codes) && o < |s.ops| && i < |s.ops|
    ensures |Trade(s, o).ops| == |s.ops| && Same(Trade(s, o).ops[i], s.ops[i])
  {
    var q := if s.ops[o].kind == SEND then s.recvq else s.sendq;
    if q != [] { assert q[0] in q; }
  }

  lemma SignalSame(s: State, w: nat, x: nat, i: nat)
    requires w < |s.ops| && i < |s.ops|
    ensures |Signal(s, w, x).ops| == |s.ops| && Same(Signal(s, w, x).ops[i], s.ops[i])
  {
  }

  lemma HandOffSame(s: State, o: nat, x: nat, i: nat, codes: bool)
    requires Inv(s, codes) && o < |s.ops| && i < |s.ops|
    ensures |HandOff(s, o, x).ops| == |s.ops| && Same(HandOff(s, o, x).ops[i], s.ops[i])
  {
    var w := Waiter(s, s.ops[o].kind);
    TradeSame(s, o, i, codes);
    if w < |s.ops| { SignalSame(Trade(s, o), w, x, i); }
  }

  lemma EnterSame(s: State, o: nat, x: nat, i: nat, codes: bool)
    requires Inv(s, codes) && o < |s.ops| && i < |s.ops|
    ensures |EnterStep(s, o, x).ops| == |s.ops| && Same(EnterStep(s, o, x).ops[i], s.ops[i])
  {
    HandOffSame(s, o, x, i, codes);
  }

  /** A woken call changes itself only, and neither what it was given. */
  lemma RelockSame(s: State, o: nat, expired: bool, x: nat, i: nat)
    requires o < |s.ops| && i < |s.ops| && (s.ops[o].note == NONE ==> !Partner(s, s.ops[o].kind))
    ensures var t := RelockStep(s, o, expired, x); |t.ops| == |s.ops| && Same(t.ops[i], s.ops[i])
  {
  }

  lemma GoSame(s: State, o: nat, expired: bool, x: nat, i: nat, codes: bool)
    requires Inv(s, codes) && o < |s.ops| && i < |s.ops|
    ensures |GoStep(s, o, expired, x).ops| == |s.ops| && Same(GoStep(s, o, expired, x).ops[i], s.ops[i])
  {
    match s.ops[o].pc
    case Enter => EnterSame(s, o, x, i, codes);
    case Asleep =>
      if s.ops[o].note == NONE { NoPartner(s, o, codes); }
      RelockSame(s, o, expired, x, i);
    case Relock =>
      if s.ops[o].note == NONE { NoPartner(s, o, codes); }
      RelockSame(s, o, expired, x, i);
    case Failed =>
    case Returned(_) =>
  }

  lemma TrySame(s: State, k: Kind, v: int, x: nat, i: nat, codes: bool)
    requires Inv(s, codes) && i <= |s.ops|
    ensures var (t, op) := (TryStep(s, k, v, x), Op(k, TRY, v, NONE, Enter, 0, 0, false));
            |t.ops| == |s.ops| + 1 && Same(t.ops[i], if i < |s.ops| then s.ops[i] else op)
  {
    var op := Op(k, TRY, v, NONE, Enter, 0, 0, false);
    BeginInv(s, op, codes);
    HandOffSame(s.(ops := s.ops + [op]), |s.ops|, x, i, codes);
  }

  lemma KeepRecords(ops: seq<Op>, t: seq<Op>, l: seq<Asked>)
    requires Records(ops, l) && |t| == |ops| && forall i: nat | i < |t| :: Same(t[i], ops[i])
    ensures Records(t, l)
  {
    forall i | 0 <= i < |l|
      ensures t[i].kind == l[i].kind && t[i].mode == l[i].mode && (l[i].kind == SEND ==> t[i].value == l[i].value)
    {
      assert Same(t[i], ops[i]);
    }
  }

  lemma AddRecord(ops: seq<Op>, t: seq<Op>, op: Op, l: seq<Asked>)
    requires Records(ops, l) && |t| == |ops| + 1
    requires forall i: nat | i < |t| :: Same(t[i], if i < |ops| then ops[i] else op)
    ensures Records(t, l + [Asked(op.kind, op.mode, op.value)])
  {
    var m := l + [Asked(op.kind, op.mode, op.value)];
    forall i | 0 <= i < |m|
      ensures t[i].kind == m[i].kind && t[i].mode == m[i].mode && (m[i].kind == SEND ==> t[i].value == m[i].value)
    {
      assert Same(t[i], if i < |ops| then ops[i] else op);
    }
  }

  lemma TryRecords(s: State, k: Kind, v: int, x: nat, l: seq<Asked>)
    requires Inv(s, false) && Records(s.ops, l)
    ensures Records(TryStep(s, k, v, x).ops, l + [Asked(k, TRY, v)])
  {
    var t, op := TryStep(s, k, v, x), Op(k, TRY, v, NONE, Enter, 0, 0, false);
    TrySame(s, k, v, x, |s.ops|, false);
    forall i: nat | i < |t.ops| ensures Same(t.ops[i], if i < |s.ops| then s.ops[i] else op) {
      TrySame(s, k, v, x, i, false);
    }
    AddRecord(s.ops, t.ops, op, l);
  }

  lemma GoRecords(s: State, o: nat, expired: bool, x: nat, l: seq<Asked>)
    requires Inv(s, false) && Records(s.ops, l) && o < |s.ops|
    ensures Records(GoStep(s, o, expired, x).ops, l)
  {
    var t := GoStep(s, o, expired, x);
    GoSame(s, o, expired, x, o, false);
    forall i: nat | i < |t.ops| ensures Same(t.ops[i], s.ops[i]) { GoSame(s, o, expired, x, i, false); }
    KeepRecords(s.ops, t.ops, l);
  }

  lemma StepRecords(s: State, a: Act, l: seq<Asked>)
    requires Inv(s, false) && Records(s.ops, l)
    ensures Records(Step(s, a).ops, l + Asks(a))
  {
    assert l + [] == l;
    match a
    case Begin(_, _, _) =>
    case Go(o, expired, x) => if o < |s.ops| { GoRecords(s, o, expired, x, l); }
    case TrySend(v, x) => TryRecords(s, SEND, v, x, l);
    case TryRecv(x) => TryRecords(s, RECV, 0, x, l);
    case Wake(_) => KeepRecords(s.ops, Step(s, a).ops, l);
    case Close(_, _, _, _) => KeepRecords(s.ops, Step(s, a).ops, l);
  }

  /** The calls of a run are those it began, and every send still has the value it was given. */
  lemma {:induction false} CallsAreRecorded(acts: seq<Act>)
    ensures Records(Run(acts).ops, Inputs(acts))
  {
    if acts != [] {
      var k := |acts| - 1;
      CallsAreRecorded(acts[..k]);
      RunInv(acts[..k], false);
      StepRecords(Run(acts[..k]), acts[k], Inputs(acts[..k]));
    }
  }

  /** A receive that was served holds what the send it met was given. */
  lemma {:induction false} ReceivesWhatWasGiven(acts: seq<Act>, o: nat)
    requires o < |Run(acts).ops| && Run(acts).ops[o].kind == RECV && Run(acts).ops[o].hits > 0
    ensures var (op, l) := (Run(acts).ops[o], Inputs(acts));
            op.mate < |l| && l[op.mate].kind == SEND && op.value == l[op.mate].value
  {
    HandoffsPairUp(acts, o);
    CallsAreRecorded(acts);
  }

  // ---- The closes so far ----

  /** Some close was of the sending side. */
  predicate TxClosed(acts: seq<Act>) {
    acts != [] && (TxClosed(acts[..|acts| - 1]) || (acts[|acts| - 1].Close? && acts[|acts| - 1].tx))
  }

  predicate RxClosed(acts: seq<Act>) {
    acts != [] && (RxClosed(acts[..|acts| - 1]) || (acts[|acts| - 1].Close? && acts[|acts| - 1].rx))
  }

  /** The last error code that a close of the sending side gave. */
  function TxCode(acts: seq<Act>): int {
    if acts == [] then 0
    else
      var a := acts[|acts| - 1];
      if a.Close? && a.tx && a.txCode != 0 then a.txCode else TxCode(acts[..|acts| - 1])
  }

  function RxCode(acts: seq<Act>): int {
    if acts == [] then 0
    else
      var a := acts[|acts| - 1];
      if a.Close? && a.rx && a.rxCode != 0 then a.rxCode else RxCode(acts[..|acts| - 1])
  }

  predicate SameFlags(s: State, t: State) {
    t.closed == s.closed && t.rxClosed == s.rxClosed && t.txErr == s.txErr && t.rxErr == s.rxErr
  }

  lemma HandOffFlags(s: State, o: nat, x: nat)
    requires o < |s.ops|
    ensures SameFlags(s, HandOff(s, o, x))
  {
  }

  lemma RelockFlags(s: State, o: nat, expired: bool, x: nat)
    requires o < |s.ops|
    ensures SameFlags(s, RelockStep(s, o, expired, x))
  {
    var op := s.ops[o];
    if !Shut(s, op.kind) && op.note == NONE && !(op.mode == TIMED && expired) { HandOffFlags(Unlink(s, o), o, x); }
  }

  lemma GoFlags(s: State, o: nat, expired: bool, x: nat)
    requires o < |s.ops|
    ensures SameFlags(s, GoStep(s, o, expired, x))
  {
    match s.ops[o].pc
    case Enter => HandOffFlags(s, o, x);
    case Asleep => RelockFlags(s, o, expired, x);
    case Relock => RelockFlags(s, o, expired, x);
    case Failed =>
    case Returned(_) =>
  }

  lemma TryFlags(s: State, k: Kind, v: int, x: nat)
    ensures SameFlags(s, TryStep(s, k, v, x))
  {
  }

  lemma OtherFlags(s: State, a: Act)
    requires !a.Close?
    ensures SameFlags(s, Step(s, a))
  {
    match a
    case Begin(_, _, _) =>
    case Go(o, expired, x) => if o < |s.ops| { GoFlags(s, o, expired, x); }
    case TrySend(v, x) => TryFlags(s, SEND, v, x);
    case TryRecv(x) => TryFlags(s, RECV, 0, x);
    case Wake(_) =>
  }

  lemma CloseFlags(s: State, a: Act)
    requires a.Close?
    ensures var t := Step(s, a);
            && t.closed == (s.closed || a.tx) && t.rxClosed == (s.rxClosed || a.rx)
            && t.txErr == (if a.tx && a.txCode != 0 then a.txCode else s.txErr)
            && t.rxErr == (if a.rx && a.rxCode != 0 then a.rxCode else s.rxErr)
  {
  }

  /** Only closes shut a side, and they leave their last code. */
  lemma {:induction false} ClosesAreRecorded(acts: seq<Act>)
    ensures var s := Run(acts);
            && (s.closed <==> TxClosed(acts)) && (s.rxClosed <==> RxClosed(acts))
            && s.txErr == TxCode(acts) && s.rxErr == RxCode(acts)
  {
    if acts != [] {
      var k := |acts| - 1;
      var s := Run(acts[..k]);
      ClosesAreRecorded(acts[..k]);
      if acts[k].Close? { CloseFlags(s, acts[k]); } else { OtherFlags(s, acts[k]); }
    }
  }

  // ---- What a call returns ----

  /** A receive on a closed channel reports the close's code, or 32. */
  predicate RecvRefused(s: State, rc: int) {
    if s.txErr == 0 then rc == 32 else rc == s.txErr
  }

  /** A send on a channel closed by the sender reports the receiver's code if there is one, or 32. */
  predicate SendRefused(s: State, rc: int) {
    if s.rxClosed && s.rxErr != 0 then rc == s.rxErr else rc == 32
  }

  /** The first section: refuse, meet the other side's first waiter, or block. */
  predicate EnterAnswer(s: State, k: Kind, pc: Pc) {
    if s.closed then pc.Returned? && (if k == RECV then RecvRefused(s, pc.rc) else SendRefused(s, pc.rc))
    else if k == SEND && s.rxClosed then pc == Returned(s.rxErr)
    else if (k == SEND && s.recvq != []) || (k == RECV && s.sendq != []) then pc == Returned(0)
    else pc == Asleep
  }

  lemma EnterAnswers(s: State, o: nat, expired: bool, x: nat, codes: bool)
    requires Inv(s, codes) && o < |s.ops| && s.ops[o].pc == Enter
    ensures var t := Step(s, Go(o, expired, x)); |t.ops| == |s.ops| && EnterAnswer(s, s.ops[o].kind, t.ops[o].pc)
  {
    var t, k := Step(s, Go(o, expired, x)), s.ops[o].kind;
    assert t == EnterStep(s, o, x);
    if !Shut(s, k) && Partner(s, k) {
      TradeShape(s, o, codes);
      assert t == HandOff(s, o, x);
    }
  }

  /** After a sleep: a call that was served returns 0; a call on a shut side reports the close, and a send prefers
      the receiver's code; a deadline counts only for a call that has one; any other call sleeps on. */
  predicate WakeAnswer(s: State, op: Op, expired: bool, pc: Pc) {
    if op.note == DATA then pc == Returned(0)
    else if op.note == CLOSE || s.closed || (op.kind == SEND && s.rxClosed) then
      pc.Returned? && (if op.kind == RECV then RecvRefused(s, pc.rc)
                       else if s.rxClosed then pc.rc == s.rxErr else pc.rc == 32)
    else if op.mode == TIMED && expired then pc == Returned(110)
    else pc == Asleep
  }

  lemma WakeAnswers(s: State, o: nat, expired: bool, x: nat, codes: bool)
    requires Inv(s, codes) && o < |s.ops| && Sleeping(s.ops[o])
    ensures var t := RelockStep(s, o, expired, x);
            |t.ops| == |s.ops| && WakeAnswer(s, s.ops[o], expired, t.ops[o].pc)
  {
    if s.ops[o].note == NONE { NoPartner(s, o, codes); }
  }

  /** A woken thread takes that section at once; a woken fiber that has been served returns, and goes through it
      otherwise; a thread whose wait has not ended stays. */
  lemma GoAnswers(s: State, o: nat, expired: bool, x: nat, codes: bool)
    requires Inv(s, codes) && o < |s.ops| && Sleeping(s.ops[o])
    ensures var (t, op) := (Step(s, Go(o, expired, x)), s.ops[o]);
            && |t.ops| == |s.ops|
            && if op.pc == Asleep && op.mode != FIBER && !op.up then t == s
               else if op.pc == Asleep && op.mode == FIBER && op.note != DATA then t.ops[o] == op.(pc := Relock)
               else WakeAnswer(s, op, expired, t.ops[o].pc)
  {
    WakeAnswers(s, o, expired, x, codes);
  }

  /** A try: refused when the send side is shut, served by the first waiter, or about to fail. */
  lemma TryAnswers(s: State, a: Act, codes: bool)
    requires Inv(s, codes) && (a.TrySend? || a.TryRecv?)
    ensures var t := Step(s, a);
            && |t.ops| == |s.ops| + 1
            && var pc := t.ops[|s.ops|].pc;
               if a.TrySend? && s.closed then pc.Returned? && SendRefused(s, pc.rc)
               else if a.TrySend? && s.rxClosed then pc == Returned(s.rxErr)
               else if (a.TrySend? && s.recvq != []) || (a.TryRecv? && s.sendq != []) then pc == Returned(0)
               else pc == Failed
  {
    var k, v := if a.TrySend? then SEND else RECV, if a.TrySend? then a.v else 0;
    var op := Op(k, TRY, v, NONE, Enter, 0, 0, false);
    var u := s.(ops := s.ops + [op]);
    assert Step(s, a) == TryStep(s, k, v, a.x);
    if !(k == SEND && Shut(s, SEND)) && Partner(s, k) {
      BeginInv(s, op, codes);
      TradeShape(u, |s.ops|, codes);
    }
  }

  /** It fails with 11 while the channel is open, and reports the close otherwise. */
  lemma FailAnswers(s: State, o: nat, expired: bool, x: nat)
    requires o < |s.ops| && s.ops[o].pc == Failed
    ensures var t := Step(s, Go(o, expired, x));
            && |t.ops| == |s.ops| && t.ops[o].pc.Returned?
            && var rc := t.ops[o].pc.rc;
               if s.ops[o].kind == RECV then (if s.closed then RecvRefused(s, rc) else rc == 11)
               else if s.rxClosed then rc == s.rxErr
               else if s.closed then rc == 32 else rc == 11
  {
  }
}
