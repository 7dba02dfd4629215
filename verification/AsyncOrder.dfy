/**
The order in which an asynchronous channel delivers.  Calls are numbered in the order in which they
take the mutex, so a send that was accepted earlier has the smaller number.
*/
module AsyncOrder {
  import opened AsyncChan
  import opened Ascending

  /** A send and the receive that got its value. */
  datatype Meeting = Meeting(send: nat, recv: nat)

  /** The send and the receive that a step brings together, if any. */
  function Meets(s: State, a: Act): seq<Meeting> {
    match a
    case Send(_, size, noBuf, _) =>
      if BadSize(s, size) || (!s.alloc && noBuf) || s.recvs == [] then []
      else if s.sends != [] then [Meeting(s.sends[0], s.recvs[0])]
      else [Meeting(|s.calls|, s.recvs[0])]
    case Recv(size, _) =>
      if BadSize(s, size) || OnWay(s) == [] then [] else [Meeting(OnWay(s)[0], |s.calls|)]
    case Close => []
  }

  /** The sends whose values are on their way, in the order in which receives would take them. */
  function OnWay(s: State): seq<nat> {
    s.buffer + s.sends
  }

  function Senders(m: seq<Meeting>): (r: seq<nat>)
    ensures |r| == |m|
  {
    seq(|m|, k requires 0 <= k < |m| => m[k].send)
  }

  function Receivers(m: seq<Meeting>): (r: seq<nat>)
    ensures |r| == |m|
  {
    seq(|m|, k requires 0 <= k < |m| => m[k].recv)
  }

  lemma Project(m: seq<Meeting>, x: seq<Meeting>)
    ensures Senders(m + x) == Senders(m) + Senders(x) && Receivers(m + x) == Receivers(m) + Receivers(x)
  {
  }

  // ---- One step ----

  /** A fate that nothing changes any more. */
  predicate Settled(f: Fate) {
    f.Rejected? || f.Met? || f.Dropped? || f.Refused?
  }

  /** What a step may do to call i. */
  ghost predicate FateOk(before: seq<Call>, after: seq<Call>, m: seq<Meeting>, i: nat) {
    && |before| <= |after|
    && (i < |before| ==> after[i].send == before[i].send && (Settled(before[i].fate) ==> after[i] == before[i]))
    && (i < |after| && after[i].send && after[i].fate.Met? && (i < |before| ==> !before[i].fate.Met?) ==>
          |m| == 1 && m[0].send == i)
  }

  /** The two calls that meet were not settled and are now mates. */
  ghost predicate MeetOk(before: seq<Call>, after: seq<Call>, m: seq<Meeting>) {
    |m| == 1 ==>
      && m[0].send <= |before| && m[0].recv <= |before|
      && m[0].send < |after| && m[0].recv < |after|
      && after[m[0].send].send && after[m[0].send].fate == Met(m[0].recv)
      && (m[0].send < |before| ==> !Settled(before[m[0].send].fate))
  }

  lemma SendGoFates(s: State, v: Value, noMem: bool, i: nat)
    requires Inv(s)
    ensures var m := if s.recvs == [] then [] else [Meeting(|s.calls|, s.recvs[0])];
            FateOk(s.calls, SendGo(s, v, noMem).calls, m, i) && MeetOk(s.calls, SendGo(s, v, noMem).calls, m)
  {
    var t, n := SendGo(s, v, noMem), |s.calls|;
    if s.recvs != [] {
      assert Is(s.calls, s.recvs[0], false, Waiting) by { HeadIn(s.recvs); }
      assert t == SendToRecv(New(s, true, v), n);
    } else if |s.buffer| < s.cap {
      assert t == SendToBuffer(New(s, true, v), n);
    } else if s.mode == DROP_OLD {
      assert Is(s.calls, s.buffer[0], true, Buffered) by { HeadIn(s.buffer); }
      assert t == SendToBuffer(DropOldest(New(s, true, v)), n);
    }
  }

  lemma RecvGoFates(s: State, noMem: bool, i: nat)
    requires Inv(s)
    ensures var m := if OnWay(s) == [] then [] else [Meeting(OnWay(s)[0], |s.calls|)];
            FateOk(s.calls, RecvGo(s, noMem).calls, m, i) && MeetOk(s.calls, RecvGo(s, noMem).calls, m)
  {
    var t, n := RecvGo(s, noMem), |s.calls|;
    if s.buffer != [] {
      assert Is(s.calls, s.buffer[0], true, Buffered) by { HeadIn(s.buffer); }
      assert t == RecvFromBuffer(New(s, false, 0), n);
    } else if s.sends != [] {
      assert Is(s.calls, s.sends[0], true, Waiting) by { HeadIn(s.sends); }
      assert t == RecvFromSend(New(s, false, 0), n);
    }
  }

  lemma CloseFates(s: State, i: nat)
    requires Inv(s)
    ensures FateOk(s.calls, CloseStep(s).calls, [], i)
  {
    assert i in s.sends <==> Is(s.calls, i, true, Waiting);
    assert i in s.recvs <==> Is(s.calls, i, false, Waiting);
  }

  /** A send that is buffered while earlier sends are still pending. */
  predicate Overtakes(s: State, a: Act) {
    && a.Send? && !BadSize(s, a.size) && (s.alloc || !a.noBuf)
    && s.recvs == [] && s.sends != [] && |s.buffer| < s.cap
  }

  /** What a step with call number n does to the values on their way. */
  ghost predicate WayOk(q: seq<nat>, r: seq<nat>, m: seq<Meeting>, n: nat) {
    || (m == [] && (r <= q || r == q + [n] || (q != [] && r == q[1..] + [n])))
    || (|m| == 1 && m[0].send == n && q == [] && r == [])
    || (|m| == 1 && q != [] && m[0].send == q[0] && r == q[1..])
  }

  /** ... and to the pending receives. */
  ghost predicate RecvsOk(q: seq<nat>, r: seq<nat>, m: seq<Meeting>, n: nat) {
    || (m == [] && (r <= q || r == q + [n]))
    || (|m| == 1 && m[0].recv == n && q == [] && r == [])
    || (|m| == 1 && q != [] && m[0].recv == q[0] && r == q[1..])
  }

  /** How the lists move, with or without an overtaking send. */
  ghost predicate ListsOk(s: State, t: State, m: seq<Meeting>, over: bool) {
    && RecvsOk(s.recvs, t.recvs, m, |s.calls|)
    && if over then m == [] && s.sends != [] && t.buffer == s.buffer + [|s.calls|] && t.sends == s.sends
       else WayOk(OnWay(s), OnWay(t), m, |s.calls|)
  }

  lemma SendGoWay(s: State, v: Value, noMem: bool)
    requires Sides(s)
    ensures var m := if s.recvs == [] then [] else [Meeting(|s.calls|, s.recvs[0])];
            ListsOk(s, SendGo(s, v, noMem), m, s.recvs == [] && s.sends != [] && |s.buffer| < s.cap)
  {
    var t, n := SendGo(s, v, noMem), |s.calls|;
    if s.recvs != [] {
      assert t == SendToRecv(New(s, true, v), n);
    } else if |s.buffer| < s.cap {
      assert t == SendToBuffer(New(s, true, v), n);
    } else if s.mode == DROP_OLD {
      assert t == SendToBuffer(DropOldest(New(s, true, v)), n);
      assert OnWay(t) == OnWay(s)[1..] + [n];
    } else if s.mode == BLOCK && !noMem {
      assert OnWay(t) == OnWay(s) + [n];
    }
  }

  lemma RecvGoWay(s: State, noMem: bool)
    requires Sides(s)
    ensures var m := if OnWay(s) == [] then [] else [Meeting(OnWay(s)[0], |s.calls|)];
            ListsOk(s, RecvGo(s, noMem), m, false)
  {
    var t, n := RecvGo(s, noMem), |s.calls|;
    if s.buffer != [] {
      assert t == RecvFromBuffer(New(s, false, 0), n);
      assert OnWay(t) == OnWay(s)[1..];
    } else if s.sends != [] {
      assert t == RecvFromSend(New(s, false, 0), n);
      assert OnWay(t) == OnWay(s)[1..];
    }
  }

  /** The sends on their way are the accepted ones that are not settled. */
  ghost predicate WayIs(s: State, i: nat) {
    i in OnWay(s) <==> i < |s.calls| && s.calls[i].send && !Settled(s.calls[i].fate)
  }

  ghost predicate Sound(s: State) {
    && AllBelow(OnWay(s), |s.calls|) && AllBelow(s.recvs, |s.calls|)
    && forall i: nat :: WayIs(s, i)
  }

  lemma InvSound(s: State)
    requires Inv(s)
    ensures Sound(s)
  {
    forall i: nat ensures WayIs(s, i) {
      assert i < |s.calls| ==> CallOk(s.calls, i);
      assert i in s.buffer <==> Is(s.calls, i, true, Buffered);
      assert i in s.sends <==> Is(s.calls, i, true, Waiting);
    }
    forall k | 0 <= k < |OnWay(s)| ensures OnWay(s)[k] < |s.calls| { assert WayIs(s, OnWay(s)[k]); }
    forall k | 0 <= k < |s.recvs| ensures s.recvs[k] < |s.calls| {
      assert s.recvs[k] in s.recvs;
      assert Is(s.calls, s.recvs[k], false, Waiting);
    }
  }

  /** Everything the order of delivery needs to know about a step from s to t. */
  ghost predicate Advances(s: State, a: Act, t: State) {
    && Sound(s) && MeetOk(s.calls, t.calls, Meets(s, a)) && ListsOk(s, t, Meets(s, a), Overtakes(s, a))
    && forall i: nat :: FateOk(s.calls, t.calls, Meets(s, a), i)
  }

  lemma RejectAdvances(s: State, a: Act, t: State, send: bool, v: Value, rc: int)
    requires Sound(s) && Meets(s, a) == [] && !Overtakes(s, a)
    requires t.calls == s.calls + [Call(send, v, rc, Rejected, 0, 0)]
    requires t.buffer == s.buffer && t.sends == s.sends && t.recvs == s.recvs
    ensures Advances(s, a, t)
  {
  }

  lemma SendGoAdvances(s: State, a: Act, u: State)
    requires Inv(s) && a.Send? && !BadSize(s, a.size) && (s.alloc || !a.noBuf)
    requires u == s.(elem := a.size, alloc := true)
    ensures Advances(s, a, SendGo(u, a.v, a.noMem))
  {
    InvSound(s);
    SendGoWay(u, a.v, a.noMem);
    SendGoFates(u, a.v, a.noMem, 0);
    var t := SendGo(u, a.v, a.noMem);
    forall i: nat ensures FateOk(s.calls, t.calls, Meets(s, a), i) { SendGoFates(u, a.v, a.noMem, i); }
  }

  lemma SendAdvances(s: State, a: Act)
    requires Inv(s) && a.Send?
    ensures Advances(s, a, SendStep(s, a.v, a.size, a.noBuf, a.noMem))
  {
    if BadSize(s, a.size) || (!s.alloc && a.noBuf) {
      InvSound(s);
      var t := SendStep(s, a.v, a.size, a.noBuf, a.noMem);
      RejectAdvances(s, a, t, true, a.v, if BadSize(s, a.size) then EINVAL else ENOMEM);
    } else {
      SendGoAdvances(s, a, s.(elem := a.size, alloc := true));
    }
  }

  lemma RecvGoCalls(s: State, a: Act, u: State, t: State)
    requires Inv(s) && a.Recv? && !BadSize(s, a.size) && u == s.(elem := a.size) && t == RecvGo(u, a.noMem)
    ensures MeetOk(s.calls, t.calls, Meets(s, a)) && forall i: nat :: FateOk(s.calls, t.calls, Meets(s, a), i)
  {
    RecvGoFates(u, a.noMem, 0);
    forall i: nat ensures FateOk(s.calls, t.calls, Meets(s, a), i) { RecvGoFates(u, a.noMem, i); }
  }

  lemma RecvGoAdvances(s: State, a: Act, u: State)
    requires Inv(s) && a.Recv? && !BadSize(s, a.size) && u == s.(elem := a.size)
    ensures Advances(s, a, RecvGo(u, a.noMem))
  {
    InvSound(s);
    RecvGoWay(u, a.noMem);
    RecvGoCalls(s, a, u, RecvGo(u, a.noMem));
  }

  lemma RecvAdvances(s: State, a: Act)
    requires Inv(s) && a.Recv?
    ensures Advances(s, a, RecvStep(s, a.size, a.noMem))
  {
    if BadSize(s, a.size) {
      InvSound(s);
      RejectAdvances(s, a, RecvStep(s, a.size, a.noMem), false, 0, EINVAL);
    } else {
      RecvGoAdvances(s, a, s.(elem := a.size));
    }
  }

  lemma CloseAdvances(s: State)
    requires Inv(s)
    ensures Advances(s, Close, CloseStep(s))
  {
    InvSound(s);
    assert OnWay(CloseStep(s)) == s.buffer;
    forall i: nat ensures FateOk(s.calls, CloseStep(s).calls, [], i) { CloseFates(s, i); }
  }

  lemma StepAdvances(s: State, a: Act)
    requires Inv(s)
    ensures Advances(s, a, Step(s, a))
  {
    match a
    case Send(_, _, _, _) => SendAdvances(s, a);
    case Recv(_, _) => RecvAdvances(s, a);
    case Close => CloseAdvances(s);
  }

  // ---- Whole runs ----

  /** All meetings of a run, in the order in which they happened. */
  function Meetings(capacity: nat, mode: Mode, acts: seq<Act>): seq<Meeting> {
    if acts == [] then []
    else
      var k := |acts| - 1;
      Meetings(capacity, mode, acts[..k]) + Meets(Run(capacity, mode, acts[..k]), acts[k])
  }

  /** A run step by step: the states and the meetings so far, before the first action and after each. */
  datatype Record = Record(acts: seq<Act>, st: seq<State>, log: seq<seq<Meeting>>)

  ghost predicate Whole(r: Record) {
    |r.st| == |r.log| == |r.acts| + 1
  }

  ghost predicate AdvancesAt(r: Record, k: nat)
    requires Whole(r) && k < |r.acts|
  {
    Advances(r.st[k], r.acts[k], r.st[k + 1]) && r.log[k + 1] == r.log[k] + Meets(r.st[k], r.acts[k])
  }

  ghost predicate Tracing(r: Record) {
    && Whole(r) && r.st[0].calls == [] && r.st[0].recvs == [] && OnWay(r.st[0]) == [] && r.log[0] == []
    && forall k | 0 <= k < |r.acts| :: AdvancesAt(r, k)
  }

  type Trace = r: Record | Tracing(r) ghost witness Record([], [Init(1, BLOCK)], [[]])

  ghost predicate RecordsAt(r: Record, capacity: nat, mode: Mode, k: nat)
    requires Whole(r) && k <= |r.acts|
  {
    && r.st[k] == Run(capacity, mode, r.acts[..k])
    && r.log[k] == Meetings(capacity, mode, r.acts[..k])
  }

  lemma RunTraces(r: Record, capacity: nat, mode: Mode)
    requires Whole(r) && forall k | 0 <= k <= |r.acts| :: RecordsAt(r, capacity, mode, k)
    ensures Tracing(r)
  {
    assert RecordsAt(r, capacity, mode, 0) && r.acts[..0] == [];
    forall k | 0 <= k < |r.acts| ensures AdvancesAt(r, k) {
      assert RecordsAt(r, capacity, mode, k) && RecordsAt(r, capacity, mode, k + 1);
      RunInv(capacity, mode, r.acts[..k]);
      StepAdvances(r.st[k], r.acts[k]);
      assert r.acts[..k + 1][..k] == r.acts[..k];
    }
  }

  /** The record of a run. */
  ghost function History(capacity: nat, mode: Mode, acts: seq<Act>): (r: Trace)
    ensures r.acts == acts && forall k | 0 <= k <= |acts| :: RecordsAt(r, capacity, mode, k)
  {
    var r := Record(acts, seq(|acts| + 1, k requires 0 <= k <= |acts| => Run(capacity, mode, acts[..k])),
                    seq(|acts| + 1, k requires 0 <= k <= |acts| => Meetings(capacity, mode, acts[..k])));
    assert forall k | 0 <= k <= |acts| :: RecordsAt(r, capacity, mode, k);
    RunTraces(r, capacity, mode);
    r
  }

  ghost predicate EntryOk(calls: seq<Call>, x: Meeting) {
    && x.send < |calls| && x.recv < |calls|
    && calls[x.send].send && calls[x.send].fate == Met(x.recv)
  }

  /** Call i is a send that has been received. */
  predicate Delivered(s: State, i: nat) {
    i < |s.calls| && s.calls[i].send && s.calls[i].fate.Met?
  }

  function Mate(s: State, i: nat): nat
    requires Delivered(s, i)
  {
    s.calls[i].fate.mate
  }

  /** The log names each delivered send with its receive, and receives are served in the order of their calls. */
  ghost predicate LogOk(s: State, m: seq<Meeting>) {
    && (forall k | 0 <= k < |m| :: EntryOk(s.calls, m[k]))
    && (forall i: nat | Delivered(s, i) :: i in Senders(m))
    && Rising(Receivers(m) + s.recvs)
  }

  lemma Recent(s: State, m: seq<Meeting>)
    requires Sound(s) && forall k | 0 <= k < |m| :: EntryOk(s.calls, m[k])
    ensures AllBelow(Receivers(m) + s.recvs, |s.calls|) && AllBelow(Senders(m) + OnWay(s), |s.calls|)
  {
    forall k | 0 <= k < |m| ensures Receivers(m)[k] < |s.calls| && Senders(m)[k] < |s.calls| {
      assert EntryOk(s.calls, m[k]);
    }
  }

  /** Receives: the one served comes off the front of the pending ones, or is the call just made. */
  lemma ServedStep(m: seq<Meeting>, q: seq<nat>, r: seq<nat>, x: seq<Meeting>, n: nat)
    requires Rising(Receivers(m) + q) && AllBelow(Receivers(m) + q, n) && RecvsOk(q, r, x, n)
    ensures Rising(Receivers(m + x) + r)
  {
    var p := Receivers(m);
    Project(m, x);
    if x == [] && r <= q {
      assert p + q == (p + r) + q[|r|..];
      PrefixRising(p + r, q[|r|..]);
      assert Receivers(m + x) + r == p + r;
    } else if |x| == 1 && q != [] && x[0].recv == q[0] && r == q[1..] {
      assert Receivers(m + x) + r == p + q;
    } else {
      AppendRising(p + q, n);
      assert Receivers(m + x) + r == p + q + [n];
    }
  }

  lemma LogStep(s: State, a: Act, t: State, m: seq<Meeting>)
    requires Advances(s, a, t) && LogOk(s, m)
    ensures LogOk(t, m + Meets(s, a))
  {
    var x := Meets(s, a);
    Recent(s, m);
    ServedStep(m, s.recvs, t.recvs, x, |s.calls|);
    Project(m, x);
    forall k | 0 <= k < |m + x| ensures EntryOk(t.calls, (m + x)[k]) {
      if k < |m| {
        assert EntryOk(s.calls, m[k]);
        assert FateOk(s.calls, t.calls, x, m[k].send) && FateOk(s.calls, t.calls, x, m[k].recv);
      }
    }
    forall i: nat | Delivered(t, i) ensures i in Senders(m + x) {
      assert FateOk(s.calls, t.calls, x, i);
      if Delivered(s, i) {
        assert i in Senders(m);
      } else {
        assert Senders(x)[0] == i;
      }
    }
  }

  lemma {:induction false} LogRun(r: Trace, n: nat)
    requires n <= |r.acts|
    ensures LogOk(r.st[n], r.log[n])
  {
    if n > 0 {
      LogRun(r, n - 1);
      assert AdvancesAt(r, n - 1);
      LogStep(r.st[n - 1], r.acts[n - 1], r.st[n], r.log[n - 1]);
    }
  }

  // ---- What every run guarantees ----

  /** Receives are always served in the order in which they were made. */
  lemma ReceivesServedInOrder(capacity: nat, mode: Mode, acts: seq<Act>)
    ensures var r := History(capacity, mode, acts);
            Rising(Receivers(r.log[|acts|]) + r.st[|acts|].recvs)
  {
    LogRun(History(capacity, mode, acts), |acts|);
  }

  /** The values delivered so far, and then those on their way, are in the order in which they were accepted. */
  ghost predicate InOrder(s: State, m: seq<Meeting>) {
    Rising(Senders(m) + OnWay(s))
  }

  lemma OrderStep(m: seq<Meeting>, q: seq<nat>, r: seq<nat>, x: seq<Meeting>, n: nat)
    requires Rising(Senders(m) + q) && AllBelow(Senders(m) + q, n) && WayOk(q, r, x, n)
    ensures Rising(Senders(m + x) + r)
  {
    var p := Senders(m);
    Project(m, x);
    if x == [] && r <= q {
      assert p + q == (p + r) + q[|r|..];
      PrefixRising(p + r, q[|r|..]);
      assert Senders(m + x) + r == p + r;
    } else if x == [] && q != [] && r == q[1..] + [n] {
      RemoveRising(p, q);
      forall k | 0 <= k < |p + q[1..]| ensures (p + q[1..])[k] < n {
        assert (p + q)[if k < |p| then k else k + 1] < n;
      }
      AppendRising(p + q[1..], n);
      assert Senders(m + x) + r == p + q[1..] + [n];
    } else if |x| == 1 && q != [] && x[0].send == q[0] && r == q[1..] {
      assert Senders(m + x) + r == p + q;
    } else {
      AppendRising(p + q, n);
      assert Senders(m + x) + r == p + q + [n];
    }
  }

  lemma OvertakeStep(m: seq<Meeting>, b: seq<nat>, q: seq<nat>, n: nat)
    requires q != [] && AllBelow(Senders(m) + (b + q), n)
    ensures !Rising(Senders(m) + ((b + [n]) + q))
  {
    var z, k := Senders(m) + ((b + [n]) + q), |m| + |b|;
    assert z[k] == n && z[k + 1] == q[0] == (Senders(m) + (b + q))[k];
    assert !Below(z, k, k + 1);
  }

  /** A step that overtakes breaks the order, and only such a step does. */
  lemma OrderStepIff(s: State, a: Act, t: State, m: seq<Meeting>)
    requires Advances(s, a, t) && LogOk(s, m) && InOrder(s, m)
    ensures InOrder(t, m + Meets(s, a)) <==> !Overtakes(s, a)
  {
    Recent(s, m);
    if Overtakes(s, a) {
      OvertakeStep(m, s.buffer, s.sends, |s.calls|);
      assert m + Meets(s, a) == m;
    } else {
      OrderStep(m, OnWay(s), OnWay(t), Meets(s, a), |s.calls|);
    }
  }

  lemma TraceOrder(r: Trace, k: nat)
    requires k < |r.acts| && InOrder(r.st[k], r.log[k])
    ensures InOrder(r.st[k + 1], r.log[k + 1]) <==> !Overtakes(r.st[k], r.acts[k])
  {
    LogRun(r, k);
    assert AdvancesAt(r, k);
    OrderStepIff(r.st[k], r.acts[k], r.st[k + 1], r.log[k]);
  }

  /**
  Order is lost by exactly one kind of step: a send that is buffered while earlier sends are pending.
  Every other step keeps the values delivered and those on their way in the order of acceptance.
  */
  lemma {:induction false} OrderKeptIff(capacity: nat, mode: Mode, acts: seq<Act>, k: nat)
    requires k < |acts|
    ensures var r := History(capacity, mode, acts);
            InOrder(r.st[k], r.log[k]) ==>
              (InOrder(r.st[k + 1], r.log[k + 1]) <==> !Overtakes(r.st[k], acts[k]))
  {
    var r := History(capacity, mode, acts);
    if InOrder(r.st[k], r.log[k]) { TraceOrder(r, k); }
  }

  predicate OvertakesAt(r: Record, k: nat)
    requires Whole(r) && k < |r.acts|
  {
    Overtakes(r.st[k], r.acts[k])
  }

  /** No step of the run overtakes. */
  ghost predicate Careful(r: Record)
    requires Whole(r)
  {
    forall k | 0 <= k < |r.acts| :: !OvertakesAt(r, k)
  }

  lemma EmptyInOrder(s: State)
    requires OnWay(s) == []
    ensures InOrder(s, [])
  {
  }

  lemma {:induction false} CarefulInOrder(r: Trace, k: nat)
    requires k <= |r.acts| && Careful(r)
    ensures InOrder(r.st[k], r.log[k])
  {
    if k == 0 {
      EmptyInOrder(r.st[0]);
    } else {
      CarefulInOrder(r, k - 1);
      TraceOrder(r, k - 1);
      assert !OvertakesAt(r, k - 1);
    }
  }

  /** The position of a delivered send in the log. */
  lemma LogIndex(s: State, m: seq<Meeting>, i: nat) returns (k: nat)
    requires LogOk(s, m) && Delivered(s, i)
    ensures k < |m| && m[k] == Meeting(i, Mate(s, i))
  {
    assert i in Senders(m);
    k :| 0 <= k < |m| && Senders(m)[k] == i;
    assert EntryOk(s.calls, m[k]);
  }

  lemma MatesInOrder(s: State, m: seq<Meeting>, i: nat, j: nat)
    requires LogOk(s, m) && InOrder(s, m) && i < j && Delivered(s, i) && Delivered(s, j)
    ensures Mate(s, i) < Mate(s, j)
  {
    var a := LogIndex(s, m, i);
    var b := LogIndex(s, m, j);
    if b < a { RisingAt(Senders(m) + OnWay(s), b, a); }
    RisingAt(Receivers(m) + s.recvs, a, b);
  }

  /** In a run without an overtaking send, earlier values go to earlier receives. */
  lemma {:induction false} DeliversInOrder(capacity: nat, mode: Mode, acts: seq<Act>, i: nat, j: nat)
    requires i < j
    ensures var r := History(capacity, mode, acts);
            var s := r.st[|acts|];
            Careful(r) && Delivered(s, i) && Delivered(s, j) ==> Mate(s, i) < Mate(s, j)
  {
    var r := History(capacity, mode, acts);
    if Careful(r) && Delivered(r.st[|acts|], i) && Delivered(r.st[|acts|], j) {
      LogRun(r, |acts|);
      CarefulInOrder(r, |acts|);
      MatesInOrder(r.st[|acts|], r.log[|acts|], i, j);
    }
  }

  // ---- When a delivery is out of order ----

  /** Step k delivers send j. */
  predicate Delivers(r: Record, k: nat, j: nat)
    requires Whole(r) && k < |r.acts|
  {
    |Meets(r.st[k], r.acts[k])| == 1 && Meets(r.st[k], r.acts[k])[0].send == j
  }

  /** Step k delivers send j while send i is still on its way. */
  predicate Passes(r: Record, k: nat, i: nat, j: nat)
    requires Whole(r) && k < |r.acts|
  {
    Delivers(r, k, j) && i in OnWay(r.st[k])
  }

  lemma {:induction false} SettledStays(r: Trace, k: nat, n: nat, i: nat)
    requires k <= n <= |r.acts| && i < |r.st[k].calls|
    ensures i < |r.st[n].calls| && r.st[n].calls[i].send == r.st[k].calls[i].send
    ensures Settled(r.st[k].calls[i].fate) ==> r.st[n].calls[i] == r.st[k].calls[i]
  {
    if k < n {
      SettledStays(r, k, n - 1, i);
      assert AdvancesAt(r, n - 1);
      assert FateOk(r.st[n - 1].calls, r.st[n].calls, Meets(r.st[n - 1], r.acts[n - 1]), i);
    }
  }

  /** Every delivered send was delivered by some step. */
  lemma {:induction false} DeliveryStep(r: Trace, n: nat, j: nat) returns (k: nat)
    requires n <= |r.acts| && Delivered(r.st[n], j)
    ensures k < n && Delivers(r, k, j) && j <= |r.st[k].calls|
  {
    if n > 0 {
      if Delivered(r.st[n - 1], j) {
        k := DeliveryStep(r, n - 1, j);
      } else {
        k := n - 1;
        assert AdvancesAt(r, k);
        assert FateOk(r.st[k].calls, r.st[n].calls, Meets(r.st[k], r.acts[k]), j);
      }
    }
  }

  /** A send that is delivered later is on its way now. */
  lemma StillOnWay(r: Trace, k: nat, i: nat)
    requires k < |r.acts| && i < |r.st[k].calls|
    requires Delivered(r.st[|r.acts|], i) && !Delivered(r.st[k], i)
    ensures i in OnWay(r.st[k])
  {
    SettledStays(r, k, |r.acts|, i);
    assert AdvancesAt(r, k);
    assert WayIs(r.st[k], i);
  }

  lemma {:induction false} LogPrefix(r: Trace, k: nat, n: nat)
    requires k <= n <= |r.acts|
    ensures r.log[k] <= r.log[n]
  {
    if k < n {
      LogPrefix(r, k, n - 1);
      assert AdvancesAt(r, n - 1);
    }
  }

  lemma JustDelivered(r: Trace, k: nat, j: nat)
    requires k < |r.acts| && Delivers(r, k, j)
    ensures Delivered(r.st[k + 1], j)
  {
    assert AdvancesAt(r, k);
    assert MeetOk(r.st[k].calls, r.st[k + 1].calls, Meets(r.st[k], r.acts[k]));
  }

  /** From the step that delivers j on, j is delivered. */
  lemma DeliveredFrom(r: Trace, k: nat, n: nat, j: nat)
    requires k < n <= |r.acts| && Delivers(r, k, j)
    ensures Delivered(r.st[n], j)
  {
    JustDelivered(r, k, j);
    SettledStays(r, k + 1, n, j);
  }

  /** A send delivered before step k has an earlier receive than the one delivered by step k. */
  lemma EarlierServed(r: Trace, k: nat, i: nat, j: nat)
    requires k < |r.acts| && Delivered(r.st[k], i) && Delivers(r, k, j)
    ensures Delivered(r.st[|r.acts|], i) && Delivered(r.st[|r.acts|], j)
    ensures Mate(r.st[|r.acts|], i) < Mate(r.st[|r.acts|], j)
  {
    var t, m, l := r.st[|r.acts|], r.log[k], r.log[|r.acts|];
    LogRun(r, k);
    LogRun(r, |r.acts|);
    LogPrefix(r, k + 1, |r.acts|);
    assert AdvancesAt(r, k);
    var a := LogIndex(r.st[k], m, i);
    assert l[a] == m[a] && l[|m|] == Meets(r.st[k], r.acts[k])[0];
    assert EntryOk(t.calls, l[a]) && EntryOk(t.calls, l[|m|]);
    RisingAt(Receivers(l) + t.recvs, a, |m|);
  }

  lemma NotYetDelivered(r: Trace, k: nat, i: nat)
    requires k < |r.acts| && i in OnWay(r.st[k])
    ensures !Delivered(r.st[k], i)
  {
    assert AdvancesAt(r, k);
    assert WayIs(r.st[k], i);
  }

  /** A send that is passed is delivered by a later step. */
  lemma PassedStep(r: Trace, k: nat, i: nat, j: nat) returns (l: nat)
    requires i != j && k < |r.acts| && Passes(r, k, i, j) && Delivered(r.st[|r.acts|], i)
    ensures k < l < |r.acts| && Delivers(r, l, i)
  {
    l := DeliveryStep(r, |r.acts|, i);
    NotYetDelivered(r, k, i);
    if l < k { DeliveredFrom(r, l, k, i); }
  }

  lemma PassedIsLater(r: Trace, k: nat, i: nat, j: nat)
    requires i != j && k < |r.acts| && Passes(r, k, i, j) && Delivered(r.st[|r.acts|], i)
    ensures Delivered(r.st[|r.acts|], j) && Mate(r.st[|r.acts|], i) > Mate(r.st[|r.acts|], j)
  {
    var l := PassedStep(r, k, i, j);
    DeliveredFrom(r, k, l, j);
    EarlierServed(r, l, j, i);
  }

  lemma TraceInverted(r: Trace, i: nat, j: nat)
    requires i < j && Delivered(r.st[|r.acts|], i) && Delivered(r.st[|r.acts|], j)
    ensures Mate(r.st[|r.acts|], i) > Mate(r.st[|r.acts|], j)
            <==> exists k: nat :: k < |r.acts| && Passes(r, k, i, j)
  {
    if k: nat :| k < |r.acts| && Passes(r, k, i, j) {
      PassedIsLater(r, k, i, j);
    } else {
      var k := DeliveryStep(r, |r.acts|, j);
      if Delivered(r.st[k], i) {
        EarlierServed(r, k, i, j);
      } else {
        StillOnWay(r, k, i);
        assert Passes(r, k, i, j);
      }
    }
  }

  /**
  Two values are received in the wrong order if and only if some step delivered the later one while
  the earlier one was still on its way.
  */
  lemma {:induction false} InvertedIff(capacity: nat, mode: Mode, acts: seq<Act>, i: nat, j: nat)
    requires i < j
    ensures var r := History(capacity, mode, acts);
            var s := r.st[|acts|];
            Delivered(s, i) && Delivered(s, j) ==>
              (Mate(s, i) > Mate(s, j) <==> exists k: nat :: k < |acts| && Passes(r, k, i, j))
  {
    var r := History(capacity, mode, acts);
    if Delivered(r.st[|acts|], i) && Delivered(r.st[|acts|], j) { TraceInverted(r, i, j); }
  }

  function Kept(v: Value): Call { Call(true, v, 0, Buffered, 1, 0) }

  function Held(v: Value): Call { Call(true, v, 0, Waiting, 0, 0) }

  function Scene(buffer: seq<nat>, sends: seq<nat>, handles: map<nat, int>, outs: map<nat, Value>,
                 calls: seq<Call>): State
  {
    State(1, BLOCK, 4, true, false, buffer, sends, [], handles, outs, calls)
  }

  /** Two values sent. */
  function TwoSent(x: Value, y: Value): State {
    Scene([0], [1], map[0 := 0], map[], [Kept(x), Held(y)])
  }

  /** The first received. */
  function OneReceived(x: Value, y: Value): State {
    Scene([], [1], map[0 := 0, 2 := 0], map[2 := x],
          [Call(true, x, 0, Met(2), 1, 0), Held(y), Call(false, x, 0, Met(0), 1, 0)])
  }

  /** A third value sent. */
  function ThirdSent(x: Value, y: Value, z: Value): State {
    Scene([3], [1], map[0 := 0, 2 := 0, 3 := 0], map[2 := x],
          [Call(true, x, 0, Met(2), 1, 0), Held(y), Call(false, x, 0, Met(0), 1, 0), Kept(z)])
  }

  lemma SendTwo(x: Value, y: Value)
    ensures Run(1, BLOCK, [Send(x, 4, false, false), Send(y, 4, false, false)]) == TwoSent(x, y)
  {
    var a, b := Send(x, 4, false, false), Send(y, 4, false, false);
    var s := Scene([0], [], map[0 := 0], map[], [Kept(x)]);
    assert [a, b][..1] == [a] && [a][..0] == [];
    assert Run(1, BLOCK, [a]) == Step(Init(1, BLOCK), a) == s;
    assert Step(s, b) == TwoSent(x, y);
  }

  lemma ReceiveAndSend(x: Value, y: Value, z: Value)
    ensures Step(TwoSent(x, y), Recv(4, false)) == OneReceived(x, y)
    ensures Step(OneReceived(x, y), Send(z, 4, false, false)) == ThirdSent(x, y, z)
  {
  }

  /** The third received. */
  function ThirdReceived(x: Value, y: Value, z: Value): State {
    Scene([], [1], map[0 := 0, 2 := 0, 3 := 0, 4 := 0], map[2 := x, 4 := z],
          [Call(true, x, 0, Met(2), 1, 0), Held(y), Call(false, x, 0, Met(0), 1, 0),
           Call(true, z, 0, Met(4), 1, 0), Call(false, z, 0, Met(3), 1, 0)])
  }

  lemma ReceiveThird(x: Value, y: Value, z: Value)
    ensures Step(ThirdSent(x, y, z), Recv(4, false)) == ThirdReceived(x, y, z)
    ensures var s := Step(ThirdReceived(x, y, z), Recv(4, false));
            && Delivered(s, 1) && s.calls[1].value == y && Delivered(s, 3) && s.calls[3].value == z
            && Mate(s, 3) < Mate(s, 1)
  {
  }

  lemma Then(acts: seq<Act>, a: Act)
    ensures Run(1, BLOCK, acts + [a]) == Step(Run(1, BLOCK, acts), a)
  {
    assert (acts + [a])[..|acts|] == acts;
  }

  /** It happens with capacity 1: the third value sent is received before the second. */
  lemma OvertakeHappens(x: Value, y: Value, z: Value)
    ensures var s := Run(1, BLOCK, [Send(x, 4, false, false), Send(y, 4, false, false)] + [Recv(4, false)]
                                   + [Send(z, 4, false, false)] + [Recv(4, false)] + [Recv(4, false)]);
            && Delivered(s, 1) && s.calls[1].value == y && Delivered(s, 3) && s.calls[3].value == z
            && Mate(s, 3) < Mate(s, 1)
  {
    var sent := [Send(x, 4, false, false), Send(y, 4, false, false)];
    var r, a := Recv(4, false), Send(z, 4, false, false);
    SendTwo(x, y);
    ReceiveAndSend(x, y, z);
    ReceiveThird(x, y, z);
    Then(sent, r);
    Then(sent + [r], a);
    Then(sent + [r] + [a], r);
    Then(sent + [r] + [a] + [r], r);
  }
}
