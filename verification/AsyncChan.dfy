/**
The asynchronous channel: a circular buffer plus two arrays of pending operations.  Every call is one
section under the channel's mutex.  Calls are numbered in the order they take the mutex; the history of
a call records what became of it, how often its completion handle was signalled and with which error.
*/
module AsyncChan {
  import opened Circular
  import opened Distinctness

  const EINVAL := 22
  const EAGAIN := 11
  const ENOMEM := 12
  const EPIPE := 32

  type Value = int

  datatype Mode = BLOCK | DROP_NEW | DROP_OLD

  datatype Fate =
    | Rejected          // the call returned an error
    | Waiting           // pending
    | Buffered          // a sent value in the buffer
    | Met(mate: nat)    // a send and a receive that exchanged a value
    | Dropped           // a buffered value overwritten in DROP_OLD mode
    | Refused           // completed by close
    | Lost              // completed although its value went nowhere

  datatype Call = Call(send: bool, value: Value, rc: int, fate: Fate, done: nat, err: int)

  /**
  `buffer`, `sends` and `recvs` name calls; the first two name sends.  `handles` is what was sent to the
  completion handles and `outs` what was copied to the receivers' buffers.
  */
  datatype State = State(cap: nat, mode: Mode, elem: nat, alloc: bool, closed: bool,
                         buffer: seq<nat>, sends: seq<nat>, recvs: seq<nat>,
                         handles: map<nat, int>, outs: map<nat, Value>, calls: seq<Call>)

  datatype Act =
    | Send(v: Value, size: nat, noBuf: bool, noMem: bool)
    | Recv(size: nat, noMem: bool)
    | Close

  function Init(capacity: nat, mode: Mode): State {
    State(if capacity == 0 then 64 else capacity, mode, 0, false, false, [], [], [], map[], map[], [])
  }

  function ValueOf(calls: seq<Call>, i: nat): Value {
    if i < |calls| then calls[i].value else 0
  }

  /** Signal the completion handle of call i. */
  function Complete(calls: seq<Call>, i: nat, err: int): (r: seq<Call>)
    ensures |r| == |calls|
  {
    if i < |calls| then calls[i := calls[i].(done := calls[i].done + 1, err := err)] else calls
  }

  /** Hand the value of send a to receive b. */
  function Meet(calls: seq<Call>, a: nat, b: nat): (r: seq<Call>)
    ensures |r| == |calls|
  {
    if a < |calls| && b < |calls| then
      calls[a := calls[a].(fate := Met(b))][b := calls[b].(fate := Met(a), value := calls[a].value)]
    else calls
  }

  function Mark(calls: seq<Call>, i: nat, f: Fate): (r: seq<Call>)
    ensures |r| == |calls|
  {
    if i < |calls| then calls[i := calls[i].(fate := f)] else calls
  }

  function Reject(s: State, send: bool, v: Value, rc: int): State {
    s.(calls := s.calls + [Call(send, v, rc, Rejected, 0, 0)])
  }

  function New(s: State, send: bool, v: Value): State {
    s.(calls := s.calls + [Call(send, v, 0, Waiting, 0, 0)])
  }

  function PendSend(s: State, i: nat): State {
    s.(sends := s.sends + [i])
  }

  function PendRecv(s: State, i: nat): State {
    s.(recvs := s.recvs + [i])
  }

  function SendMatched(s: State, i: nat): State
    requires s.sends != [] && s.recvs != []
  {
    var a, b := s.sends[0], s.recvs[0];
    s.(sends := s.sends[1..], recvs := s.recvs[1..],
       handles := s.handles[b := 0][a := 0][i := 0], outs := s.outs[b := ValueOf(s.calls, a)],
       calls := Complete(Mark(Complete(Complete(Meet(s.calls, a, b), b, 0), a, 0), i, Lost), i, 0))
  }

  function SendToRecv(s: State, i: nat): State
    requires s.recvs != []
  {
    var b := s.recvs[0];
    s.(recvs := s.recvs[1..], handles := s.handles[b := 0][i := 0], outs := s.outs[b := ValueOf(s.calls, i)],
       calls := Complete(Complete(Meet(s.calls, i, b), b, 0), i, 0))
  }

  function SendToBuffer(s: State, i: nat): State {
    s.(buffer := s.buffer + [i], handles := s.handles[i := 0], calls := Complete(Mark(s.calls, i, Buffered), i, 0))
  }

  function DropOldest(s: State): State
    requires s.buffer != []
  {
    s.(buffer := s.buffer[1..], calls := Mark(s.calls, s.buffer[0], Dropped))
  }

  /** The part of a send behind its checks. */
  function SendGo(s: State, v: Value, noMem: bool): (r: State)
    ensures r.mode == s.mode
  {
    var t, i := New(s, true, v), |s.calls|;
    if t.sends != [] && t.recvs != [] then SendMatched(t, i)
    else if t.recvs != [] then SendToRecv(t, i)
    else if |t.buffer| < t.cap then SendToBuffer(t, i)
    else if t.mode == DROP_OLD && t.buffer != [] then SendToBuffer(DropOldest(t), i)
    else if t.mode == BLOCK && !noMem then PendSend(t, i)
    else Reject(s, true, v, if s.mode == BLOCK then ENOMEM else EAGAIN)
  }

  predicate BadSize(s: State, size: nat) {
    size == 0 || (s.elem != 0 && s.elem != size)
  }

  function SendStep(s: State, v: Value, size: nat, noBuf: bool, noMem: bool): State {
    if BadSize(s, size) then Reject(s, true, v, EINVAL)
    else if !s.alloc && noBuf then Reject(s.(elem := size), true, v, ENOMEM)
    else SendGo(s.(elem := size, alloc := true), v, noMem)
  }

  function SendGoRc(s: State, noMem: bool): int {
    if s.recvs != [] || |s.buffer| < s.cap || s.mode == DROP_OLD then 0
    else if s.mode == DROP_NEW then EAGAIN
    else if noMem then ENOMEM else 0
  }

  /** The code a send returns. */
  function SendRc(s: State, size: nat, noBuf: bool, noMem: bool): int {
    if BadSize(s, size) then EINVAL else if !s.alloc && noBuf then ENOMEM else SendGoRc(s, noMem)
  }

  function RecvGoRc(s: State, noMem: bool): int {
    if s.buffer == [] && s.sends == [] && noMem then ENOMEM else 0
  }

  /** The code a receive returns. */
  function RecvRc(s: State, size: nat, noMem: bool): int {
    if BadSize(s, size) then EINVAL else RecvGoRc(s, noMem)
  }

  function RecvFromBuffer(s: State, i: nat): State
    requires s.buffer != []
  {
    s.(buffer := s.buffer[1..], handles := s.handles[i := 0], outs := s.outs[i := ValueOf(s.calls, s.buffer[0])],
       calls := Complete(Meet(s.calls, s.buffer[0], i), i, 0))
  }

  function RecvFromSend(s: State, i: nat): State
    requires s.sends != []
  {
    var a := s.sends[0];
    s.(sends := s.sends[1..], handles := s.handles[a := 0][i := 0], outs := s.outs[i := ValueOf(s.calls, a)],
       calls := Complete(Complete(Meet(s.calls, a, i), a, 0), i, 0))
  }

  function RecvGo(s: State, noMem: bool): (r: State)
    ensures r.mode == s.mode
  {
    var t, i := New(s, false, 0), |s.calls|;
    if t.buffer != [] then RecvFromBuffer(t, i)
    else if t.sends != [] then RecvFromSend(t, i)
    else if noMem then Reject(s, false, 0, ENOMEM)
    else PendRecv(t, i)
  }

  function RecvStep(s: State, size: nat, noMem: bool): State {
    if BadSize(s, size) then Reject(s, false, 0, EINVAL) else RecvGo(s.(elem := size), noMem)
  }

  function RefuseAll(calls: seq<Call>, q: seq<nat>): (r: seq<Call>)
    ensures |r| == |calls|
  {
    seq(|calls|, i requires 0 <= i < |calls| =>
      if i in q then calls[i].(fate := Refused, done := calls[i].done + 1, err := EPIPE) else calls[i])
  }

  function CloseStep(s: State): State {
    s.(closed := true, sends := [], recvs := [],
       handles := s.handles + (map x | x in s.sends + s.recvs :: EPIPE),
       calls := RefuseAll(RefuseAll(s.calls, s.sends), s.recvs))
  }

  function Step(s: State, a: Act): State {
    match a
    case Send(v, size, noBuf, noMem) => SendStep(s, v, size, noBuf, noMem)
    case Recv(size, noMem) => RecvStep(s, size, noMem)
    case Close => CloseStep(s)
  }

  function Run(capacity: nat, mode: Mode, acts: seq<Act>): State {
    if acts == [] then Init(capacity, mode)
    else Step(Run(capacity, mode, acts[..|acts| - 1]), acts[|acts| - 1])
  }

  // ---- The invariant ----

  ghost predicate Is(calls: seq<Call>, i: nat, send: bool, f: Fate) {
    i < |calls| && calls[i].send == send && calls[i].fate == f
  }

  /** The list q holds, once each, the calls of one side with one fate. */
  ghost predicate ListOk(calls: seq<Call>, q: seq<nat>, send: bool, f: Fate) {
    Distinct(q) && forall i: nat :: i in q <==> Is(calls, i, send, f)
  }

  ghost predicate MetOk(calls: seq<Call>, i: nat)
    requires i < |calls| && calls[i].fate.Met?
  {
    var m := calls[i].fate.mate;
    m < |calls| && calls[m].fate == Met(i) && calls[m].send != calls[i].send && calls[m].value == calls[i].value
  }

  /** What a call's fate says about its completion. */
  ghost predicate CallOk(calls: seq<Call>, i: nat)
    requires i < |calls|
  {
    var c := calls[i];
    match c.fate
    case Rejected => c.rc != 0 && c.done == 0
    case Waiting => c.rc == 0 && c.done == 0
    case Buffered => c.send && c.rc == 0 && c.done == 1 && c.err == 0
    case Dropped => c.send && c.rc == 0 && c.done == 1 && c.err == 0
    case Refused => c.rc == 0 && c.done == 1 && c.err == EPIPE
    case Met(_) => c.rc == 0 && c.done == 1 && c.err == 0 && MetOk(calls, i)
    case Lost => false
  }

  ghost predicate CallsOk(calls: seq<Call>) {
    forall i: nat | i < |calls| :: CallOk(calls, i)
  }

  ghost predicate Lists(s: State) {
    && ListOk(s.calls, s.buffer, true, Buffered)
    && ListOk(s.calls, s.sends, true, Waiting)
    && ListOk(s.calls, s.recvs, false, Waiting)
  }

  ghost predicate Sides(s: State) {
    && s.cap > 0 && |s.buffer| <= s.cap
    && (s.recvs != [] ==> s.buffer == [] && s.sends == [])
    && (s.sends != [] ==> s.mode == BLOCK)
  }

  /** What the caller of call i can see agrees with its history. */
  ghost predicate SeenOk(handles: map<nat, int>, outs: map<nat, Value>, calls: seq<Call>, i: nat)
    requires i < |calls|
  {
    var c := calls[i];
    && (i in handles <==> c.done > 0) && (i in handles ==> handles[i] == c.err)
    && (!c.send && c.fate.Met? ==> i in outs && outs[i] == c.value)
  }

  ghost predicate Seen(s: State) {
    && (forall i: nat | i < |s.calls| :: SeenOk(s.handles, s.outs, s.calls, i))
    && (forall i | i in s.handles :: i < |s.calls|)
  }

  ghost predicate Inv(s: State) {
    Lists(s) && CallsOk(s.calls) && Sides(s) && Seen(s)
  }

  lemma HeadIn(q: seq<nat>)
    requires Distinct(q) && q != []
    ensures q[0] in q && Distinct(q[1..])
    ensures forall x: nat :: x in q[1..] <==> x in q && x != q[0]
  {
    DistinctTail(q);
    assert q == [q[0]] + q[1..];
  }

  /** A list whose members and fate are untouched stays right. */
  lemma KeepList(calls: seq<Call>, calls': seq<Call>, q: seq<nat>, send: bool, f: Fate)
    requires ListOk(calls, q, send, f)
    requires forall i: nat :: Is(calls, i, send, f) <==> Is(calls', i, send, f)
    ensures ListOk(calls', q, send, f)
  {
    forall i: nat ensures i in q <==> Is(calls', i, send, f) {
      assert Is(calls, i, send, f) <==> Is(calls', i, send, f);
    }
  }

  /** The head of a list changes its fate and leaves. */
  lemma PopList(calls: seq<Call>, calls': seq<Call>, q: seq<nat>, send: bool, f: Fate)
    requires ListOk(calls, q, send, f) && q != []
    requires forall i: nat :: Is(calls', i, send, f) <==> Is(calls, i, send, f) && i != q[0]
    ensures ListOk(calls', q[1..], send, f)
  {
    HeadIn(q);
    forall i: nat ensures i in q[1..] <==> Is(calls', i, send, f) {
      assert i in q <==> Is(calls, i, send, f);
    }
  }

  /** A new call joins a list at the end. */
  lemma PushList(calls: seq<Call>, calls': seq<Call>, q: seq<nat>, send: bool, f: Fate, x: nat)
    requires ListOk(calls, q, send, f) && !Is(calls, x, send, f)
    requires forall i: nat :: Is(calls', i, send, f) <==> Is(calls, i, send, f) || i == x
    ensures ListOk(calls', q + [x], send, f)
  {
    assert x !in q;
    DistinctAppend(q, x);
    forall i: nat ensures i in q + [x] <==> Is(calls', i, send, f) {
      assert i in q <==> Is(calls, i, send, f);
    }
  }

  // ---- Steps ----

  lemma RejectInv(s: State, send: bool, v: Value, rc: int)
    requires Inv(s) && rc != 0
    ensures Inv(Reject(s, send, v, rc))
  {
    var t := Reject(s, send, v, rc);
    forall x: nat, b, f | f != Rejected ensures Is(s.calls, x, b, f) <==> Is(t.calls, x, b, f) { }
    KeepList(s.calls, t.calls, s.buffer, true, Buffered);
    KeepList(s.calls, t.calls, s.sends, true, Waiting);
    KeepList(s.calls, t.calls, s.recvs, false, Waiting);
    forall x: nat | x < |t.calls| ensures CallOk(t.calls, x) { assert x < |s.calls| ==> CallOk(s.calls, x); }
    forall x: nat | x < |t.calls| ensures SeenOk(t.handles, t.outs, t.calls, x) {
      assert x < |s.calls| ==> SeenOk(s.handles, s.outs, s.calls, x);
    }
  }

  lemma SendToRecvInv(s: State, v: Value)
    requires Inv(s) && s.recvs != []
    ensures Inv(SendToRecv(New(s, true, v), |s.calls|))
  {
    var i, b := |s.calls|, s.recvs[0];
    var t := SendToRecv(New(s, true, v), i);
    HeadIn(s.recvs);
    assert Is(s.calls, b, false, Waiting) && CallOk(s.calls, b);
    assert t.calls[b] == s.calls[b].(fate := Met(i), value := v, done := 1, err := 0);
    assert t.calls[i] == Call(true, v, 0, Met(b), 1, 0);
    assert forall x: nat | x < i && x != b :: t.calls[x] == s.calls[x];
    KeepList(s.calls, t.calls, s.buffer, true, Buffered);
    KeepList(s.calls, t.calls, s.sends, true, Waiting);
    PopList(s.calls, t.calls, s.recvs, false, Waiting);
    forall x: nat | x < |t.calls| ensures CallOk(t.calls, x) { assert x < i ==> CallOk(s.calls, x); }
    forall x: nat | x < |t.calls| ensures SeenOk(t.handles, t.outs, t.calls, x) {
      assert x < i ==> SeenOk(s.handles, s.outs, s.calls, x);
    }
  }

  lemma SendToBufferInv(s: State, v: Value)
    requires Inv(s) && s.recvs == [] && |s.buffer| < s.cap
    ensures Inv(SendToBuffer(New(s, true, v), |s.calls|))
  {
    var i := |s.calls|;
    var t := SendToBuffer(New(s, true, v), i);
    assert t.calls[i] == Call(true, v, 0, Buffered, 1, 0);
    assert forall x: nat | x < i :: t.calls[x] == s.calls[x];
    PushList(s.calls, t.calls, s.buffer, true, Buffered, i);
    KeepList(s.calls, t.calls, s.sends, true, Waiting);
    KeepList(s.calls, t.calls, s.recvs, false, Waiting);
    forall x: nat | x < |t.calls| ensures CallOk(t.calls, x) { assert x < i ==> CallOk(s.calls, x); }
    forall x: nat | x < |t.calls| ensures SeenOk(t.handles, t.outs, t.calls, x) {
      assert x < i ==> SeenOk(s.handles, s.outs, s.calls, x);
    }
  }

  lemma DropOldestInv(s: State)
    requires Inv(s) && s.buffer != []
    ensures Inv(DropOldest(s))
  {
    var t, b := DropOldest(s), s.buffer[0];
    HeadIn(s.buffer);
    assert Is(s.calls, b, true, Buffered) && CallOk(s.calls, b);
    PopList(s.calls, t.calls, s.buffer, true, Buffered);
    KeepList(s.calls, t.calls, s.sends, true, Waiting);
    KeepList(s.calls, t.calls, s.recvs, false, Waiting);
    forall x: nat | x < |t.calls| ensures CallOk(t.calls, x) { assert CallOk(s.calls, x); }
    forall x: nat | x < |t.calls| ensures SeenOk(t.handles, t.outs, t.calls, x) {
      assert SeenOk(s.handles, s.outs, s.calls, x);
    }
  }

  lemma PendSendInv(s: State, v: Value)
    requires Inv(s) && s.recvs == [] && s.mode == BLOCK
    ensures Inv(PendSend(New(s, true, v), |s.calls|))
  {
    var i, t := |s.calls|, New(s, true, v);
    KeepList(s.calls, t.calls, s.buffer, true, Buffered);
    PushList(s.calls, t.calls, s.sends, true, Waiting, i);
    KeepList(s.calls, t.calls, s.recvs, false, Waiting);
    forall x: nat | x < |t.calls| ensures CallOk(t.calls, x) { assert x < i ==> CallOk(s.calls, x); }
    forall x: nat | x < |t.calls| ensures SeenOk(t.handles, t.outs, t.calls, x) {
      assert x < i ==> SeenOk(s.handles, s.outs, s.calls, x);
    }
  }

  lemma SendGoInv(s: State, v: Value, noMem: bool)
    requires Inv(s)
    ensures Inv(SendGo(s, v, noMem))
  {
    if s.recvs != [] {
      SendToRecvInv(s, v);
    } else if |s.buffer| < s.cap {
      SendToBufferInv(s, v);
    } else if s.mode == DROP_OLD {
      DropOldestInv(s);
      SendToBufferInv(DropOldest(s), v);
      assert New(DropOldest(s), true, v) == DropOldest(New(s, true, v)) by {
        HeadIn(s.buffer);
        assert Is(s.calls, s.buffer[0], true, Buffered);
      }
    } else if s.mode == BLOCK && !noMem {
      PendSendInv(s, v);
    } else {
      RejectInv(s, true, v, if s.mode == BLOCK then ENOMEM else EAGAIN);
    }
  }

  lemma SendInv(s: State, v: Value, size: nat, noBuf: bool, noMem: bool)
    requires Inv(s)
    ensures Inv(SendStep(s, v, size, noBuf, noMem))
  {
    if BadSize(s, size) {
      RejectInv(s, true, v, EINVAL);
    } else if !s.alloc && noBuf {
      RejectInv(s.(elem := size), true, v, ENOMEM);
    } else {
      SendGoInv(s.(elem := size, alloc := true), v, noMem);
    }
  }

  lemma RecvFromBufferInv(s: State)
    requires Inv(s) && s.buffer != []
    ensures Inv(RecvFromBuffer(New(s, false, 0), |s.calls|))
  {
    var i, a := |s.calls|, s.buffer[0];
    var t := RecvFromBuffer(New(s, false, 0), i);
    HeadIn(s.buffer);
    assert Is(s.calls, a, true, Buffered) && CallOk(s.calls, a);
    assert t.calls[a] == s.calls[a].(fate := Met(i));
    assert t.calls[i] == Call(false, s.calls[a].value, 0, Met(a), 1, 0);
    assert forall x: nat | x < i && x != a :: t.calls[x] == s.calls[x];
    PopList(s.calls, t.calls, s.buffer, true, Buffered);
    KeepList(s.calls, t.calls, s.sends, true, Waiting);
    KeepList(s.calls, t.calls, s.recvs, false, Waiting);
    forall x: nat | x < |t.calls| ensures CallOk(t.calls, x) { assert x < i ==> CallOk(s.calls, x); }
    forall x: nat | x < |t.calls| ensures SeenOk(t.handles, t.outs, t.calls, x) {
      assert x < i ==> SeenOk(s.handles, s.outs, s.calls, x);
    }
  }

  lemma RecvFromSendInv(s: State)
    requires Inv(s) && s.sends != []
    ensures Inv(RecvFromSend(New(s, false, 0), |s.calls|))
  {
    var i, a := |s.calls|, s.sends[0];
    var t := RecvFromSend(New(s, false, 0), i);
    HeadIn(s.sends);
    assert Is(s.calls, a, true, Waiting) && CallOk(s.calls, a);
    assert t.calls[a] == s.calls[a].(fate := Met(i), done := 1, err := 0);
    assert t.calls[i] == Call(false, s.calls[a].value, 0, Met(a), 1, 0);
    assert forall x: nat | x < i && x != a :: t.calls[x] == s.calls[x];
    KeepList(s.calls, t.calls, s.buffer, true, Buffered);
    PopList(s.calls, t.calls, s.sends, true, Waiting);
    KeepList(s.calls, t.calls, s.recvs, false, Waiting);
    forall x: nat | x < |t.calls| ensures CallOk(t.calls, x) { assert x < i ==> CallOk(s.calls, x); }
    forall x: nat | x < |t.calls| ensures SeenOk(t.handles, t.outs, t.calls, x) {
      assert x < i ==> SeenOk(s.handles, s.outs, s.calls, x);
    }
  }

  lemma PendRecvInv(s: State)
    requires Inv(s) && s.buffer == [] && s.sends == []
    ensures Inv(PendRecv(New(s, false, 0), |s.calls|))
  {
    var i, t := |s.calls|, New(s, false, 0);
    KeepList(s.calls, t.calls, s.buffer, true, Buffered);
    KeepList(s.calls, t.calls, s.sends, true, Waiting);
    PushList(s.calls, t.calls, s.recvs, false, Waiting, i);
    forall x: nat | x < |t.calls| ensures CallOk(t.calls, x) { assert x < i ==> CallOk(s.calls, x); }
    forall x: nat | x < |t.calls| ensures SeenOk(t.handles, t.outs, t.calls, x) {
      assert x < i ==> SeenOk(s.handles, s.outs, s.calls, x);
    }
  }

  lemma RecvInv(s: State, size: nat, noMem: bool)
    requires Inv(s)
    ensures Inv(RecvStep(s, size, noMem))
  {
    var u := s.(elem := size);
    if BadSize(s, size) {
      RejectInv(s, false, 0, EINVAL);
    } else if s.buffer != [] {
      RecvFromBufferInv(u);
    } else if s.sends != [] {
      RecvFromSendInv(u);
    } else if noMem {
      RejectInv(u, false, 0, ENOMEM);
    } else {
      PendRecvInv(u);
    }
  }

  lemma CloseInv(s: State)
    requires Inv(s)
    ensures Inv(CloseStep(s))
  {
    var t := CloseStep(s);
    forall x: nat ensures !Is(t.calls, x, true, Waiting) && !Is(t.calls, x, false, Waiting) {
      assert x in s.sends <==> Is(s.calls, x, true, Waiting);
      assert x in s.recvs <==> Is(s.calls, x, false, Waiting);
    }
    forall x: nat | x < |t.calls| ensures CallOk(t.calls, x) {
      assert CallOk(s.calls, x);
      assert x in s.sends <==> Is(s.calls, x, true, Waiting);
      assert x in s.recvs <==> Is(s.calls, x, false, Waiting);
    }
    forall x: nat | x < |t.calls| ensures SeenOk(t.handles, t.outs, t.calls, x) {
      assert SeenOk(s.handles, s.outs, s.calls, x) && CallOk(s.calls, x);
      assert x in s.sends <==> Is(s.calls, x, true, Waiting);
      assert x in s.recvs <==> Is(s.calls, x, false, Waiting);
    }
    forall x | x in t.handles ensures x < |t.calls| {
      assert x in s.sends ==> Is(s.calls, x, true, Waiting);
      assert x in s.recvs ==> Is(s.calls, x, false, Waiting);
    }
    KeepList(s.calls, t.calls, s.buffer, true, Buffered);
  }

  lemma {:induction false} RunInv(capacity: nat, mode: Mode, acts: seq<Act>)
    ensures Inv(Run(capacity, mode, acts))
  {
    if acts != [] {
      var k := |acts| - 1;
      var s := Run(capacity, mode, acts[..k]);
      RunInv(capacity, mode, acts[..k]);
      match acts[k]
      case Send(v, size, noBuf, noMem) => SendInv(s, v, size, noBuf, noMem);
      case Recv(size, noMem) => RecvInv(s, size, noMem);
      case Close => CloseInv(s);
    }
  }

  // ---- What every run guarantees ----

  /** A pending receive means an empty buffer and no pending send: the match of two pending calls never happens. */
  lemma {:induction false} NeverBothPending(capacity: nat, mode: Mode, acts: seq<Act>)
    ensures var s := Run(capacity, mode, acts); s.recvs != [] ==> s.buffer == [] && s.sends == []
  {
    RunInv(capacity, mode, acts);
  }

  /**
  Every call is signalled at most once.  An accepted call is pending in exactly one list or has been
  signalled, never both; a rejected call is neither.
  */
  lemma {:induction false} CompletesOnce(capacity: nat, mode: Mode, acts: seq<Act>, i: nat)
    requires i < |Run(capacity, mode, acts).calls|
    ensures var s := Run(capacity, mode, acts);
            var c := s.calls[i];
            var pending := i in (if c.send then s.sends else s.recvs);
            && c.done <= 1
            && (c.rc == 0 <==> pending || c.done == 1)
            && !(pending && c.done == 1)
  {
    RunInv(capacity, mode, acts);
    var s := Run(capacity, mode, acts);
    assert CallOk(s.calls, i);
    assert i in s.sends <==> Is(s.calls, i, true, Waiting);
    assert i in s.recvs <==> Is(s.calls, i, false, Waiting);
  }

  /**
  Every accepted value is in exactly one place: the buffer, the pending sends, one receive, dropped
  by DROP_OLD, or refused by close.
  */
  lemma {:induction false} ValuesArePartitioned(capacity: nat, mode: Mode, acts: seq<Act>, i: nat)
    requires i < |Run(capacity, mode, acts).calls|
    requires Run(capacity, mode, acts).calls[i].send && Run(capacity, mode, acts).calls[i].rc == 0
    ensures var s := Run(capacity, mode, acts);
            var f := s.calls[i].fate;
            && (f == Buffered <==> i in s.buffer) && (f == Waiting <==> i in s.sends)
            && Distinct(s.buffer) && Distinct(s.sends)
            && (f.Buffered? || f.Waiting? || f.Dropped? || f.Refused? || f.Met?)
            && (f.Met? ==> f.mate < |s.calls| && !s.calls[f.mate].send && s.calls[f.mate].fate == Met(i)
                           && s.calls[f.mate].value == s.calls[i].value && s.calls[f.mate].done == 1)
            && (f.Dropped? ==> mode == DROP_OLD)
  {
    RunInv(capacity, mode, acts);
    var s := Run(capacity, mode, acts);
    assert CallOk(s.calls, i);
    if s.calls[i].fate.Met? { assert CallOk(s.calls, s.calls[i].fate.mate); }
    assert i in s.buffer <==> Is(s.calls, i, true, Buffered);
    assert i in s.sends <==> Is(s.calls, i, true, Waiting);
    if mode != DROP_OLD { NothingDropped(capacity, mode, acts, i); }
  }

  lemma SendDrops(s: State, v: Value, noMem: bool, i: nat)
    requires Sides(s) && s.mode != DROP_OLD
    requires i < |SendGo(s, v, noMem).calls| && SendGo(s, v, noMem).calls[i].fate == Dropped
    ensures i < |s.calls| && s.calls[i].fate == Dropped
  {
    var t, n := SendGo(s, v, noMem), |s.calls|;
    if s.recvs != [] {
      assert t == SendToRecv(New(s, true, v), n);
    } else if |s.buffer| < s.cap {
      assert t == SendToBuffer(New(s, true, v), n);
    }
  }

  lemma RecvDrops(s: State, noMem: bool, i: nat)
    requires i < |RecvGo(s, noMem).calls| && RecvGo(s, noMem).calls[i].fate == Dropped
    ensures i < |s.calls| && s.calls[i].fate == Dropped
  {
    var t, n := RecvGo(s, noMem), |s.calls|;
    if s.buffer != [] {
      assert t == RecvFromBuffer(New(s, false, 0), n);
    } else if s.sends != [] {
      assert t == RecvFromSend(New(s, false, 0), n);
    }
  }

  lemma {:induction false} ModeFixed(capacity: nat, mode: Mode, acts: seq<Act>)
    ensures Run(capacity, mode, acts).mode == mode
  {
    if acts != [] { ModeFixed(capacity, mode, acts[..|acts| - 1]); }
  }

  lemma {:induction false} NothingDropped(capacity: nat, mode: Mode, acts: seq<Act>, i: nat)
    requires mode != DROP_OLD && i < |Run(capacity, mode, acts).calls|
    ensures Run(capacity, mode, acts).calls[i].fate != Dropped
  {
    if acts != [] && Run(capacity, mode, acts).calls[i].fate == Dropped {
      var k := |acts| - 1;
      RunInv(capacity, mode, acts[..k]);
      ModeFixed(capacity, mode, acts[..k]);
      var s := Run(capacity, mode, acts[..k]);
      match acts[k] {
        case Send(v, size, noBuf, noMem) =>
          if !BadSize(s, size) && (s.alloc || !noBuf) { SendDrops(s.(elem := size, alloc := true), v, noMem, i); }
        case Recv(size, noMem) => if !BadSize(s, size) { RecvDrops(s.(elem := size), noMem, i); }
        case Close =>
      }
      NothingDropped(capacity, mode, acts[..k], i);
    }
  }

  lemma SendGoCode(s: State, v: Value, noMem: bool)
    requires Inv(s)
    ensures var t, i := SendGo(s, v, noMem), |s.calls|;
            |t.calls| == i + 1 && t.calls[i].send && t.calls[i].value == v && t.calls[i].rc == SendGoRc(s, noMem)
  {
    var t, i := SendGo(s, v, noMem), |s.calls|;
    if s.recvs != [] {
      assert Is(s.calls, s.recvs[0], false, Waiting) by { HeadIn(s.recvs); }
      assert t == SendToRecv(New(s, true, v), i);
    } else if |s.buffer| < s.cap {
      assert t == SendToBuffer(New(s, true, v), i);
    } else if s.mode == DROP_OLD {
      assert Is(s.calls, s.buffer[0], true, Buffered) by { HeadIn(s.buffer); }
      assert t == SendToBuffer(DropOldest(New(s, true, v)), i);
    }
  }

  /** A send adds one call to the history, with its value and the code it returns. */
  lemma SendCode(s: State, v: Value, size: nat, noBuf: bool, noMem: bool)
    requires Inv(s)
    ensures var t, i := SendStep(s, v, size, noBuf, noMem), |s.calls|;
            && |t.calls| == i + 1 && t.calls[i].send && t.calls[i].value == v
            && t.calls[i].rc == SendRc(s, size, noBuf, noMem)
  {
    if !BadSize(s, size) && (s.alloc || !noBuf) {
      var u := s.(elem := size, alloc := true);
      SendGoCode(u, v, noMem);
      assert SendStep(s, v, size, noBuf, noMem) == SendGo(u, v, noMem);
    }
  }

  lemma RecvGoCode(s: State, noMem: bool)
    requires Inv(s)
    ensures var t, i := RecvGo(s, noMem), |s.calls|;
            |t.calls| == i + 1 && !t.calls[i].send && t.calls[i].rc == RecvGoRc(s, noMem)
  {
    var t, i := RecvGo(s, noMem), |s.calls|;
    if s.buffer != [] {
      assert Is(s.calls, s.buffer[0], true, Buffered) by { HeadIn(s.buffer); }
      assert t == RecvFromBuffer(New(s, false, 0), i);
    } else if s.sends != [] {
      assert Is(s.calls, s.sends[0], true, Waiting) by { HeadIn(s.sends); }
      assert t == RecvFromSend(New(s, false, 0), i);
    }
  }

  /** A receive adds one call to the history, with the code it returns. */
  lemma RecvCode(s: State, size: nat, noMem: bool)
    requires Inv(s)
    ensures var t, i := RecvStep(s, size, noMem), |s.calls|;
            |t.calls| == i + 1 && !t.calls[i].send && t.calls[i].rc == RecvRc(s, size, noMem)
  {
    if !BadSize(s, size) {
      RecvGoCode(s.(elem := size), noMem);
      assert RecvStep(s, size, noMem) == RecvGo(s.(elem := size), noMem);
    }
  }

  /** Close completes every call that was still pending. */
  lemma {:induction false} CloseCompletesAll(capacity: nat, mode: Mode, acts: seq<Act>, i: nat)
    requires i < |Run(capacity, mode, acts + [Close]).calls|
    ensures var c := Run(capacity, mode, acts + [Close]).calls[i]; c.rc == 0 <==> c.done == 1
  {
    CompletesOnce(capacity, mode, acts + [Close], i);
    assert (acts + [Close])[..|acts|] == acts;
  }

  // ---- The channel as the source stores it ----

  ghost function Values(calls: seq<Call>, q: seq<nat>): (r: seq<Value>)
    ensures |r| == |q|
  {
    seq(|q|, k requires 0 <= k < |q| => ValueOf(calls, q[k]))
  }

  /** A pending send owns a copy of its value. */
  datatype Pending = Pending(op: nat, value: Value)

  ghost function Pendings(calls: seq<Call>, q: seq<nat>): (r: seq<Pending>)
    ensures |r| == |q|
  {
    seq(|q|, k requires 0 <= k < |q| => Pending(q[k], ValueOf(calls, q[k])))
  }

  lemma SameValues(calls: seq<Call>, calls': seq<Call>, q: seq<nat>)
    requires forall i | i in q :: ValueOf(calls', i) == ValueOf(calls, i)
    ensures Values(calls', q) == Values(calls, q) && Pendings(calls', q) == Pendings(calls, q)
  {
    forall k | 0 <= k < |q| ensures ValueOf(calls', q[k]) == ValueOf(calls, q[k]) { assert q[k] in q; }
  }

  /** What a receive from the first pending send leaves stored. */
  lemma PendingTail(s: State)
    requires Lists(s) && s.sends != []
    ensures var t := RecvFromSend(New(s, false, 0), |s.calls|);
            && Values(t.calls, t.buffer) == Values(s.calls, s.buffer)
            && Pendings(t.calls, t.sends) == Pendings(s.calls, s.sends)[1..]
            && t.handles == s.handles[s.sends[0] := 0][|s.calls| := 0]
            && t.outs == s.outs[|s.calls| := ValueOf(s.calls, s.sends[0])]
  {
    var t := RecvFromSend(New(s, false, 0), |s.calls|);
    assert Is(s.calls, s.sends[0], true, Waiting) by { HeadIn(s.sends); }
    SameValues(s.calls, t.calls, s.buffer);
    SameValues(s.calls, t.calls, s.sends);
  }

  lemma RefuseBoth(h: map<nat, int>, a: seq<nat>, b: seq<nat>)
    ensures h + (map x | x in a :: EPIPE) + (map x | x in b :: EPIPE) == h + (map x | x in a + b :: EPIPE)
  {
  }

  class Chan {
    const buffer: Buffer<Value>
    const mode: Mode
    var elem: nat
    var alloc: bool
    var closed: bool
    var next: nat                // number of the next call
    var sends: seq<Pending>
    var recvs: seq<nat>
    var outs: map<nat, Value>    // what was copied to the receivers' buffers
    var handles: map<nat, int>   // what was sent to the completion handles
    ghost var s: State

    /** The object stores the model state. */
    ghost predicate Stores()
      reads this, buffer, buffer.buf
    {
      && buffer.Valid() && buffer.buf.Length == s.cap && mode == s.mode
      && elem == s.elem && alloc == s.alloc && closed == s.closed && next == |s.calls|
      && buffer.contents == Values(s.calls, s.buffer)
      && sends == Pendings(s.calls, s.sends) && recvs == s.recvs
      && outs == s.outs && handles == s.handles
    }

    ghost predicate Valid()
      reads this, buffer, buffer.buf
    {
      Inv(s) && Stores()
    }

    constructor (capacity: nat, m: Mode)
      ensures Valid() && s == Init(capacity, m) && fresh(buffer) && fresh(buffer.buf)
    {
      buffer := new Buffer(if capacity == 0 then 64 else capacity, 0);
      mode := m;
      elem, alloc, closed, next := 0, false, false, 0;
      sends, recvs, outs, handles := [], [], map[], map[];
      s := Init(capacity, m);
      new;
      RunInv(capacity, m, []);
    }

    /** A call that fails leaves no trace but its number. */
    method Fail(send: bool, v: Value, rc: int)
      requires Lists(s) && Stores()
      modifies this`next, this`s
      ensures Stores() && s == Reject(old(s), send, v, rc)
    {
      ghost var t := Reject(s, send, v, rc);
      SameValues(s.calls, t.calls, s.buffer);
      SameValues(s.calls, t.calls, s.sends);
      next := next + 1;
      s := t;
    }

    /** Hand the value to the first pending receive. */
    method SendDirect(v: Value)
      requires Lists(s) && Stores() && recvs != []
      modifies this`next, this`s, this`recvs, this`outs, this`handles
      ensures Stores() && s == SendToRecv(New(old(s), true, v), |old(s).calls|)
    {
      ghost var t := SendToRecv(New(s, true, v), |s.calls|);
      assert Is(s.calls, recvs[0], false, Waiting) by { HeadIn(s.recvs); }
      SameValues(s.calls, t.calls, s.buffer);
      SameValues(s.calls, t.calls, s.sends);
      var op := recvs[0];
      recvs := recvs[1..];
      outs := outs[op := v];
      handles := handles[op := 0];
      handles := handles[next := 0];
      next := next + 1;
      s := t;
    }

    method SendBuffered(v: Value)
      requires Lists(s) && Stores() && buffer.count < buffer.buf.Length
      modifies this`next, this`s, this`handles
      modifies buffer`head, buffer`tail, buffer`count, buffer`contents, buffer.buf
      ensures Stores() && s == SendToBuffer(New(old(s), true, v), |old(s).calls|)
    {
      ghost var t := SendToBuffer(New(s, true, v), |s.calls|);
      SameValues(s.calls, t.calls, s.buffer);
      SameValues(s.calls, t.calls, s.sends);
      assert Values(t.calls, t.buffer) == Values(s.calls, s.buffer) + [v];
      buffer.Enqueue(v);
      handles := handles[next := 0];
      next := next + 1;
      s := t;
    }

    method DropHead()
      requires Lists(s) && Stores() && buffer.count > 0
      modifies this`s, buffer`head, buffer`count, buffer`contents
      ensures Stores() && s == DropOldest(old(s)) && buffer.count < buffer.buf.Length
    {
      ghost var t := DropOldest(s);
      SameValues(s.calls, t.calls, s.buffer);
      SameValues(s.calls, t.calls, s.sends);
      assert Values(t.calls, t.buffer) == Values(s.calls, s.buffer)[1..];
      var r := buffer.Dequeue();
      s := t;
    }

    method PushSend(v: Value)
      requires Lists(s) && Stores()
      modifies this`next, this`s, this`sends
      ensures Stores() && s == PendSend(New(old(s), true, v), |old(s).calls|)
    {
      ghost var t := PendSend(New(s, true, v), |s.calls|);
      SameValues(s.calls, t.calls, s.buffer);
      SameValues(s.calls, t.calls, s.sends);
      assert Pendings(t.calls, t.sends) == Pendings(s.calls, s.sends) + [Pending(next, v)];
      sends := sends + [Pending(next, v)];
      next := next + 1;
      s := t;
    }

    /** Take the oldest buffered value. */
    method RecvBuffered()
      requires Lists(s) && Stores() && buffer.count > 0
      modifies this`next, this`s, this`outs, this`handles, buffer`head, buffer`count, buffer`contents
      ensures Stores() && s == RecvFromBuffer(New(old(s), false, 0), |old(s).calls|)
    {
      ghost var t := RecvFromBuffer(New(s, false, 0), |s.calls|);
      assert Is(s.calls, s.buffer[0], true, Buffered) by { HeadIn(s.buffer); }
      SameValues(s.calls, t.calls, s.buffer);
      SameValues(s.calls, t.calls, s.sends);
      assert Values(t.calls, t.buffer) == Values(s.calls, s.buffer)[1..];
      var r := buffer.Dequeue();
      outs := outs[next := r.value];
      handles := handles[next := 0];
      next := next + 1;
      s := t;
    }

    /** Take the value of the first pending send. */
    method RecvPending()
      requires Lists(s) && Stores() && sends != []
      modifies this`next, this`s, this`sends, this`outs, this`handles
      ensures Stores() && s == RecvFromSend(New(old(s), false, 0), |old(s).calls|)
    {
      PendingTail(s);
      var p := sends[0];
      sends := sends[1..];
      outs := outs[next := p.value];
      handles := handles[p.op := 0];
      handles := handles[next := 0];
      next := next + 1;
      s := RecvFromSend(New(s, false, 0), |s.calls|);
    }

    method PushRecv()
      requires Lists(s) && Stores()
      modifies this`next, this`s, this`recvs
      ensures Stores() && s == PendRecv(New(old(s), false, 0), |old(s).calls|)
    {
      ghost var t := PendRecv(New(s, false, 0), |s.calls|);
      SameValues(s.calls, t.calls, s.buffer);
      SameValues(s.calls, t.calls, s.sends);
      recvs := recvs + [next];
      next := next + 1;
      s := t;
    }

    /** The first call fixes the element size; the first send allocates the buffer. */
    method Adopt(size: nat, hasBuf: bool)
      requires Stores()
      modifies this`elem, this`alloc, this`s
      ensures Stores() && elem == size && alloc == hasBuf && s == old(s).(elem := size, alloc := hasBuf)
    {
      elem, alloc := size, hasBuf;
      s := s.(elem := size, alloc := hasBuf);
    }

    /** Make room by dropping the oldest value. */
    method SendDropping(v: Value)
      requires Inv(s) && Stores() && buffer.count > 0
      modifies this`next, this`s, this`handles
      modifies buffer`head, buffer`tail, buffer`count, buffer`contents, buffer.buf
      ensures Stores() && s == SendToBuffer(DropOldest(New(old(s), true, v)), |old(s).calls|)
    {
      assert Is(s.calls, s.buffer[0], true, Buffered) by { HeadIn(s.buffer); }
      assert New(DropOldest(s), true, v) == DropOldest(New(s, true, v));
      DropOldestInv(s);
      DropHead();
      SendBuffered(v);
    }

    /** The part of a send behind its checks. */
    method SendReady(v: Value, noMem: bool) returns (rc: int)
      requires Inv(s) && Stores()
      modifies this`next, this`s, this`sends, this`recvs, this`outs, this`handles
      modifies buffer`head, buffer`tail, buffer`count, buffer`contents, buffer.buf
      ensures Stores() && s == SendGo(old(s), v, noMem) && rc == SendGoRc(old(s), noMem)
    {
      rc := 0;
      if |sends| > 0 && |recvs| > 0 {
        assert false;
      }
      if |recvs| > 0 {
        SendDirect(v);
      } else if buffer.count < buffer.buf.Length {
        SendBuffered(v);
      } else if mode == DROP_OLD {
        SendDropping(v);
      } else if mode == BLOCK && !noMem {
        PushSend(v);
      } else {
        rc := if mode == BLOCK then ENOMEM else EAGAIN;
        Fail(true, v, rc);
      }
    }

    /** Send a value. */
    method SendValue(v: Value, size: nat, noBuf: bool, noMem: bool) returns (rc: int)
      requires Valid()
      modifies this, buffer`head, buffer`tail, buffer`count, buffer`contents, buffer.buf
      ensures Valid() && s == SendStep(old(s), v, size, noBuf, noMem) && rc == SendRc(old(s), size, noBuf, noMem)
      ensures |s.calls| == |old(s).calls| + 1 && rc == s.calls[|old(s).calls|].rc
    {
      SendCode(s, v, size, noBuf, noMem);
      SendInv(s, v, size, noBuf, noMem);
      if size == 0 || (elem != 0 && elem != size) {
        Fail(true, v, EINVAL);
        return EINVAL;
      }
      Adopt(size, alloc || !noBuf);
      if !alloc {
        Fail(true, v, ENOMEM);
        return ENOMEM;
      }
      rc := SendReady(v, noMem);
    }

    /** The part of a receive behind its checks. */
    method RecvReady(noMem: bool) returns (rc: int)
      requires Inv(s) && Stores()
      modifies this`next, this`s, this`sends, this`recvs, this`outs, this`handles
      modifies buffer`head, buffer`count, buffer`contents
      ensures Stores() && s == RecvGo(old(s), noMem) && rc == RecvGoRc(old(s), noMem)
    {
      rc := 0;
      if buffer.count > 0 {
        RecvBuffered();
      } else if |sends| > 0 {
        RecvPending();
      } else if noMem {
        rc := ENOMEM;
        Fail(false, 0, rc);
      } else {
        PushRecv();
      }
    }

    /** Receive a value, now or later. */
    method RecvValue(size: nat, noMem: bool) returns (rc: int)
      requires Valid()
      modifies this, buffer`head, buffer`count, buffer`contents
      ensures Valid() && s == RecvStep(old(s), size, noMem) && rc == RecvRc(old(s), size, noMem)
      ensures |s.calls| == |old(s).calls| + 1 && rc == s.calls[|old(s).calls|].rc
    {
      RecvCode(s, size, noMem);
      RecvInv(s, size, noMem);
      if size == 0 || (elem != 0 && elem != size) {
        Fail(false, 0, EINVAL);
        return EINVAL;
      }
      Adopt(size, alloc);
      rc := RecvReady(noMem);
    }

    /** Complete every operation of a list with one error. */
    method CompleteAll(ops: seq<nat>, err: int)
      modifies this`handles
      ensures handles == old(handles) + (map x | x in ops :: err)
    {
      var i := 0;
      while i < |ops|
        invariant i <= |ops| && handles == old(handles) + (map x | x in ops[..i] :: err)
      {
        handles := handles[ops[i] := err];
        i := i + 1;
        assert ops[..i] == ops[..i - 1] + [ops[i - 1]];
      }
      assert ops[..i] == ops;
    }

    /** Complete and forget everything that is pending. */
    method Refuse()
      requires Stores()
      modifies this`s, this`sends, this`recvs, this`handles
      ensures Stores() && s == CloseStep(old(s)).(closed := closed)
    {
      ghost var t := CloseStep(s).(closed := closed);
      SameValues(s.calls, t.calls, s.buffer);
      var pending := sends;
      var ops := seq(|pending|, i requires 0 <= i < |pending| => pending[i].op);
      assert ops == s.sends;
      CompleteAll(ops, EPIPE);
      CompleteAll(recvs, EPIPE);
      RefuseBoth(s.handles, s.sends, s.recvs);
      sends, recvs := [], [];
      s := t;
    }

    method CloseAll()
      requires Valid()
      modifies this`s, this`closed, this`sends, this`recvs, this`handles
      ensures Valid() && s == CloseStep(old(s))
    {
      CloseInv(s);
      closed := true;
      s := s.(closed := true);
      Refuse();
    }
  }
}
