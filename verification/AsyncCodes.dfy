/**
What each call on an asynchronous channel returns and does, told from the calls themselves: from what was
asked, from the first element size ever given and from what is in the channel.
*/
module AsyncCodes {
  import opened AsyncChan
  import opened Distinctness

  // ---- What a send does ----

  /** Nobody waits for a value and the buffer is full. */
  predicate Full(s: State) {
    s.recvs == [] && |s.buffer| == s.cap
  }

  /** The code a send comes back with, condition by condition. */
  predicate SendCodeIs(s: State, size: nat, noBuf: bool, noMem: bool, rc: int) {
    var fits := size != 0 && (s.elem == 0 || s.elem == size);
    var bare := noBuf && !s.alloc;
    && (rc == 22 <==> !fits)
    && (rc == 12 <==> fits && (bare || (Full(s) && s.mode == BLOCK && noMem)))
    && (rc == 11 <==> fits && !bare && Full(s) && s.mode == DROP_NEW)
    && (rc == 0 || rc == 11 || rc == 12 || rc == 22)
  }

  /** What becomes of an accepted send: a receive that waits, the buffer, or the list of pending sends. */
  predicate SendFateIs(s: State, rc: int, f: Fate) {
    if rc != 0 then f == Rejected
    else if s.recvs != [] then f == Met(s.recvs[0])
    else if |s.buffer| < s.cap || s.mode == DROP_OLD then f == Buffered
    else f == Waiting
  }

  /** A call that was made before keeps its fate, unless it is the mate of the new one or makes room for it. */
  predicate SendKeeps(s: State, t: State, x: nat)
    requires x < |s.calls| < |t.calls|
  {
    var rc, i := t.calls[|s.calls|].rc, |s.calls|;
    if rc == 0 && s.recvs != [] && x == s.recvs[0] then
      t.calls[x] == s.calls[x].(fate := Met(i), value := t.calls[i].value, done := 1, err := 0)
    else if rc == 0 && Full(s) && s.mode == DROP_OLD && s.buffer != [] && x == s.buffer[0] then
      t.calls[x] == s.calls[x].(fate := Dropped)
    else t.calls[x] == s.calls[x]
  }

  predicate SendEffect(s: State, t: State, v: Value) {
    var i := |s.calls|;
    && |t.calls| == i + 1
    && t.calls[i].send && t.calls[i].value == v && SendFateIs(s, t.calls[i].rc, t.calls[i].fate)
    && forall x: nat | x < i :: SendKeeps(s, t, x)
  }

  lemma DirectEffect(s: State, v: Value)
    requires Inv(s) && s.recvs != []
    ensures var t := SendToRecv(New(s, true, v), |s.calls|); SendEffect(s, t, v) && t.calls[|s.calls|].rc == 0
  {
    assert Is(s.calls, s.recvs[0], false, Waiting) by { HeadIn(s.recvs); }
    assert CallOk(s.calls, s.recvs[0]);
  }

  lemma BufferEffect(s: State, v: Value)
    requires Inv(s) && s.recvs == [] && |s.buffer| < s.cap
    ensures var t := SendToBuffer(New(s, true, v), |s.calls|); SendEffect(s, t, v) && t.calls[|s.calls|].rc == 0
  {
  }

  lemma DropEffect(s: State, v: Value)
    requires Inv(s) && Full(s) && s.mode == DROP_OLD
    ensures var t := SendToBuffer(DropOldest(New(s, true, v)), |s.calls|);
            SendEffect(s, t, v) && t.calls[|s.calls|].rc == 0
  {
    assert Is(s.calls, s.buffer[0], true, Buffered) by { HeadIn(s.buffer); }
  }

  lemma SendGoEffect(s: State, v: Value, noMem: bool)
    requires Inv(s)
    ensures SendEffect(s, SendGo(s, v, noMem), v)
  {
    if s.recvs != [] {
      DirectEffect(s, v);
    } else if |s.buffer| < s.cap {
      BufferEffect(s, v);
    } else if s.mode == DROP_OLD {
      DropEffect(s, v);
    }
  }

  lemma RejectEffect(s: State, u: State, v: Value, rc: int)
    requires u.calls == s.calls && rc != 0
    ensures SendEffect(s, Reject(u, true, v, rc), v)
  {
  }

  /** The element size and the memory of the buffer have no part in it. */
  lemma SameEffect(s: State, u: State, t: State, v: Value)
    requires u == s.(elem := u.elem, alloc := u.alloc) && SendEffect(u, t, v)
    ensures SendEffect(s, t, v)
  {
    forall x: nat | x < |s.calls| ensures SendKeeps(s, t, x) { assert SendKeeps(u, t, x); }
  }

  lemma SendStepEffect(s: State, v: Value, size: nat, noBuf: bool, noMem: bool)
    requires Inv(s)
    ensures SendEffect(s, SendStep(s, v, size, noBuf, noMem), v)
  {
    var u := s.(elem := size, alloc := true);
    if BadSize(s, size) {
      RejectEffect(s, s, v, EINVAL);
    } else if !s.alloc && noBuf {
      RejectEffect(s, s.(elem := size), v, ENOMEM);
    } else {
      SendGoEffect(u, v, noMem);
      SameEffect(s, u, SendGo(u, v, noMem), v);
    }
  }

  lemma SendCodeFits(s: State, size: nat, noBuf: bool, noMem: bool)
    requires Inv(s)
    ensures SendCodeIs(s, size, noBuf, noMem, SendRc(s, size, noBuf, noMem))
  {
  }

  /** Every send, in every state, comes back with the code and does the deed that its conditions name. */
  lemma SendDoes(s: State, v: Value, size: nat, noBuf: bool, noMem: bool)
    requires Inv(s)
    ensures var t := Step(s, Send(v, size, noBuf, noMem));
            SendEffect(s, t, v) && SendCodeIs(s, size, noBuf, noMem, t.calls[|s.calls|].rc)
  {
    assert Step(s, Send(v, size, noBuf, noMem)) == SendStep(s, v, size, noBuf, noMem);
    SendCode(s, v, size, noBuf, noMem);
    SendStepEffect(s, v, size, noBuf, noMem);
    SendCodeFits(s, size, noBuf, noMem);
  }

  // ---- What a receive does ----

  predicate RecvCodeIs(s: State, size: nat, noMem: bool, rc: int) {
    var fits := size != 0 && (s.elem == 0 || s.elem == size);
    && (rc == 22 <==> !fits)
    && (rc == 12 <==> fits && s.buffer == [] && s.sends == [] && noMem)
    && (rc == 0 || rc == 12 || rc == 22)
  }

  /** An accepted receive takes the oldest buffered value, else the oldest pending send, else it waits. */
  predicate RecvFateIs(s: State, rc: int, f: Fate) {
    if rc != 0 then f == Rejected
    else if s.buffer != [] then f == Met(s.buffer[0])
    else if s.sends != [] then f == Met(s.sends[0])
    else f == Waiting
  }

  predicate RecvKeeps(s: State, t: State, x: nat)
    requires x < |s.calls| < |t.calls|
  {
    var (f, i) := (t.calls[|s.calls|].fate, |s.calls|);
    t.calls[x] == if f == Met(x) then s.calls[x].(fate := Met(i), done := 1, err := 0) else s.calls[x]
  }

  predicate RecvEffect(s: State, t: State) {
    var i := |s.calls|;
    && |t.calls| == i + 1
    && !t.calls[i].send && RecvFateIs(s, t.calls[i].rc, t.calls[i].fate)
    && forall x: nat | x < i :: RecvKeeps(s, t, x)
  }

  lemma TakeBuffered(s: State)
    requires Inv(s) && s.buffer != []
    ensures var t := RecvFromBuffer(New(s, false, 0), |s.calls|); RecvEffect(s, t) && t.calls[|s.calls|].rc == 0
  {
    assert Is(s.calls, s.buffer[0], true, Buffered) by { HeadIn(s.buffer); }
    assert CallOk(s.calls, s.buffer[0]);
  }

  lemma TakePending(s: State)
    requires Inv(s) && s.buffer == [] && s.sends != []
    ensures var t := RecvFromSend(New(s, false, 0), |s.calls|); RecvEffect(s, t) && t.calls[|s.calls|].rc == 0
  {
    assert Is(s.calls, s.sends[0], true, Waiting) by { HeadIn(s.sends); }
    assert CallOk(s.calls, s.sends[0]);
  }

  lemma RecvGoEffect(s: State, noMem: bool)
    requires Inv(s)
    ensures RecvEffect(s, RecvGo(s, noMem))
  {
    if s.buffer != [] {
      TakeBuffered(s);
    } else if s.sends != [] {
      TakePending(s);
    }
  }

  /** Every receive, in every state, comes back with the code and takes the value that its conditions name. */
  lemma RecvDoes(s: State, size: nat, noMem: bool)
    requires Inv(s)
    ensures var t := Step(s, Recv(size, noMem));
            RecvEffect(s, t) && RecvCodeIs(s, size, noMem, t.calls[|s.calls|].rc)
  {
    var t := Step(s, Recv(size, noMem));
    RecvCode(s, size, noMem);
    if t == RecvGo(s.(elem := size), noMem) {
      RecvGoEffect(s.(elem := size), noMem);
      forall x: nat | x < |s.calls| ensures RecvKeeps(s, t, x) { assert RecvKeeps(s.(elem := size), t, x); }
    }
  }

  // ---- Over a whole run ----

  /** The element size: the first one given that is not 0. */
  function FirstSize(acts: seq<Act>): nat {
    if acts == [] then 0
    else
      var k := |acts| - 1;
      if FirstSize(acts[..k]) == 0 && !acts[k].Close? then acts[k].size else FirstSize(acts[..k])
  }

  /** Some send of the right size found memory for the buffer. */
  predicate Allocated(acts: seq<Act>) {
    && acts != []
    && var k := |acts| - 1;
       || Allocated(acts[..k])
       || (acts[k].Send? && !acts[k].noBuf && acts[k].size != 0 && acts[k].size == FirstSize(acts))
  }

  lemma SendStanding(s: State, a: Act)
    requires a.Send?
    ensures var t := Step(s, a);
            && t.mode == s.mode && t.cap == s.cap && t.closed == s.closed
            && t.elem == (if s.elem == 0 then a.size else s.elem)
            && (t.alloc <==> s.alloc || (!a.noBuf && a.size != 0 && a.size == t.elem))
  {
    var u := s.(elem := a.size, alloc := true);
    assert SendGo(u, a.v, a.noMem).elem == u.elem && SendGo(u, a.v, a.noMem).alloc;
    assert SendGo(u, a.v, a.noMem).cap == u.cap && SendGo(u, a.v, a.noMem).closed == u.closed;
  }

  lemma RecvStanding(s: State, a: Act)
    requires a.Recv?
    ensures var t := Step(s, a);
            && t.mode == s.mode && t.cap == s.cap && t.closed == s.closed && t.alloc == s.alloc
            && t.elem == (if s.elem == 0 then a.size else s.elem)
  {
    var u := s.(elem := a.size);
    assert RecvGo(u, a.noMem).elem == u.elem && RecvGo(u, a.noMem).alloc == u.alloc;
    assert RecvGo(u, a.noMem).cap == u.cap && RecvGo(u, a.noMem).closed == u.closed;
  }

  /** What the channel was set up with never changes; the rest of its standing comes from the calls alone. */
  lemma {:induction false} Standing(capacity: nat, mode: Mode, acts: seq<Act>)
    ensures var s := Run(capacity, mode, acts);
            && s.mode == mode && s.cap == (if capacity == 0 then 64 else capacity)
            && s.elem == FirstSize(acts) && (s.alloc <==> Allocated(acts)) && (s.closed <==> Close in acts)
  {
    if acts != [] {
      var k := |acts| - 1;
      var s := Run(capacity, mode, acts[..k]);
      Standing(capacity, mode, acts[..k]);
      assert acts == acts[..k] + [acts[k]];
      match acts[k]
      case Send(_, _, _, _) => SendStanding(s, acts[k]);
      case Recv(_, _) => RecvStanding(s, acts[k]);
      case Close =>
    }
  }

  /** The calls that a run makes, each with its value if it is a send. */
  datatype Asked = Asked(send: bool, value: Value)

  function Inputs(acts: seq<Act>): seq<Asked> {
    if acts == [] then []
    else
      var k := |acts| - 1;
      Inputs(acts[..k]) + match acts[k]
                          case Send(v, _, _, _) => [Asked(true, v)]
                          case Recv(_, _) => [Asked(false, 0)]
                          case Close => []
  }

  ghost predicate Records(calls: seq<Call>, l: seq<Asked>) {
    && |calls| == |l|
    && forall i | 0 <= i < |l| :: calls[i].send == l[i].send && (l[i].send ==> calls[i].value == l[i].value)
  }

  lemma SendKeepsValues(s: State, t: State, x: nat)
    requires Inv(s) && x < |s.calls| < |t.calls| && SendKeeps(s, t, x)
    ensures t.calls[x].send == s.calls[x].send && (s.calls[x].send ==> t.calls[x].value == s.calls[x].value)
  {
    if s.recvs != [] { assert Is(s.calls, s.recvs[0], false, Waiting) by { HeadIn(s.recvs); } }
  }

  lemma RecordSend(s: State, a: Act, l: seq<Asked>)
    requires Inv(s) && a.Send? && Records(s.calls, l)
    ensures Records(Step(s, a).calls, l + [Asked(true, a.v)])
  {
    var t := Step(s, a);
    SendDoes(s, a.v, a.size, a.noBuf, a.noMem);
    forall x: nat | x < |s.calls|
      ensures t.calls[x].send == s.calls[x].send && (s.calls[x].send ==> t.calls[x].value == s.calls[x].value)
    {
      SendKeepsValues(s, t, x);
    }
  }

  lemma RecordRecv(s: State, a: Act, l: seq<Asked>)
    requires Inv(s) && a.Recv? && Records(s.calls, l)
    ensures Records(Step(s, a).calls, l + [Asked(false, 0)])
  {
    var t := Step(s, a);
    RecvDoes(s, a.size, a.noMem);
    forall x: nat | x < |s.calls| ensures t.calls[x].send == s.calls[x].send && t.calls[x].value == s.calls[x].value {
      assert RecvKeeps(s, t, x);
    }
  }

  /** The history of a run is that of the calls made, in order, each send with the value it was given. */
  lemma {:induction false} CallsAreRecorded(capacity: nat, mode: Mode, acts: seq<Act>)
    ensures Records(Run(capacity, mode, acts).calls, Inputs(acts))
  {
    if acts != [] {
      var k := |acts| - 1;
      var s := Run(capacity, mode, acts[..k]);
      RunInv(capacity, mode, acts[..k]);
      CallsAreRecorded(capacity, mode, acts[..k]);
      match acts[k]
      case Send(_, _, _, _) => RecordSend(s, acts[k], Inputs(acts[..k]));
      case Recv(_, _) => RecordRecv(s, acts[k], Inputs(acts[..k]));
      case Close => assert Inputs(acts) == Inputs(acts[..k]);
    }
  }
}
