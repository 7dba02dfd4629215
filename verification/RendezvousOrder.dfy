/**
The order in which blocked calls on an unbuffered channel are served: first linked, first served, on
either side.
*/
module RendezvousOrder {
  import opened Ascending
  import opened Distinctness
  import opened Rendezvous

  function Queue(s: State, k: Kind): seq<nat> {
    if k == SEND then s.sendq else s.recvq
  }

  // ---- Seen from the calls ----

  /** The step puts call a.o to sleep for the first time. */
  predicate LinksNow(s: State, a: Act) {
    && a.Go? && a.o < |s.ops| && s.ops[a.o].pc == Enter
    && a.o < |Step(s, a).ops| && Step(s, a).ops[a.o].pc == Asleep
  }

  /** The calls that have blocked, in the order in which they did. */
  function Links(acts: seq<Act>): seq<nat> {
    if acts == [] then []
    else
      var k := |acts| - 1;
      Links(acts[..k]) + if LinksNow(Run(acts[..k]), acts[k]) then [acts[k].o] else []
  }

  /** Sleeping call i of side k takes part in its handoff. */
  predicate IsHit(a: seq<Op>, b: seq<Op>, k: Kind, i: nat) {
    i < |a| && i < |b| && Sleeping(a[i]) && a[i].kind == k && a[i].hits == 0 && b[i].hits == 1
  }

  /** The sleeping calls of side k, below n, that a step serves. */
  function Hits(a: seq<Op>, b: seq<Op>, k: Kind, n: nat): seq<nat> {
    if n == 0 then [] else Hits(a, b, k, n - 1) + if IsHit(a, b, k, n - 1) then [n - 1] else []
  }

  /** The blocked calls of side k that have been served, in the order in which they were. */
  function Served(acts: seq<Act>, k: Kind): seq<nat> {
    if acts == [] then []
    else
      var n := |acts| - 1;
      var s := Run(acts[..n]);
      Served(acts[..n], k) + Hits(s.ops, Step(s, acts[n]).ops, k, |s.ops|)
  }

  /** When a call blocked. */
  function Seat(l: seq<nat>, o: nat): nat {
    if l == [] || l[|l| - 1] == o then |l| else Seat(l[..|l| - 1], o)
  }

  function Seats(l: seq<nat>, z: seq<nat>): (r: seq<nat>)
    ensures |r| == |z|
  {
    seq(|z|, i requires 0 <= i < |z| => Seat(l, z[i]))
  }

  // ---- What a step does to a list ----

  /** One or all are left out, or none. */
  ghost predicate Thinner(q: seq<nat>, r: seq<nat>) {
    r == q || r == [] || exists i :: 0 <= i < |q| && r == q[..i] + q[i + 1..]
  }

  /** The list loses its first, who is served, or some that are not; or it gains one at its end. */
  ghost predicate Moves(q: seq<nat>, r: seq<nat>, hit: seq<nat>, link: seq<nat>) {
    || (hit == [] && r == q + link)
    || (hit == [] && link == [] && Thinner(q, r))
    || (link == [] && q != [] && hit == [q[0]] && r == q[1..])
  }

  lemma {:induction false} NoHits(a: seq<Op>, b: seq<Op>, k: Kind, n: nat)
    requires forall i: nat | i < n :: !IsHit(a, b, k, i)
    ensures Hits(a, b, k, n) == []
  {
    if n > 0 { NoHits(a, b, k, n - 1); }
  }

  lemma {:induction false} OneHit(a: seq<Op>, b: seq<Op>, k: Kind, n: nat, w: nat)
    requires w < n && IsHit(a, b, k, w) && forall i: nat | i < n && i != w :: !IsHit(a, b, k, i)
    ensures Hits(a, b, k, n) == [w]
  {
    if w == n - 1 { NoHits(a, b, k, n - 1); } else { OneHit(a, b, k, n - 1, w); }
  }

  lemma {:induction false} WithoutAt(q: seq<nat>, o: nat) returns (i: nat)
    requires o in q
    ensures i < |q| && Without(q, o) == q[..i] + q[i + 1..]
  {
    if q[0] == o {
      i := 0;
    } else {
      i := WithoutAt(q[1..], o);
      i := i + 1;
    }
  }

  lemma WithoutThins(q: seq<nat>, o: nat)
    ensures Thinner(q, Without(q, o))
  {
    if o in q {
      var i := WithoutAt(q, o);
    } else {
      WithoutAbsent(q, o);
    }
  }

  /** The trade serves the first waiter of the other side, and nobody else. */
  lemma HandOffMoves(s: State, o: nat, x: nat, k: Kind, codes: bool)
    requires Inv(s, codes) && o < |s.ops| && s.ops[o].pc == Enter && Partner(s, s.ops[o].kind)
    ensures var t := HandOff(s, o, x);
            Moves(Queue(s, k), Queue(t, k), Hits(s.ops, t.ops, k, |s.ops|), [])
  {
    var t, w := HandOff(s, o, x), Waiter(s, s.ops[o].kind);
    TradeShape(s, o, codes);
    assert OpOk(s, o, codes) && OpOk(s, w, codes);
    forall i: nat | i < |s.ops| && i != w ensures !IsHit(s.ops, t.ops, k, i) {
      TradeHits(s, o, i);
      SignalHits(Trade(s, o), w, x, i);
    }
    TradeHits(s, o, w);
    SignalHits(Trade(s, o), w, x, w);
    if k == Other(s.ops[o].kind) { OneHit(s.ops, t.ops, k, |s.ops|, w); } else { NoHits(s.ops, t.ops, k, |s.ops|); }
  }

  lemma SignalHits(s: State, w: nat, x: nat, i: nat)
    requires w < |s.ops| && i < |s.ops|
    ensures var t := Signal(s, w, x);
            |t.ops| == |s.ops| && Alike(t.ops[i], s.ops[i]) && t.sendq == s.sendq && t.recvq == s.recvq
  {
  }

  /** Nobody else is hit. */
  lemma TradeHits(s: State, o: nat, i: nat)
    requires o < |s.ops| && i < |s.ops| && Waiter(s, s.ops[o].kind) < |s.ops|
    ensures var (t, w) := (Trade(s, o), Waiter(s, s.ops[o].kind));
            && |t.ops| == |s.ops|
            && (i != o && i != w ==> t.ops[i].hits == s.ops[i].hits)
            && (Partner(s, s.ops[o].kind) && w != o && i == w ==> t.ops[i].hits == s.ops[i].hits + 1)
  {
  }

  /** A step of some call i that hits nobody. */
  lemma QuietHits(a: seq<Op>, b: seq<Op>, k: Kind, n: nat)
    requires n <= |a| && n <= |b| && forall i | 0 <= i < n :: b[i].hits == a[i].hits
    ensures Hits(a, b, k, n) == []
  {
    NoHits(a, b, k, n);
  }

  lemma StillMoves(s: State, t: State, k: Kind)
    requires |s.ops| <= |t.ops| && forall i | 0 <= i < |s.ops| :: t.ops[i].hits == s.ops[i].hits
    requires t.sendq == s.sendq && t.recvq == s.recvq
    ensures Moves(Queue(s, k), Queue(t, k), Hits(s.ops, t.ops, k, |s.ops|), [])
  {
    QuietHits(s.ops, t.ops, k, |s.ops|);
  }

  lemma EnterMoves(s: State, o: nat, x: nat, k: Kind, codes: bool)
    requires Inv(s, codes) && o < |s.ops| && s.ops[o].pc == Enter
    ensures var t := EnterStep(s, o, x);
            && |t.ops| == |s.ops|
            && Moves(Queue(s, k), Queue(t, k), Hits(s.ops, t.ops, k, |s.ops|),
                     if t.ops[o].pc == Asleep && s.ops[o].kind == k then [o] else [])
  {
    var t := EnterStep(s, o, x);
    if !Shut(s, s.ops[o].kind) && Partner(s, s.ops[o].kind) {
      HandOffMoves(s, o, x, k, codes);
      TradeShape(s, o, codes);
      SignalHits(Trade(s, o), Waiter(s, s.ops[o].kind), x, o);
    } else if Shut(s, s.ops[o].kind) {
      StillMoves(s, t, k);
    } else {
      assert t == Link(s, o);
      QuietHits(s.ops, t.ops, k, |s.ops|);
    }
  }

  /** A sender without a partner and a call that has been notified serve nobody. */
  lemma RelockShape(s: State, o: nat, expired: bool, x: nat)
    requires o < |s.ops| && (s.ops[o].note == NONE ==> !Partner(s, s.ops[o].kind))
    ensures var t := RelockStep(s, o, expired, x);
            && |t.ops| == |s.ops| && t.ops == s.ops[o := s.ops[o].(pc := t.ops[o].pc, up := t.ops[o].up)]
            && (t.sendq == s.sendq || t.sendq == Without(s.sendq, o))
            && (t.recvq == s.recvq || t.recvq == Without(s.recvq, o))
  {
  }

  lemma RelockMoves(s: State, o: nat, expired: bool, x: nat, k: Kind, codes: bool)
    requires Inv(s, codes) && o < |s.ops| && Sleeping(s.ops[o])
    ensures var t := RelockStep(s, o, expired, x);
            |t.ops| == |s.ops| && Moves(Queue(s, k), Queue(t, k), Hits(s.ops, t.ops, k, |s.ops|), [])
  {
    if s.ops[o].note == NONE { NoPartner(s, o, codes); }
    RelockShape(s, o, expired, x);
    WithoutThins(Queue(s, k), o);
    QuietHits(s.ops, RelockStep(s, o, expired, x).ops, k, |s.ops|);
  }

  lemma GoMoves(s: State, o: nat, expired: bool, x: nat, k: Kind, codes: bool)
    requires Inv(s, codes) && o < |s.ops|
    ensures var t := GoStep(s, o, expired, x);
            && |t.ops| == |s.ops|
            && Moves(Queue(s, k), Queue(t, k), Hits(s.ops, t.ops, k, |s.ops|),
                     if s.ops[o].pc == Enter && t.ops[o].pc == Asleep && s.ops[o].kind == k then [o] else [])
  {
    var t := GoStep(s, o, expired, x);
    match s.ops[o].pc
    case Enter => EnterMoves(s, o, x, k, codes);
    case Relock => RelockMoves(s, o, expired, x, k, codes);
    case Asleep =>
      if s.ops[o].mode != FIBER && s.ops[o].up {
        RelockMoves(s, o, expired, x, k, codes);
      } else {
        StillMoves(s, t, k);
      }
    case _ =>
      StillMoves(s, t, k);
  }

  lemma {:induction false} SameHits(a: seq<Op>, c: seq<Op>, b: seq<Op>, k: Kind, n: nat)
    requires n <= |a| && n <= |c| && a[..n] == c[..n]
    ensures Hits(a, b, k, n) == Hits(c, b, k, n)
  {
    if n > 0 {
      assert a[..n - 1] == a[..n][..n - 1] && c[..n - 1] == c[..n][..n - 1];
      assert a[n - 1] == a[..n][n - 1] && c[n - 1] == c[..n][n - 1];
      SameHits(a, c, b, k, n - 1);
    }
  }

  lemma TryTrades(s: State, op: Op, x: nat, k: Kind, codes: bool)
    requires Inv(s, codes) && op.pc == Enter && op.hits == 0 && op.note == NONE && Partner(s, op.kind)
    ensures var t := HandOff(s.(ops := s.ops + [op]), |s.ops|, x);
            Moves(Queue(s, k), Queue(t, k), Hits(s.ops, t.ops, k, |s.ops|), [])
  {
    var u := s.(ops := s.ops + [op]);
    BeginInv(s, op, codes);
    HandOffMoves(u, |s.ops|, x, k, codes);
    SameHits(s.ops, u.ops, HandOff(u, |s.ops|, x).ops, k, |s.ops|);
  }

  lemma TryMoves(s: State, j: Kind, v: int, x: nat, k: Kind, codes: bool)
    requires Inv(s, codes)
    ensures var t := TryStep(s, j, v, x);
            Moves(Queue(s, k), Queue(t, k), Hits(s.ops, t.ops, k, |s.ops|), [])
  {
    if !(j == SEND && Shut(s, SEND)) && Partner(s, j) {
      TryTrades(s, Op(j, TRY, v, NONE, Enter, 0, 0, false), x, k, codes);
    } else {
      StillMoves(s, TryStep(s, j, v, x), k);
    }
  }

  lemma CloseMoves(s: State, tx: bool, rx: bool, txCode: int, rxCode: int, k: Kind)
    ensures var t := CloseStep(s, tx, rx, txCode, rxCode);
            Moves(Queue(s, k), Queue(t, k), Hits(s.ops, t.ops, k, |s.ops|), [])
  {
    QuietHits(s.ops, CloseStep(s, tx, rx, txCode, rxCode).ops, k, |s.ops|);
    assert Queue(s, k) + [] == Queue(s, k);
  }

  lemma OtherMoves(s: State, a: Act, k: Kind, codes: bool)
    requires Inv(s, codes) && !a.Go?
    ensures Moves(Queue(s, k), Queue(Step(s, a), k), Hits(s.ops, Step(s, a).ops, k, |s.ops|), [])
  {
    match a
    case Begin(_, _, _) => StillMoves(s, Step(s, a), k);
    case TrySend(v, x) =>
      assert Step(s, a) == TryStep(s, SEND, v, x);
      TryMoves(s, SEND, v, x, k, codes);
    case TryRecv(x) =>
      assert Step(s, a) == TryStep(s, RECV, 0, x);
      TryMoves(s, RECV, 0, x, k, codes);
    case Wake(_) => StillMoves(s, Step(s, a), k);
    case Close(tx, rx, tc, rc) =>
      assert Step(s, a) == CloseStep(s, tx, rx, tc, rc);
      CloseMoves(s, tx, rx, tc, rc, k);
  }

  lemma StepMoves(s: State, a: Act, k: Kind, codes: bool)
    requires Inv(s, codes)
    ensures var t := Step(s, a);
            Moves(Queue(s, k), Queue(t, k), Hits(s.ops, t.ops, k, |s.ops|),
                  if LinksNow(s, a) && s.ops[a.o].kind == k then [a.o] else [])
  {
    if !a.Go? {
      OtherMoves(s, a, k, codes);
    } else if a.o < |s.ops| {
      GoMoves(s, a.o, a.expired, a.x, k, codes);
    } else {
      StillMoves(s, s, k);
    }
  }

  // ---- First linked, first served ----

  /** Every call that has been served or waits has a seat, and the seats go up: those served in the order in which
      they were, then those that wait in the order of their list. */
  ghost predicate Seated(l: seq<nat>, z: seq<nat>) {
    (forall i | 0 <= i < |z| :: z[i] in l) && Rising(Seats(l, z))
  }

  lemma {:induction false} SeatBound(l: seq<nat>, o: nat)
    ensures Seat(l, o) <= |l| && (o in l ==> Seat(l, o) > 0)
  {
    if l != [] { SeatBound(l[..|l| - 1], o); }
  }

  lemma KeepSeats(l: seq<nat>, o: nat, z: seq<nat>)
    requires Seated(l, z) && o !in l
    ensures Seated(l + [o], z) && Seats(l + [o], z) == Seats(l, z)
  {
    assert (l + [o])[..|l|] == l;
    forall i | 0 <= i < |z| ensures z[i] in l + [o] && Seats(l + [o], z)[i] == Seats(l, z)[i] {
      assert z[i] in l && z[i] != o;
    }
    assert Seats(l + [o], z) == Seats(l, z);
  }

  lemma NewSeat(l: seq<nat>, o: nat, z: seq<nat>)
    requires Seated(l, z) && o !in l
    ensures Seated(l + [o], z + [o])
  {
    KeepSeats(l, o, z);
    forall i | 0 <= i < |z| ensures Seats(l, z)[i] <= |l| { SeatBound(l, z[i]); }
    AppendRising(Seats(l + [o], z), |l| + 1);
    assert Seats(l + [o], z + [o]) == Seats(l + [o], z) + [|l| + 1];
  }

  lemma ThinSeats(l: seq<nat>, p: seq<nat>, q: seq<nat>, r: seq<nat>)
    requires Seated(l, p + q) && Thinner(q, r)
    ensures Seated(l, p + r)
  {
    if r == [] && q != [] {
      assert Seats(l, p + q) == Seats(l, p) + Seats(l, q);
      PrefixRising(Seats(l, p), Seats(l, q));
      forall i | 0 <= i < |p| ensures p[i] in l { assert (p + q)[i] == p[i]; }
      assert p + r == p;
    } else if i :| 0 <= i < |q| && r == q[..i] + q[i + 1..] {
      var k := |p| + i;
      DropRising(Seats(l, p + q), k);
      assert Seats(l, p + r) == Seats(l, p + q)[..k] + Seats(l, p + q)[k + 1..];
      forall j | 0 <= j < |p + r| ensures (p + r)[j] in l { assert (p + r)[j] == (p + q)[if j < k then j else j + 1]; }
    } else {
      assert r == q;
    }
  }

  /** A call that has blocked once has left its first section for good. */
  ghost predicate LinksLeft(s: State, l: seq<nat>) {
    forall i | 0 <= i < |l| :: l[i] < |s.ops| && s.ops[l[i]].pc != Enter
  }

  lemma TradeLeft(s: State, o: nat, i: nat)
    requires o < |s.ops| && i < |s.ops|
    ensures var t := Trade(s, o); |t.ops| == |s.ops| && (t.ops[i].pc == s.ops[i].pc || t.ops[i].pc == Returned(0))
  {
  }

  lemma HandOffLeft(s: State, o: nat, x: nat, i: nat)
    requires o < |s.ops| && i < |s.ops|
    ensures var t := HandOff(s, o, x); |t.ops| == |s.ops| && (t.ops[i].pc == s.ops[i].pc || t.ops[i].pc == Returned(0))
  {
    TradeLeft(s, o, i);
    var w := Waiter(s, s.ops[o].kind);
    if w < |s.ops| { SignalHits(Trade(s, o), w, x, i); }
  }

  lemma EnterLeft(s: State, o: nat, x: nat, i: nat)
    requires o < |s.ops| && i < |s.ops| && s.ops[i].pc != Enter
    ensures var t := EnterStep(s, o, x); |t.ops| == |s.ops| && t.ops[i].pc != Enter
  {
    HandOffLeft(s, o, x, i);
  }

  lemma RelockLeft(s: State, o: nat, expired: bool, x: nat, i: nat)
    requires o < |s.ops| && i < |s.ops| && s.ops[i].pc != Enter
    ensures var t := RelockStep(s, o, expired, x); |t.ops| == |s.ops| && t.ops[i].pc != Enter
  {
    var op, u := s.ops[o], Unlink(s, o);
    if !Shut(s, op.kind) && op.note == NONE && !(op.mode == TIMED && expired) {
      HandOffLeft(u, o, x, i);
    }
  }

  lemma GoLeft(s: State, o: nat, expired: bool, x: nat, i: nat)
    requires o < |s.ops| && i < |s.ops| && s.ops[i].pc != Enter
    ensures var t := GoStep(s, o, expired, x); |t.ops| == |s.ops| && t.ops[i].pc != Enter
  {
    match s.ops[o].pc
    case Enter => EnterLeft(s, o, x, i);
    case Asleep => RelockLeft(s, o, expired, x, i);
    case Relock => RelockLeft(s, o, expired, x, i);
    case Failed =>
    case Returned(_) =>
  }

  lemma TryLeft(s: State, k: Kind, v: int, x: nat, i: nat)
    requires i < |s.ops| && s.ops[i].pc != Enter
    ensures var t := TryStep(s, k, v, x); i < |t.ops| && t.ops[i].pc != Enter
  {
    HandOffLeft(s.(ops := s.ops + [Op(k, TRY, v, NONE, Enter, 0, 0, false)]), |s.ops|, x, i);
  }

  lemma LeftStays(s: State, a: Act, i: nat)
    requires i < |s.ops| && s.ops[i].pc != Enter
    ensures i < |Step(s, a).ops| && Step(s, a).ops[i].pc != Enter
  {
    match a
    case Begin(_, _, _) =>
    case Go(o, expired, x) => if o < |s.ops| { GoLeft(s, o, expired, x, i); }
    case TrySend(v, x) => TryLeft(s, SEND, v, x, i);
    case TryRecv(x) => TryLeft(s, RECV, 0, x, i);
    case Wake(_) =>
    case Close(_, _, _, _) =>
  }

  lemma {:induction false} LinksRun(acts: seq<Act>)
    ensures LinksLeft(Run(acts), Links(acts))
  {
    if acts != [] {
      var k := |acts| - 1;
      var s, l := Run(acts[..k]), Links(acts[..k]);
      LinksRun(acts[..k]);
      forall i | 0 <= i < |l| ensures l[i] < |Step(s, acts[k]).ops| && Step(s, acts[k]).ops[l[i]].pc != Enter {
        LeftStays(s, acts[k], l[i]);
      }
    }
  }

  lemma MoveSeats(l: seq<nat>, p: seq<nat>, q: seq<nat>, r: seq<nat>, hit: seq<nat>, link: seq<nat>)
    requires Seated(l, p + q) && Moves(q, r, hit, link) && |link| <= 1 && (link != [] ==> link[0] !in l)
    ensures Seated(l + link, p + hit + r)
  {
    if link != [] {
      assert link == [link[0]];
      NewSeat(l, link[0], p + q);
      assert p + hit + r == p + q + link;
    } else {
      assert l + link == l && q + link == q;
      if hit == [] {
        ThinSeats(l, p, q, r);
        assert p + hit + r == p + r;
      } else {
        assert p + hit + r == p + q;
      }
    }
  }

  lemma SeatedStep(s: State, a: Act, l: seq<nat>, p: seq<nat>, k: Kind)
    requires Inv(s, false) && LinksLeft(s, l) && Seated(l, p + Queue(s, k))
    ensures Seated(l + (if LinksNow(s, a) then [a.o] else []),
                   p + Hits(s.ops, Step(s, a).ops, k, |s.ops|) + Queue(Step(s, a), k))
  {
    var t := Step(s, a);
    var q, r, hit := Queue(s, k), Queue(t, k), Hits(s.ops, t.ops, k, |s.ops|);
    assert l + [] == l;
    StepMoves(s, a, k, false);
    if LinksNow(s, a) {
      assert a.o !in l;
      if s.ops[a.o].kind == k {
        MoveSeats(l, p, q, r, hit, [a.o]);
      } else {
        MoveSeats(l, p, q, r, hit, []);
        KeepSeats(l, a.o, p + hit + r);
      }
    } else {
      MoveSeats(l, p, q, r, hit, []);
    }
  }

  /**
  First linked, first served: in every run the blocked calls of a side that have been served, in the order in
  which they were, followed by those that wait, in the order of their list, are in the order in which they blocked.
  */
  lemma {:induction false} FirstLinkedFirstServed(acts: seq<Act>, k: Kind)
    ensures Seated(Links(acts), Served(acts, k) + Queue(Run(acts), k))
  {
    if acts != [] {
      var n := |acts| - 1;
      FirstLinkedFirstServed(acts[..n], k);
      RunInv(acts[..n], false);
      LinksRun(acts[..n]);
      SeatedStep(Run(acts[..n]), acts[n], Links(acts[..n]), Served(acts[..n], k), k);
    }
  }

  /**
  Of two calls of one side that have been served or still wait, the one that blocked first comes first: it was
  served earlier, or it was served and the other still waits, or it is ahead in the list.
  */
  lemma {:induction false} EarlierComesFirst(acts: seq<Act>, k: Kind, i: nat, j: nat)
    requires i < |Served(acts, k) + Queue(Run(acts), k)| && j < |Served(acts, k) + Queue(Run(acts), k)|
    ensures var z := Served(acts, k) + Queue(Run(acts), k);
            && z[i] in Links(acts) && z[j] in Links(acts)
            && (i < j <==> Seat(Links(acts), z[i]) < Seat(Links(acts), z[j]))
  {
    var z := Served(acts, k) + Queue(Run(acts), k);
    FirstLinkedFirstServed(acts, k);
    if i < j { RisingAt(Seats(Links(acts), z), i, j); } else if j < i { RisingAt(Seats(Links(acts), z), j, i); }
  }
}
