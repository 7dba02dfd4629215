/**
The receive wait list of a channel: an intrusive doubly linked list of stack-allocated nodes, a
roving hint for the next node to signal, and two counters that senders read without the lock.
Every method is a section under the channel mutex.

The nodes are plain waiters.  `stale` is the set of nodes whose wait ticket no longer matches their
fiber when the section runs.
*/
module WaitList {
  import opened Distinctness

  datatype Notify = NONE | DATA | CLOSE | SIGNAL

  class Node {
    var next: Node?
    var prev: Node?
    var notified: Notify
    var inList: bool

    constructor ()
      ensures next == null && prev == null && notified == NONE && !inList
    {
      next, prev, notified, inList := null, null, NONE, false;
    }
  }

  /** Position of an element. */
  ghost function Index<T>(s: seq<T>, x: T): (i: nat)
    requires x in s
    ensures i < |s| && s[i] == x
  {
    if s[0] == x then 0 else 1 + Index(s[1..], x)
  }

  ghost function RemoveAt<T>(s: seq<T>, i: nat): seq<T>
    requires i < |s|
  {
    s[..i] + s[i + 1..]
  }

  ghost function Count(notes: seq<Notify>, x: Notify): nat {
    if notes == [] then 0
    else Count(notes[..|notes| - 1], x) + (if notes[|notes| - 1] == x then 1 else 0)
  }

  lemma {:induction false} CountRemove(notes: seq<Notify>, i: nat, x: Notify)
    requires i < |notes|
    ensures Count(RemoveAt(notes, i), x) == Count(notes, x) - (if notes[i] == x then 1 else 0)
  {
    var k := |notes| - 1;
    if i == k {
      assert RemoveAt(notes, i) == notes[..k];
    } else {
      CountRemove(notes[..k], i, x);
      assert RemoveAt(notes, i)[..k - 1] == RemoveAt(notes[..k], i);
    }
  }

  lemma DistinctRemove<T>(s: seq<T>, i: nat)
    requires Distinct(s) && i < |s|
    ensures Distinct(RemoveAt(s, i)) && s[i] !in RemoveAt(s, i)
  {
    var t := RemoveAt(s, i);
    forall j, k | 0 <= j < k < |t| ensures Apart(t, j, k) {
      assert Apart(s, if j < i then j else j + 1, if k < i then k else k + 1);
    }
    forall j | 0 <= j < |t| ensures t[j] != s[i] {
      if j < i { assert Apart(s, j, i); } else { assert Apart(s, i, j + 1); }
    }
  }

  ghost predicate Wakeable(nodes: seq<Node>, notes: seq<Notify>, stale: set<Node>, i: nat)
    requires i < |nodes| == |notes|
  {
    notes[i] == NONE && nodes[i] !in stale
  }

  /** The first node a pop may hand out, or the length of the list. */
  ghost function FirstWakeable(nodes: seq<Node>, notes: seq<Notify>, stale: set<Node>, i: nat): (k: nat)
    requires i <= |nodes| == |notes|
    ensures i <= k <= |nodes|
    ensures k < |nodes| ==> Wakeable(nodes, notes, stale, k)
    ensures forall j | i <= j < k :: !Wakeable(nodes, notes, stale, j)
    decreases |nodes| - i
  {
    if i == |nodes| || Wakeable(nodes, notes, stale, i) then i else FirstWakeable(nodes, notes, stale, i + 1)
  }

  /** How many nodes in [lo, hi) a signal may move. */
  ghost function Wakeables(nodes: seq<Node>, notes: seq<Notify>, stale: set<Node>, lo: nat, hi: nat): nat
    requires lo <= hi <= |nodes| == |notes|
    decreases hi - lo
  {
    if lo == hi then 0
    else (if Wakeable(nodes, notes, stale, lo) then 1 else 0) + Wakeables(nodes, notes, stale, lo + 1, hi)
  }

  /** Position at distance d behind h, counting round the end of a list of n nodes. */
  ghost function At(h: nat, d: nat, n: nat): (i: nat)
    requires h < n && d <= n
    ensures i < n
  {
    if h + d < n then h + d else h + d - n
  }

  datatype Swept = Swept(notes: seq<Notify>, signaled: nat, at: nat)

  /**
  A circular round from position h with budget k, after the nodes at distances below d: each node that
  is still wakeable is signaled, and the round stops behind the k-th.
  */
  ghost function Round(nodes: seq<Node>, start: seq<Notify>, stale: set<Node>, h: nat, k: nat, d: nat): (r: Swept)
    requires h < |nodes| == |start| && d <= |nodes|
    ensures |r.notes| == |start| && r.signaled <= k && r.at <= d
  {
    if d == 0 then Swept(start, 0, 0)
    else
      var p := Round(nodes, start, stale, h, k, d - 1);
      var i := At(h, d - 1, |nodes|);
      if p.signaled == k then p
      else if Wakeable(nodes, p.notes, stale, i) then Swept(p.notes[i := SIGNAL], p.signaled + 1, d)
      else Swept(p.notes, p.signaled, d)
  }

  lemma {:induction false} CountUpdate(notes: seq<Notify>, i: nat, y: Notify, x: Notify)
    requires i < |notes|
    ensures Count(notes[i := y], x)
         == Count(notes, x) - (if notes[i] == x then 1 else 0) + (if y == x then 1 else 0)
  {
    var k := |notes| - 1;
    if i == k {
      assert notes[i := y][..k] == notes[..k];
    } else {
      CountUpdate(notes[..k], i, y, x);
      assert notes[i := y][..k] == notes[..k][i := y];
    }
  }

  lemma {:induction false} WakeablesSplit(nodes: seq<Node>, notes: seq<Notify>, stale: set<Node>,
                                          lo: nat, mid: nat, hi: nat)
    requires lo <= mid <= hi <= |nodes| == |notes|
    ensures Wakeables(nodes, notes, stale, lo, hi)
         == Wakeables(nodes, notes, stale, lo, mid) + Wakeables(nodes, notes, stale, mid, hi)
    decreases mid - lo
  {
    if lo < mid {
      WakeablesSplit(nodes, notes, stale, lo + 1, mid, hi);
    }
  }

  /** With no stale node the wakeable nodes are those counted by has_recv_waiters. */
  lemma {:induction false} WakeablesCount(nodes: seq<Node>, notes: seq<Notify>, stale: set<Node>, hi: nat)
    requires hi <= |nodes| == |notes|
    requires forall n | n in nodes :: n !in stale
    ensures Wakeables(nodes, notes, stale, 0, hi) == Count(notes[..hi], NONE)
  {
    if hi > 0 {
      WakeablesCount(nodes, notes, stale, hi - 1);
      WakeablesSplit(nodes, notes, stale, 0, hi - 1, hi);
      assert nodes[hi - 1] in nodes;
      assert notes[..hi][..hi - 1] == notes[..hi - 1];
    }
  }

  /** How many nodes at distances below d of a round from h were wakeable at its start. */
  ghost function Passed(nodes: seq<Node>, start: seq<Notify>, stale: set<Node>, h: nat, d: nat): nat
    requires h < |nodes| == |start| && d <= |nodes|
  {
    if h + d <= |nodes| then Wakeables(nodes, start, stale, h, h + d)
    else Wakeables(nodes, start, stale, h, |nodes|) + Wakeables(nodes, start, stale, 0, h + d - |nodes|)
  }

  lemma PassedStep(nodes: seq<Node>, start: seq<Notify>, stale: set<Node>, h: nat, d: nat)
    requires h < |nodes| == |start| && d < |nodes|
    ensures Passed(nodes, start, stale, h, d + 1)
         == Passed(nodes, start, stale, h, d) + (if Wakeable(nodes, start, stale, At(h, d, |nodes|)) then 1 else 0)
  {
    var i := At(h, d, |nodes|);
    WakeablesSplit(nodes, start, stale, if h + d < |nodes| then h else 0, i, i + 1);
  }

  /** A round leaves the nodes ahead of it alone. */
  lemma {:induction false} RoundAhead(nodes: seq<Node>, start: seq<Notify>, stale: set<Node>, h: nat, k: nat,
                                      d: nat, c: nat)
    requires h < |nodes| == |start| && d <= c < |nodes|
    ensures var i := At(h, c, |nodes|); Round(nodes, start, stale, h, k, d).notes[i] == start[i]
  {
    if d > 0 {
      RoundAhead(nodes, start, stale, h, k, d - 1, c);
    }
  }

  /** A round changes nothing but wakeable nodes, each from NONE to SIGNAL. */
  lemma {:induction false} RoundMoves(nodes: seq<Node>, start: seq<Notify>, stale: set<Node>, h: nat, k: nat,
                                      d: nat, j: nat)
    requires h < |nodes| == |start| && d <= |nodes| && j < |nodes|
    ensures var x := Round(nodes, start, stale, h, k, d).notes[j];
            x == start[j] || (Wakeable(nodes, start, stale, j) && x == SIGNAL)
  {
    if d > 0 {
      RoundMoves(nodes, start, stale, h, k, d - 1, j);
      RoundAhead(nodes, start, stale, h, k, d - 1, d - 1);
    }
  }

  /** The node at distance d counts if it was wakeable at the start and there is budget left. */
  lemma RoundStep(nodes: seq<Node>, start: seq<Notify>, stale: set<Node>, h: nat, k: nat, d: nat)
    requires h < |nodes| == |start| && d < |nodes|
    ensures var p, r := Round(nodes, start, stale, h, k, d), Round(nodes, start, stale, h, k, d + 1);
            r.signaled == p.signaled
                          + (if p.signaled < k && Wakeable(nodes, start, stale, At(h, d, |nodes|)) then 1 else 0)
  {
    RoundAhead(nodes, start, stale, h, k, d, d);
  }

  /** A round signals as many nodes as it may: the budget, or all that were wakeable. */
  lemma {:induction false} RoundSignals(nodes: seq<Node>, start: seq<Notify>, stale: set<Node>, h: nat, k: nat, d: nat)
    requires h < |nodes| == |start| && d <= |nodes|
    ensures var w := Passed(nodes, start, stale, h, d);
            Round(nodes, start, stale, h, k, d).signaled == (if k <= w then k else w)
  {
    if d == 0 {
      assert Passed(nodes, start, stale, h, 0) == 0;
    } else {
      RoundSignals(nodes, start, stale, h, k, d - 1);
      RoundStep(nodes, start, stale, h, k, d - 1);
      PassedStep(nodes, start, stale, h, d - 1);
    }
  }

  /** Every signal moves one node from the count of waiters to the count of wakes in flight. */
  lemma {:induction false} RoundCounts(nodes: seq<Node>, start: seq<Notify>, stale: set<Node>, h: nat, k: nat, d: nat)
    requires h < |nodes| == |start| && d <= |nodes|
    ensures var r := Round(nodes, start, stale, h, k, d);
            && Count(r.notes, NONE) == Count(start, NONE) - r.signaled
            && Count(r.notes, SIGNAL) == Count(start, SIGNAL) + r.signaled
  {
    if d > 0 {
      RoundCounts(nodes, start, stale, h, k, d - 1);
      var p, i := Round(nodes, start, stale, h, k, d - 1), At(h, d - 1, |nodes|);
      CountUpdate(p.notes, i, SIGNAL, NONE);
      CountUpdate(p.notes, i, SIGNAL, SIGNAL);
    }
  }

  /** One visit of a round that still has budget. */
  lemma RoundVisit(nodes: seq<Node>, start: seq<Notify>, stale: set<Node>, h: nat, k: nat, d: nat,
                   notes: seq<Notify>, got: nat)
    requires h < |nodes| == |start| && d < |nodes| && got < k
    requires Round(nodes, start, stale, h, k, d) == Swept(notes, got, d)
    ensures |notes| == |nodes|
    ensures var i := At(h, d, |nodes|);
            var r := Round(nodes, start, stale, h, k, d + 1);
            if Wakeable(nodes, notes, stale, i) then
              r == Swept(notes[i := SIGNAL], got + 1, d + 1) && got < Count(start, NONE)
            else r == Swept(notes, got, d + 1)
  {
    RoundCounts(nodes, start, stale, h, k, d + 1);
  }

  /** Once its budget is spent a round does nothing more. */
  lemma {:induction false} RoundStays(nodes: seq<Node>, start: seq<Notify>, stale: set<Node>, h: nat, k: nat,
                                      d: nat, e: nat)
    requires h < |nodes| == |start| && d <= e <= |nodes|
    requires Round(nodes, start, stale, h, k, d).signaled == k
    ensures Round(nodes, start, stale, h, k, e) == Round(nodes, start, stale, h, k, d)
  {
    if d < e {
      RoundStays(nodes, start, stale, h, k, d, e - 1);
    }
  }

  /** The whole round: min(k, wakeable) nodes are signaled, none of them notified before. */
  lemma RoundTotal(nodes: seq<Node>, start: seq<Notify>, stale: set<Node>, h: nat, k: nat)
    requires h < |nodes| == |start|
    ensures var r := Round(nodes, start, stale, h, k, |nodes|);
            var w := Wakeables(nodes, start, stale, 0, |nodes|);
            && r.signaled == (if k <= w then k else w)
            && Count(r.notes, NONE) == Count(start, NONE) - r.signaled
            && Count(r.notes, SIGNAL) == Count(start, SIGNAL) + r.signaled
            && forall j | 0 <= j < |start| ::
                 r.notes[j] == start[j] || (Wakeable(nodes, start, stale, j) && r.notes[j] == SIGNAL)
  {
    RoundSignals(nodes, start, stale, h, k, |nodes|);
    forall j | 0 <= j < |start|
      ensures var x := Round(nodes, start, stale, h, k, |nodes|).notes[j];
              x == start[j] || (Wakeable(nodes, start, stale, j) && x == SIGNAL)
    {
      RoundMoves(nodes, start, stale, h, k, |nodes|, j);
    }
    RoundCounts(nodes, start, stale, h, k, |nodes|);
    WakeablesSplit(nodes, start, stale, 0, h, |nodes|);
  }

  /** A node that close has unlinked and, unless stale, notified. */
  ghost predicate Told(n: Node, stale: set<Node>, before: Notify)
    reads n
  {
    !n.inList && n.notified == if n in stale then before else CLOSE
  }

  class RecvList {
    var head: Node?
    var tail: Node?
    var hint: Node?       // recv_signal_hint
    var waiters: int      // has_recv_waiters
    var inflight: int     // recv_wake_inflight
    ghost var nodes: seq<Node>
    ghost var notes: seq<Notify>

    ghost predicate NodeOk(i: nat)
      reads this`nodes, nodes`next, nodes`prev, nodes`inList
      requires i < |nodes|
    {
      && nodes[i].inList
      && nodes[i].prev == (if i == 0 then null else nodes[i - 1])
      && nodes[i].next == (if i + 1 == |nodes| then null else nodes[i + 1])
    }

    ghost predicate NoteOk(i: nat)
      reads this`nodes, this`notes, nodes`notified
      requires i < |nodes| == |notes|
    {
      notes[i] == nodes[i].notified
    }

    /** A well-formed doubly linked list over `nodes`. */
    ghost predicate Linked()
      reads this`head, this`tail, this`nodes, nodes`next, nodes`prev, nodes`inList
    {
      && Distinct(nodes)
      && head == (if nodes == [] then null else nodes[0])
      && tail == (if nodes == [] then null else nodes[|nodes| - 1])
      && (forall i | 0 <= i < |nodes| :: NodeOk(i))
    }

    /** `notes` lists the notifications of the linked nodes. */
    ghost predicate Noted()
      reads this`nodes, this`notes, nodes`notified
    {
      |notes| == |nodes| && forall i | 0 <= i < |nodes| :: NoteOk(i)
    }

    /** The counters agree with the list and the hint points into it. */
    ghost predicate Counted()
      reads this`nodes, this`notes, this`hint, this`waiters, this`inflight
    {
      && (hint == null <==> nodes == []) && (hint != null ==> hint in nodes)
      && waiters == Count(notes, NONE) && inflight == Count(notes, SIGNAL)
    }

    ghost predicate Valid()
      reads this, nodes
    {
      Linked() && Noted() && Counted()
    }

    constructor ()
      ensures Valid() && nodes == [] && notes == []
    {
      head, tail, hint, waiters, inflight := null, null, null, 0, 0;
      nodes, notes := [], [];
    }

    /** Link a node behind the tail. */
    method Append(n: Node)
      requires Linked() && n !in nodes
      modifies this`head, this`tail, this`nodes, n`next, n`prev, n`inList, nodes`next
      ensures Linked() && nodes == old(nodes) + [n]
    {
      assert nodes != [] ==> NodeOk(|nodes| - 1);
      n.next := null;
      n.prev := tail;
      forall j | 0 <= j < |nodes| - 1 ensures nodes[j] != tail { DistinctAt(nodes, j, |nodes| - 1); }
      if tail != null {
        tail.next := n;
      } else {
        head := n;
      }
      tail := n;
      n.inList := true;
      DistinctAppend(nodes, n);
      nodes := nodes + [n];
      forall j | 0 <= j < |nodes| ensures NodeOk(j) {
        assert j < |old(nodes)| ==> old(NodeOk(j));
      }
    }

    /** Counter and hint after the node n, not notified, has been linked behind `was`. */
    method CountIn(n: Node, ghost was: seq<Node>)
      requires Linked() && nodes == was + [n] && |was| == |notes|
      requires (hint == null <==> was == []) && (hint != null ==> hint in was)
      requires waiters == Count(notes, NONE) && inflight == Count(notes, SIGNAL)
      modifies this`notes, this`waiters, this`hint
      ensures Linked() && Counted() && notes == old(notes) + [NONE]
      ensures hint == (if was == [] then n else old(hint)) && waiters == old(waiters) + 1
    {
      assert (notes + [NONE])[..|notes|] == notes;
      notes := notes + [NONE];
      waiters := waiters + 1;
      if hint == null {
        hint := n;
      }
    }

    /** Append a plain waiter. */
    method Add(n: Node)
      requires Valid() && n !in nodes && n.notified == NONE
      modifies this, n`next, n`prev, n`inList, nodes`next
      ensures Valid() && nodes == old(nodes) + [n] && notes == old(notes) + [NONE]
      ensures hint == if old(nodes) == [] then n else old(hint)
      ensures waiters == old(waiters) + 1 && inflight == old(inflight)
    {
      Append(n);
      CountIn(n, old(nodes));
      forall j | 0 <= j < |nodes| ensures NoteOk(j) {
        assert j < |old(nodes)| ==> old(NoteOk(j));
      }
    }

    method DecWaiters()
      modifies this`waiters
      ensures waiters == if old(waiters) <= 1 then 0 else old(waiters) - 1
    {
      waiters := waiters - 1;
      if waiters <= 0 { waiters := 0; }
    }

    method DecInflight()
      modifies this`inflight
      ensures inflight == if old(inflight) <= 1 then 0 else old(inflight) - 1
    {
      inflight := inflight - 1;
      if inflight <= 0 { inflight := 0; }
    }

    /** Keep the hint inside the list after `node`, whose successor was `next`, was unlinked. */
    method AdvanceHint(node: Node, next: Node?)
      modifies this`hint
      ensures hint == if head == null then null
                      else if old(hint) == node then (if next != null then next else head)
                      else if old(hint) == null then head
                      else old(hint)
    {
      if hint == node {
        hint := if next != null then next else head;
      }
      if head == null {
        hint := null;
      } else if hint == null {
        hint := head;
      }
    }

    /** Unlink the node at ghost position i. */
    method Unlink(n: Node, ghost i: nat)
      requires Linked() && i < |nodes| && nodes[i] == n
      modifies this`head, this`tail, this`nodes, nodes`next, nodes`prev, nodes`inList
      ensures Linked() && nodes == RemoveAt(old(nodes), i)
      ensures n.prev == null && n.next == null && !n.inList
    {
      assert NodeOk(i);
      assert i > 0 ==> NodeOk(i - 1);
      assert i + 1 < |nodes| ==> NodeOk(i + 1);
      DistinctRemove(nodes, i);
      forall j, k | 0 <= j < k < |nodes| ensures nodes[j] != nodes[k] { DistinctAt(nodes, j, k); }
      if n.prev != null {
        n.prev.next := n.next;
      } else {
        head := n.next;
      }
      if n.next != null {
        n.next.prev := n.prev;
      } else {
        tail := n.prev;
      }
      n.prev, n.next := null, null;
      n.inList := false;
      nodes := nodes[..i] + nodes[i + 1..];
      forall j | 0 <= j < |nodes| ensures NodeOk(j) {
        assert old(NodeOk(if j < i then j else j + 1));
      }
    }

    /** Counters and hint after the node at position i, with notification x, has been unlinked. */
    method Settle(n: Node, next: Node?, x: Notify, ghost i: nat, ghost was: seq<Node>)
      requires Linked() && i < |was| == |notes| && nodes == RemoveAt(was, i)
      requires was[i] == n && notes[i] == x
      requires next == (if i + 1 == |was| then null else was[i + 1])
      requires hint != null && hint in was
      requires waiters == Count(notes, NONE) && inflight == Count(notes, SIGNAL)
      modifies this`notes, this`waiters, this`inflight, this`hint
      ensures Linked() && Counted() && notes == RemoveAt(old(notes), i)
    {
      CountRemove(notes, i, NONE);
      CountRemove(notes, i, SIGNAL);
      notes := RemoveAt(notes, i);
      if x == NONE {
        DecWaiters();
      } else if x == SIGNAL {
        DecInflight();
      }
      assert hint != n ==> hint in nodes;
      assert next != null ==> next == nodes[i];
      AdvanceHint(n, next);
    }

    /** Unlink the linked node at ghost position i and settle counters and hint. */
    method Detach(n: Node, ghost i: nat)
      requires Valid() && i < |nodes| && nodes[i] == n
      modifies this, nodes`next, nodes`prev, nodes`inList
      ensures Valid() && nodes == RemoveAt(old(nodes), i) && notes == RemoveAt(old(notes), i)
      ensures !n.inList && n.next == null && n.prev == null
    {
      ghost var was := nodes;
      assert NodeOk(i) && NoteOk(i);
      var x, next := n.notified, n.next;
      Unlink(n, i);
      Settle(n, next, x, i, was);
      forall j | 0 <= j < |nodes| ensures NoteOk(j) {
        assert old(NoteOk(if j < i then j else j + 1));
      }
    }

    /** Unlink a node that may already have been unlinked by another path. */
    method Remove(n: Node)
      requires Valid() && (n.inList <==> n in nodes)
      modifies this, nodes`next, nodes`prev, nodes`inList
      ensures Valid()
      ensures n !in old(nodes) ==> nodes == old(nodes) && notes == old(notes)
      ensures n in old(nodes) ==>
                && nodes == RemoveAt(old(nodes), Index(old(nodes), n))
                && notes == RemoveAt(old(notes), Index(old(nodes), n))
                && !n.inList && n.next == null && n.prev == null
    {
      if n.inList {
        Detach(n, Index(nodes, n));
      } else if head == null {
        waiters := 0;
        hint := null;
      }
    }

    /** Unlink the first node. */
    method UnlinkHead() returns (n: Node)
      requires Linked() && nodes != []
      modifies this`head, this`tail, this`nodes, nodes`next, nodes`prev, nodes`inList
      ensures Linked() && n == old(nodes)[0] && nodes == old(nodes)[1..] && n !in nodes
      ensures n.prev == null && n.next == null && !n.inList
    {
      assert NodeOk(0);
      assert |nodes| > 1 ==> NodeOk(1);
      DistinctRemove(nodes, 0);
      assert RemoveAt(nodes, 0) == nodes[1..];
      forall j | 1 <= j < |nodes| ensures nodes[j] != nodes[0] { DistinctAt(nodes, 0, j); }
      forall j | 2 <= j < |nodes| ensures nodes[j] != nodes[1] { DistinctAt(nodes, 1, j); }
      n := head;
      head := n.next;
      if head != null {
        head.prev := null;
      } else {
        tail := null;
      }
      n.next, n.prev := null, null;
      n.inList := false;
      nodes := nodes[1..];
      forall j | 0 <= j < |nodes| ensures NodeOk(j) {
        assert old(NodeOk(j + 1));
      }
    }

    /** Unlink the first node and settle counters and hint. */
    method DropHead() returns (n: Node)
      requires Valid() && nodes != []
      modifies this, nodes`next, nodes`prev, nodes`inList
      ensures Valid() && n == old(nodes)[0] && nodes == old(nodes)[1..] && notes == old(notes)[1..]
      ensures n !in nodes && !n.inList && n.next == null && n.prev == null
    {
      ghost var was := nodes;
      assert NodeOk(0) && NoteOk(0);
      var x, next := head.notified, head.next;
      n := UnlinkHead();
      assert RemoveAt(was, 0) == nodes && RemoveAt(notes, 0) == notes[1..];
      Settle(n, next, x, 0, was);
      forall j | 0 <= j < |nodes| ensures NoteOk(j) {
        assert old(NoteOk(j + 1));
      }
    }

    /** The first waiter still waiting for data; every node before it is dropped from the list. */
    method PopRecv(stale: set<Node>) returns (r: Node?)
      requires Valid()
      modifies this, nodes`next, nodes`prev, nodes`inList
      ensures Valid()
      ensures var k := FirstWakeable(old(nodes), old(notes), stale, 0);
              if k == |old(nodes)| then r == null && nodes == []
              else r == old(nodes)[k] && !r.inList && nodes == old(nodes)[k + 1..] && notes == old(notes)[k + 1..]
    {
      ghost var k := 0;
      while head != null
        invariant Valid() && k <= |old(nodes)| && nodes == old(nodes)[k..] && notes == old(notes)[k..]
        invariant FirstWakeable(old(nodes), old(notes), stale, 0) == FirstWakeable(old(nodes), old(notes), stale, k)
        decreases |nodes|
      {
        assert NoteOk(0);
        var keep := head.notified == NONE && head !in stale;
        assert keep == Wakeable(old(nodes), old(notes), stale, k);
        r := DropHead();
        if keep {
          return;
        }
        k := k + 1;
      }
      return null;
    }

    /** The round from h with budget k that began with `start` has signaled `got` nodes up to distance d. */
    ghost predicate Sweeping(start: seq<Notify>, stale: set<Node>, h: nat, k: nat, d: nat, got: nat)
      reads this`nodes, this`notes, this`waiters, this`inflight
    {
      && h < |nodes| == |start| && d <= |nodes|
      && Round(nodes, start, stale, h, k, d) == Swept(notes, got, d)
      && waiters == Count(start, NONE) - got && inflight == Count(start, SIGNAL) + got
    }

    /** The node at position i, or null behind the tail. */
    ghost function NodeAt(i: nat): Node?
      reads this`nodes
      requires i <= |nodes|
    {
      if i == |nodes| then null else nodes[i]
    }

    /** Position i belongs to the pass of the round from h that ends at position hi. */
    ghost predicate InPass(h: nat, i: nat, hi: nat)
      reads this`nodes
    {
      h < |nodes| && i <= hi && ((hi == |nodes| && h <= i) || hi == h)
    }

    /** The distance from h of position i in that pass. */
    ghost function Distance(h: nat, i: nat, hi: nat): (d: nat)
      reads this`nodes
      requires InPass(h, i, hi)
      ensures d <= |nodes| && (i < hi ==> d < |nodes| && At(h, d, |nodes|) == i)
    {
      if hi == |nodes| then i - h else i + |nodes| - h
    }

    /** Signal the waiter at position i. */
    method SignalOne(n: Node, ghost i: nat)
      requires Linked() && Noted() && i < |nodes| && n == nodes[i] && waiters > 0
      modifies this`notes, this`waiters, this`inflight, n`notified
      ensures Linked() && Noted() && notes == old(notes)[i := SIGNAL]
      ensures waiters == old(waiters) - 1 && inflight == old(inflight) + 1
    {
      n.notified := SIGNAL;
      notes := notes[i := SIGNAL];
      DecWaiters();
      inflight := inflight + 1;
      forall j | 0 <= j < |nodes| ensures NoteOk(j) {
        assert old(NoteOk(j));
        if j < i { DistinctAt(nodes, j, i); } else if i < j { DistinctAt(nodes, i, j); }
      }
    }

    /** Visit the node at position i: signal it if it is still waiting. */
    method Visit(n: Node, k: nat, before: nat, stale: set<Node>, ghost start: seq<Notify>,
                 ghost h: nat, ghost i: nat, ghost hi: nat) returns (signaled: nat, next: Node?)
      requires Linked() && Noted() && InPass(h, i, hi) && Sweeping(start, stale, h, k, Distance(h, i, hi), before)
      requires before < k && i < hi && n == NodeAt(i)
      modifies this`notes, this`waiters, this`inflight, n`notified
      ensures Linked() && Noted() && InPass(h, i + 1, hi) && next == NodeAt(i + 1)
      ensures Sweeping(start, stale, h, k, Distance(h, i + 1, hi), signaled)
    {
      signaled := before;
      assert NodeOk(i);
      next := n.next;
      assert NoteOk(i);
      RoundVisit(nodes, start, stale, h, k, Distance(h, i, hi), notes, before);
      if n.notified == NONE && n !in stale {
        SignalOne(n, i);
        signaled := signaled + 1;
      }
    }

    /** One pass of the signal loop, from position lo up to position hi; it leaves at `next`, position i. */
    method SignalPass(first: Node, stop: Node?, k: nat, before: nat, stale: set<Node>,
                      ghost start: seq<Notify>, ghost h: nat, ghost lo: nat, ghost hi: nat)
      returns (signaled: nat, next: Node?, ghost i: nat)
      requires Linked() && Noted() && InPass(h, lo, hi) && Sweeping(start, stale, h, k, Distance(h, lo, hi), before)
      requires before < k && lo < hi && first == NodeAt(lo) && stop == NodeAt(hi)
      modifies this`notes, this`waiters, this`inflight, nodes`notified
      ensures Linked() && Noted() && InPass(h, i, hi) && Sweeping(start, stale, h, k, Distance(h, i, hi), signaled)
      ensures next == NodeAt(i) && (signaled < k ==> i == hi)
    {
      signaled, next, i := before, first, lo;
      while next != null && next != stop && signaled < k
        invariant Linked() && Noted() && InPass(h, i, hi) && Sweeping(start, stale, h, k, Distance(h, i, hi), signaled)
        invariant next == NodeAt(i)
        decreases |nodes| - i
      {
        signaled, next := Visit(next, k, signaled, stale, start, h, i, hi);
        i := i + 1;
      }
      if i < hi < |nodes| { DistinctAt(nodes, i, hi); }
    }

    /** The two passes, from `origin` to the tail and from the head to `origin`, make one circular round. */
    method TwoPasses(origin: Node, k: nat, stale: set<Node>, ghost start: seq<Notify>, ghost h: nat)
      returns (signaled: nat, next: Node?, ghost d: nat)
      requires Linked() && Noted() && k > 0 && h < |nodes| && origin == nodes[h]
      requires Sweeping(start, stale, h, k, 0, 0)
      modifies this`notes, this`waiters, this`inflight, nodes`notified
      ensures Linked() && Noted() && Sweeping(start, stale, h, k, d, signaled)
      ensures signaled < k ==> d == |nodes|
      ensures (if next != null then next else head) == nodes[At(h, d, |nodes|)]
    {
      ghost var i := 0;
      if h > 0 { DistinctAt(nodes, 0, h); }
      signaled, next, i := SignalPass(origin, null, k, 0, stale, start, h, h, |nodes|);
      d := Distance(h, i, |nodes|);
      if signaled < k && origin != head {
        signaled, next, i := SignalPass(head, origin, k, signaled, stale, start, h, 0, h);
        d := Distance(h, i, h);
      }
    }

    /** A whole round from the hint; the hint moves behind the last node signaled, or back to the head. */
    method SignalRound(k: nat, stale: set<Node>, ghost h: nat) returns (signaled: nat)
      requires Valid() && k > 0 && h < |nodes| && hint == nodes[h]
      modifies this`notes, this`waiters, this`inflight, this`hint, nodes`notified
      ensures Linked() && Noted()
      ensures var r := Round(nodes, old(notes), stale, h, k, |nodes|);
              && r.notes == notes && r.signaled == signaled
              && hint == if signaled == k then nodes[At(h, r.at, |nodes|)] else nodes[0]
      ensures waiters == old(waiters) - signaled && inflight == old(inflight) + signaled
    {
      var next: Node?;
      ghost var start, d := notes, 0;
      signaled, next, d := TwoPasses(hint, k, stale, start, h);
      if signaled == k { RoundStays(nodes, start, stale, h, k, d, |nodes|); }
      hint := if signaled >= k && next != null then next else head;
    }

    /** Signal up to k waiters: min(k, wakeable) nodes move, and only from NONE to SIGNAL. */
    method SignalWaiters(k: int, stale: set<Node>) returns (signaled: nat)
      requires Valid()
      modifies this`notes, this`waiters, this`inflight, this`hint, nodes`notified
      ensures Valid() && |notes| == |nodes|
      ensures var w := Wakeables(nodes, old(notes), stale, 0, |nodes|);
              && signaled == (if k <= 0 then 0 else if k <= w then k else w)
              && ((forall n | n in nodes :: n !in stale) ==> w == old(waiters))
      ensures waiters == old(waiters) - signaled && inflight == old(inflight) + signaled
      ensures forall j | 0 <= j < |nodes| ::
                notes[j] == old(notes)[j] || (Wakeable(nodes, old(notes), stale, j) && notes[j] == SIGNAL)
      ensures k > 0 && nodes != [] ==>
                var h := Index(nodes, old(hint));
                var r := Round(nodes, old(notes), stale, h, k, |nodes|);
                && notes == r.notes
                && hint == if signaled == k then nodes[At(h, r.at, |nodes|)] else nodes[0]
    {
      if forall n | n in nodes :: n !in stale {
        WakeablesCount(nodes, notes, stale, |nodes|);
        assert notes[..|nodes|] == notes;
      }
      if k <= 0 || head == null {
        return 0;
      }
      ghost var h := Index(nodes, hint);
      RoundTotal(nodes, notes, stale, h, k);
      signaled := SignalRound(k, stale, h);
    }

    /** Unlink the first node, if any, and tell it that the channel is closed. */
    method WakeOneClose(stale: set<Node>)
      requires Valid()
      modifies this, nodes`next, nodes`prev, nodes`inList, nodes`notified
      ensures Valid()
      ensures old(nodes) == [] ==> nodes == [] && notes == []
      ensures old(nodes) != [] ==>
                && nodes == old(nodes)[1..] && notes == old(notes)[1..]
                && Told(old(nodes)[0], stale, old(notes)[0])
    {
      if head == null {
        return;
      }
      assert NoteOk(0);
      var n := DropHead();
      label dropped:
      if n !in stale {
        n.notified := CLOSE;
      }
      forall j | 0 <= j < |nodes| ensures NoteOk(j) {
        assert old@dropped(NoteOk(j));
      }
    }

    /** Close: every waiter is unlinked and, unless its ticket is stale, told so. */
    method WakeAll(stale: set<Node>)
      requires Valid()
      modifies this, nodes
      ensures Valid() && nodes == [] && hint == null && waiters == 0 && inflight == 0
      ensures forall i | 0 <= i < |old(nodes)| == |old(notes)| :: Told(old(nodes)[i], stale, old(notes)[i])
    {
      ghost var k, all := 0, nodes;
      while head != null
        invariant Valid() && k <= |all| && nodes == all[k..] && notes == old(notes)[k..]
        invariant forall i | 0 <= i < k :: Told(all[i], stale, old(notes)[i])
        decreases |nodes|
      {
        forall i | 0 <= i < k ensures all[i] !in nodes {
          forall j | 0 <= j < |nodes| ensures nodes[j] != all[i] { DistinctAt(all, i, k + j); }
        }
        WakeOneClose(stale);
        k := k + 1;
      }
    }
  }
}
