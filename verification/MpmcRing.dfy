/**
The bounded multi-producer multi-consumer ring behind buffered channels, as a labelled
transition system: any number of threads interleave single atomic loads, compare-and-swaps and
stores.  One action is one atomic access of one thread.

Positions are unbounded naturals.  `puts`, `takes` and `got` are histories that no step reads.
*/
module MpmcRing {
  import opened Slots

  type Value = int

  /** One ring cell: its sequence number and its payload. */
  datatype Cell = Cell(stamp: nat, value: Value)

  /** What a failed dequeue returns to: a plain receive, or one of the two probes of the resolver. */
  datatype Caller = Plain | Probe | Recheck

  /** Which pair of tail/head loads of the resolver is being made. */
  datatype Sample = First | Confirm

  /** The next atomic access of a thread. */
  datatype Pc =
    | Idle
    | EnqTail(v: Value)                  // load tail
    | EnqSeq(v: Value, pos: nat)         // load the sequence number of the cell of pos
    | EnqCas(v: Value, pos: nat)         // compare-and-swap tail from pos to pos + 1
    | EnqWrite(v: Value, pos: nat)       // store the payload
    | EnqPublish(v: Value, pos: nat)     // store sequence number pos + 1
    | DeqHead(k: Caller)                 // load head
    | DeqSeq(k: Caller, pos: nat)
    | DeqCas(k: Caller, pos: nat)
    | DeqRead(k: Caller, pos: nat)       // load the payload
    | DeqRelease(k: Caller, pos: nat, v: Value) // store sequence number pos + cap
    | ResTail(s: Sample)                 // resolver: load tail
    | ResHead(s: Sample, t: nat)         // resolver: load head and compare with the tail seen
    | ResClosed(t: nat)                  // resolver returns the close error; t is its last tail load

  /** A producer's claim of a position with its value; a consumer's claim of a position. */
  datatype Put = Put(tid: nat, pos: nat, v: Value)
  datatype Take = Take(tid: nat, pos: nat)

  datatype Ring = Ring(
    cap: nat,
    cells: seq<Cell>,
    head: nat,
    tail: nat,
    th: seq<Pc>,
    turn: seq<nat>,        // history: the position whose turn it is in each cell
    puts: seq<Put>,        // history: producer claims in claim order
    takes: seq<Take>,      // history: consumer claims in claim order
    got: map<nat, Value>)  // history: what the consumer of a position read

  /** The nondeterminism of a step: which operation an idle thread starts, whether the weak
      compare-and-swap fails spuriously, whether the resolver gives up (poll or deadline). */
  datatype Choice = Send(v: Value) | Receive | Resolve | Go | Fail | GiveUp

  datatype Act = Act(t: nat, c: Choice)

  function Init(cap: nat, threads: nat): Ring {
    Ring(cap, seq(cap, i requires 0 <= i < cap => Cell(i, 0)), 0, 0, seq(threads, i => Idle),
         seq(cap, i requires 0 <= i < cap => i), [], [], map[])
  }

  predicate Shape(s: Ring) {
    s.cap >= 2 && |s.cells| == s.cap && |s.turn| == s.cap
  }

  function At(s: Ring, t: nat, pc: Pc): Ring
    requires t < |s.th|
  {
    s.(th := s.th[t := pc])
  }

  function SetStamp(s: Ring, pos: nat, n: nat): Ring
    requires Shape(s)
  {
    var i := Slot(pos, s.cap);
    s.(cells := s.cells[i := Cell(n, s.cells[i].value)])
  }

  function Stamp(s: Ring, pos: nat): nat
    requires Shape(s)
  {
    s.cells[Slot(pos, s.cap)].stamp
  }

  /** Where a dequeue that found the ring empty continues. */
  function AfterEmpty(k: Caller): Pc {
    match k
    case Plain => Idle
    case Probe => ResTail(First)
    case Recheck => ResTail(Confirm)
  }

  /** One atomic access by thread a.t. */
  function Step(s: Ring, a: Act): (r: Ring)
    requires Shape(s)
    ensures Shape(r) && r.cap == s.cap && |r.th| == |s.th|
  {
    if a.t >= |s.th| then s else
    match s.th[a.t]
    case Idle =>
      (match a.c
       case Send(v) => At(s, a.t, EnqTail(v))
       case Receive => At(s, a.t, DeqHead(Plain))
       case Resolve => At(s, a.t, DeqHead(Probe))
       case _ => s)
    case EnqTail(v) => At(s, a.t, EnqSeq(v, s.tail))
    case EnqSeq(v, pos) => EnqSeqStep(s, a.t, v, pos)
    case EnqCas(v, pos) => EnqCasStep(s, a, v, pos)
    case EnqWrite(v, pos) => EnqWriteStep(s, a.t, v, pos)
    case EnqPublish(v, pos) => At(SetStamp(s, pos, pos + 1), a.t, Idle)
    case DeqHead(k) => At(s, a.t, DeqSeq(k, s.head))
    case DeqSeq(k, pos) => DeqSeqStep(s, a.t, k, pos)
    case DeqCas(k, pos) => DeqCasStep(s, a, k, pos)
    case DeqRead(k, pos) => DeqReadStep(s, a.t, k, pos)
    case DeqRelease(k, pos, v) => DeqReleaseStep(s, a.t, pos)
    case ResTail(m) => At(s, a.t, ResHead(m, s.tail))
    case ResHead(m, t) => ResHeadStep(s, a, m, t)
    case ResClosed(_) => At(s, a.t, Idle)
  }

  function EnqSeqStep(s: Ring, t: nat, v: Value, pos: nat): Ring
    requires Shape(s) && t < |s.th|
  {
    var n := Stamp(s, pos);
    if n == pos then At(s, t, EnqCas(v, pos))
    else if n < pos then At(s, t, Idle)       // full
    else At(s, t, EnqTail(v))
  }

  function EnqCasStep(s: Ring, a: Act, v: Value, pos: nat): Ring
    requires Shape(s) && a.t < |s.th|
  {
    if s.tail == pos && a.c != Fail then
      At(s, a.t, EnqWrite(v, pos)).(tail := pos + 1, puts := s.puts + [Put(a.t, pos, v)])
    else At(s, a.t, EnqSeq(v, s.tail))
  }

  function EnqWriteStep(s: Ring, t: nat, v: Value, pos: nat): Ring
    requires Shape(s) && t < |s.th|
  {
    var i := Slot(pos, s.cap);
    At(s, t, EnqPublish(v, pos)).(cells := s.cells[i := Cell(s.cells[i].stamp, v)])
  }

  function DeqSeqStep(s: Ring, t: nat, k: Caller, pos: nat): Ring
    requires Shape(s) && t < |s.th|
  {
    var n := Stamp(s, pos);
    if n == pos + 1 then At(s, t, DeqCas(k, pos))
    else if n < pos + 1 then At(s, t, AfterEmpty(k))
    else At(s, t, DeqHead(k))
  }

  function DeqCasStep(s: Ring, a: Act, k: Caller, pos: nat): Ring
    requires Shape(s) && a.t < |s.th|
  {
    if s.head == pos && a.c != Fail then
      At(s, a.t, DeqRead(k, pos)).(head := pos + 1, takes := s.takes + [Take(a.t, pos)])
    else At(s, a.t, DeqSeq(k, s.head))
  }

  function DeqReadStep(s: Ring, t: nat, k: Caller, pos: nat): Ring
    requires Shape(s) && t < |s.th|
  {
    var v := s.cells[Slot(pos, s.cap)].value;
    At(s, t, DeqRelease(k, pos, v)).(got := s.got[pos := v])
  }

  function DeqReleaseStep(s: Ring, t: nat, pos: nat): Ring
    requires Shape(s) && t < |s.th|
  {
    var i := Slot(pos, s.cap);
    At(SetStamp(s, pos, pos + s.cap), t, Idle).(turn := s.turn[i := pos + s.cap])
  }

  /** Equal samples lead to the recheck, or to the close error when they are the confirming pair;
      after unequal ones the resolver tries again or, polling or past its deadline, gives up. */
  function ResHeadStep(s: Ring, a: Act, m: Sample, t: nat): Ring
    requires Shape(s) && a.t < |s.th|
  {
    if t == s.head then
      (match m
       case First => At(s, a.t, DeqHead(Recheck))
       case Confirm => At(s, a.t, ResClosed(t)))
    else if a.c == GiveUp then At(s, a.t, Idle)
    else At(s, a.t, DeqHead(Probe))
  }

  function Run(s: Ring, acts: seq<Act>): Ring
    requires Shape(s)
    ensures Shape(Run(s, acts))
  {
    if acts == [] then s else Step(Run(s, acts[..|acts| - 1]), acts[|acts| - 1])
  }

  // ---------------------------------------------------------------- invariant

  predicate Writing(pc: Pc, pos: nat) {
    (pc.EnqWrite? || pc.EnqPublish?) && pc.pos == pos
  }

  predicate Reading(pc: Pc, pos: nat) {
    (pc.DeqRead? || pc.DeqRelease?) && pc.pos == pos
  }

  /** The thread has claimed a position and not yet handed its cell on. */
  predicate HoldsPosition(pc: Pc) {
    pc.EnqWrite? || pc.EnqPublish? || pc.DeqRead? || pc.DeqRelease?
  }

  predicate LogInv(s: Ring) {
    && s.head <= s.tail && |s.puts| == s.tail && |s.takes| == s.head
    && (forall p | 0 <= p < s.tail :: s.puts[p].pos == p && s.puts[p].tid < |s.th|)
    && (forall p | 0 <= p < s.head :: s.takes[p].pos == p && s.takes[p].tid < |s.th|)
  }

  /** A cell is free or being written (stamp == turn), or holds a value (stamp == turn + 1). */
  predicate CellInv(s: Ring, i: nat)
    requires Shape(s) && LogInv(s) && i < s.cap
  {
    var p, c := s.turn[i], s.cells[i];
    && Slot(p, s.cap) == i
    && p < s.head + s.cap && s.tail <= p + s.cap
    && (c.stamp == p || c.stamp == p + 1)
    && (c.stamp == p ==> s.head <= p && (p < s.tail ==> Writing(s.th[s.puts[p].tid], p)))
    && (c.stamp == p + 1 ==>
          p < s.tail && c.value == s.puts[p].v && (p < s.head ==> Reading(s.th[s.takes[p].tid], p)))
  }

  /** Position pos owns its cell and the cell carries sequence number n. */
  predicate Owns(s: Ring, pos: nat, n: nat)
    requires Shape(s)
  {
    var i := Slot(pos, s.cap);
    s.turn[i] == pos && s.cells[i].stamp == n
  }

  predicate ThreadInv(s: Ring, t: nat)
    requires Shape(s) && LogInv(s) && t < |s.th|
  {
    match s.th[t]
    case EnqSeq(v, pos) => pos <= s.tail
    case EnqCas(v, pos) => pos <= s.tail && (pos == s.tail ==> Owns(s, pos, pos))
    case EnqWrite(v, pos) => pos < s.tail && s.puts[pos] == Put(t, pos, v) && Owns(s, pos, pos)
    case EnqPublish(v, pos) =>
      && pos < s.tail && s.puts[pos] == Put(t, pos, v) && Owns(s, pos, pos)
      && s.cells[Slot(pos, s.cap)].value == v
    case DeqSeq(_, pos) => pos <= s.head
    case DeqCas(_, pos) => pos <= s.head && (pos == s.head ==> Owns(s, pos, pos + 1))
    case DeqRead(_, pos) => pos < s.head && s.takes[pos].tid == t && Owns(s, pos, pos + 1)
    case DeqRelease(_, pos, v) =>
      && pos < s.head && s.takes[pos].tid == t && Owns(s, pos, pos + 1)
      && v == s.puts[pos].v && pos in s.got
    case ResHead(_, tl) => tl <= s.tail
    case ResClosed(tl) => tl <= s.head
    case _ => true
  }

  /** What has been read is what was put; what is claimed and not yet read is being read. */
  predicate GotInv(s: Ring)
    requires LogInv(s)
  {
    && (forall p | p in s.got :: p < s.head && s.got[p] == s.puts[p].v)
    && (forall p | 0 <= p < s.head && p !in s.got :: s.th[s.takes[p].tid].DeqRead? && s.th[s.takes[p].tid].pos == p)
  }

  predicate Inv(s: Ring) {
    && Shape(s) && LogInv(s) && GotInv(s)
    && (forall i | 0 <= i < s.cap :: CellInv(s, i))
    && (forall t | 0 <= t < |s.th| :: ThreadInv(s, t))
  }

  /** The parts of the invariant about the histories, one cell and one thread. */
  predicate BaseOk(s: Ring) {
    Shape(s) && LogInv(s) && GotInv(s)
  }

  predicate CellOk(s: Ring, i: nat) {
    Shape(s) && LogInv(s) && i < s.cap && CellInv(s, i)
  }

  predicate ThreadOk(s: Ring, t: nat) {
    Shape(s) && LogInv(s) && t < |s.th| && ThreadInv(s, t)
  }

  lemma InitInv(cap: nat, threads: nat)
    requires cap >= 2
    ensures Inv(Init(cap, threads))
  {
  }

  // ---------------------------------------------------------------- preservation

  /** A thread that owns no position moves without touching the ring. */
  lemma MoveInv(s: Ring, t: nat, pc: Pc)
    requires Inv(s) && t < |s.th|
    requires !HoldsPosition(s.th[t])
    requires ThreadInv(At(s, t, pc), t)
    ensures Inv(At(s, t, pc))
  {
    var s' := At(s, t, pc);
    forall j | 0 <= j < s.cap ensures CellInv(s', j) {
      assert CellInv(s, j);
    }
    forall u | 0 <= u < |s.th| ensures ThreadInv(s', u) {
      assert ThreadInv(s, u);
    }
  }

  /** Thread t is about to take the step that pc stands for. */
  predicate Poised(s: Ring, t: nat, pc: Pc) {
    Inv(s) && t < |s.th| && s.th[t] == pc
  }

  lemma EnqSeqInv(s: Ring, t: nat, v: Value, pos: nat)
    requires Poised(s, t, EnqSeq(v, pos))
    ensures Inv(EnqSeqStep(s, t, v, pos))
  {
    var i := Slot(pos, s.cap);
    assert CellInv(s, i) && ThreadInv(s, t);
    SameSlot(s.turn[i], pos, s.cap);
    MoveInv(s, t, EnqSeqStep(s, t, v, pos).th[t]);
  }

  lemma DeqSeqInv(s: Ring, t: nat, k: Caller, pos: nat)
    requires Poised(s, t, DeqSeq(k, pos))
    ensures Inv(DeqSeqStep(s, t, k, pos))
  {
    var i := Slot(pos, s.cap);
    assert CellInv(s, i) && ThreadInv(s, t);
    SameSlot(s.turn[i], pos, s.cap);
    MoveInv(s, t, DeqSeqStep(s, t, k, pos).th[t]);
  }

  /** A successful claim by a producer. */
  lemma EnqClaimInv(s: Ring, a: Act, v: Value)
    requires Poised(s, a.t, EnqCas(v, s.tail)) && a.c != Fail
    ensures Inv(EnqCasStep(s, a, v, s.tail))
  {
    var s' := EnqCasStep(s, a, v, s.tail);
    assert BaseOk(s') by { assert ThreadInv(s, a.t); }
    forall j | 0 <= j < s.cap ensures CellInv(s', j) { EnqClaimCell(s, a, v, j); }
    forall u | 0 <= u < |s'.th| ensures ThreadInv(s', u) { EnqClaimThread(s, a, v, u); }
  }

  lemma EnqClaimCell(s: Ring, a: Act, v: Value, j: nat)
    requires Poised(s, a.t, EnqCas(v, s.tail)) && a.c != Fail && j < s.cap
    ensures CellOk(EnqCasStep(s, a, v, s.tail), j)
  {
    assert ThreadInv(s, a.t) && CellInv(s, j);
    EnqBound(s, j);
  }

  lemma EnqClaimThread(s: Ring, a: Act, v: Value, u: nat)
    requires Poised(s, a.t, EnqCas(v, s.tail)) && a.c != Fail && u < |s.th|
    ensures ThreadOk(EnqCasStep(s, a, v, s.tail), u)
  {
    assert ThreadInv(s, a.t) && ThreadInv(s, u);
  }

  /** A free cell at the tail leaves room for one more claim in every cell. */
  lemma EnqBound(s: Ring, j: nat)
    requires Inv(s) && j < s.cap && Owns(s, s.tail, s.tail)
    ensures s.tail + 1 <= s.turn[j] + s.cap
  {
    assert CellInv(s, j);
    SlotNext(s.turn[j], s.cap);
  }

  lemma EnqWriteInv(s: Ring, t: nat, v: Value, pos: nat)
    requires Poised(s, t, EnqWrite(v, pos))
    ensures Inv(EnqWriteStep(s, t, v, pos))
  {
    var s' := EnqWriteStep(s, t, v, pos);
    assert BaseOk(s') by { assert ThreadInv(s, t); }
    forall j | 0 <= j < s.cap ensures CellInv(s', j) { EnqWriteCell(s, t, v, pos, j); }
    forall u | 0 <= u < |s'.th| ensures ThreadInv(s', u) { EnqWriteThread(s, t, v, pos, u); }
  }

  lemma EnqWriteCell(s: Ring, t: nat, v: Value, pos: nat, j: nat)
    requires Poised(s, t, EnqWrite(v, pos)) && j < s.cap
    ensures CellOk(EnqWriteStep(s, t, v, pos), j)
  {
    assert ThreadInv(s, t) && CellInv(s, j);
  }

  lemma EnqWriteThread(s: Ring, t: nat, v: Value, pos: nat, u: nat)
    requires Poised(s, t, EnqWrite(v, pos)) && u < |s.th|
    ensures ThreadOk(EnqWriteStep(s, t, v, pos), u)
  {
    assert ThreadInv(s, t) && ThreadInv(s, u);
  }

  lemma EnqPublishInv(s: Ring, t: nat, v: Value, pos: nat)
    requires Poised(s, t, EnqPublish(v, pos))
    ensures Inv(At(SetStamp(s, pos, pos + 1), t, Idle))
  {
    var s' := At(SetStamp(s, pos, pos + 1), t, Idle);
    assert BaseOk(s') by { assert ThreadInv(s, t); assert CellInv(s, Slot(pos, s.cap)); }
    forall j | 0 <= j < s.cap ensures CellInv(s', j) { EnqPublishCell(s, t, v, pos, j); }
    forall u | 0 <= u < |s'.th| ensures ThreadInv(s', u) { EnqPublishThread(s, t, v, pos, u); }
  }

  lemma EnqPublishCell(s: Ring, t: nat, v: Value, pos: nat, j: nat)
    requires Poised(s, t, EnqPublish(v, pos)) && j < s.cap
    ensures CellOk(At(SetStamp(s, pos, pos + 1), t, Idle), j)
  {
    assert ThreadInv(s, t) && CellInv(s, j);
    assert CellInv(s, Slot(pos, s.cap));
  }

  lemma EnqPublishThread(s: Ring, t: nat, v: Value, pos: nat, u: nat)
    requires Poised(s, t, EnqPublish(v, pos)) && u < |s.th|
    ensures ThreadOk(At(SetStamp(s, pos, pos + 1), t, Idle), u)
  {
    assert ThreadInv(s, t) && ThreadInv(s, u);
    assert CellInv(s, Slot(pos, s.cap));
  }

  /** A successful claim by a consumer. */
  lemma DeqClaimInv(s: Ring, a: Act, k: Caller)
    requires Poised(s, a.t, DeqCas(k, s.head)) && a.c != Fail
    ensures Inv(DeqCasStep(s, a, k, s.head))
  {
    var s' := DeqCasStep(s, a, k, s.head);
    assert BaseOk(s') by { assert ThreadInv(s, a.t); assert CellInv(s, Slot(s.head, s.cap)); }
    forall j | 0 <= j < s.cap ensures CellInv(s', j) { DeqClaimCell(s, a, k, j); }
    forall u | 0 <= u < |s'.th| ensures ThreadInv(s', u) { DeqClaimThread(s, a, k, u); }
  }

  lemma DeqClaimCell(s: Ring, a: Act, k: Caller, j: nat)
    requires Poised(s, a.t, DeqCas(k, s.head)) && a.c != Fail && j < s.cap
    ensures CellOk(DeqCasStep(s, a, k, s.head), j)
  {
    assert ThreadInv(s, a.t) && CellInv(s, j);
    assert CellInv(s, Slot(s.head, s.cap));
  }

  lemma DeqClaimThread(s: Ring, a: Act, k: Caller, u: nat)
    requires Poised(s, a.t, DeqCas(k, s.head)) && a.c != Fail && u < |s.th|
    ensures ThreadOk(DeqCasStep(s, a, k, s.head), u)
  {
    assert ThreadInv(s, a.t) && ThreadInv(s, u);
    assert CellInv(s, Slot(s.head, s.cap));
  }

  lemma DeqReadInv(s: Ring, t: nat, k: Caller, pos: nat)
    requires Poised(s, t, DeqRead(k, pos))
    ensures Inv(DeqReadStep(s, t, k, pos))
  {
    var s' := DeqReadStep(s, t, k, pos);
    assert BaseOk(s') by { assert ThreadInv(s, t); assert CellInv(s, Slot(pos, s.cap)); }
    forall j | 0 <= j < s.cap ensures CellInv(s', j) { DeqReadCell(s, t, k, pos, j); }
    forall u | 0 <= u < |s'.th| ensures ThreadInv(s', u) { DeqReadThread(s, t, k, pos, u); }
  }

  lemma DeqReadCell(s: Ring, t: nat, k: Caller, pos: nat, j: nat)
    requires Poised(s, t, DeqRead(k, pos)) && j < s.cap
    ensures CellOk(DeqReadStep(s, t, k, pos), j)
  {
    assert ThreadInv(s, t) && CellInv(s, j);
    assert CellInv(s, Slot(pos, s.cap));
  }

  lemma DeqReadThread(s: Ring, t: nat, k: Caller, pos: nat, u: nat)
    requires Poised(s, t, DeqRead(k, pos)) && u < |s.th|
    ensures ThreadOk(DeqReadStep(s, t, k, pos), u)
  {
    assert ThreadInv(s, t) && ThreadInv(s, u);
    assert CellInv(s, Slot(pos, s.cap));
  }

  lemma DeqReleaseInv(s: Ring, t: nat, k: Caller, pos: nat, v: Value)
    requires Poised(s, t, DeqRelease(k, pos, v))
    ensures Inv(DeqReleaseStep(s, t, pos))
  {
    var s' := DeqReleaseStep(s, t, pos);
    assert BaseOk(s') by { assert ThreadInv(s, t); assert CellInv(s, Slot(pos, s.cap)); SlotNext(pos, s.cap); }
    forall j | 0 <= j < s.cap ensures CellInv(s', j) { DeqReleaseCell(s, t, k, pos, v, j); }
    forall u | 0 <= u < |s'.th| ensures ThreadInv(s', u) { DeqReleaseThread(s, t, k, pos, v, u); }
  }

  lemma DeqReleaseCell(s: Ring, t: nat, k: Caller, pos: nat, v: Value, j: nat)
    requires Poised(s, t, DeqRelease(k, pos, v)) && j < s.cap
    ensures CellOk(DeqReleaseStep(s, t, pos), j)
  {
    assert ThreadInv(s, t) && CellInv(s, j);
    assert CellInv(s, Slot(pos, s.cap));
    SlotNext(pos, s.cap);
  }

  lemma DeqReleaseThread(s: Ring, t: nat, k: Caller, pos: nat, v: Value, u: nat)
    requires Poised(s, t, DeqRelease(k, pos, v)) && u < |s.th|
    ensures ThreadOk(DeqReleaseStep(s, t, pos), u)
  {
    assert ThreadInv(s, t) && ThreadInv(s, u);
    assert CellInv(s, Slot(pos, s.cap));
    SlotNext(pos, s.cap);
  }

  predicate Quiet(pc: Pc) {
    pc.Idle? || pc.EnqTail? || pc.DeqHead? || pc.ResTail? || pc.ResHead? || pc.ResClosed?
  }

  /** Steps that only load, or that start or finish an operation. */
  lemma QuietInv(s: Ring, a: Act)
    requires Inv(s) && a.t < |s.th| && Quiet(s.th[a.t])
    ensures Inv(Step(s, a))
  {
    assert ThreadInv(s, a.t);
    MoveInv(s, a.t, Step(s, a).th[a.t]);
  }

  predicate Producing(pc: Pc) {
    pc.EnqSeq? || pc.EnqCas? || pc.EnqWrite? || pc.EnqPublish?
  }

  lemma ProducerInv(s: Ring, a: Act)
    requires Inv(s) && a.t < |s.th| && Producing(s.th[a.t])
    ensures Inv(Step(s, a))
  {
    match s.th[a.t]
    case EnqSeq(v, pos) => EnqSeqInv(s, a.t, v, pos);
    case EnqCas(v, pos) =>
      if s.tail == pos && a.c != Fail { EnqClaimInv(s, a, v); } else { MoveInv(s, a.t, EnqSeq(v, s.tail)); }
    case EnqWrite(v, pos) => EnqWriteInv(s, a.t, v, pos);
    case EnqPublish(v, pos) => EnqPublishInv(s, a.t, v, pos);
  }

  lemma ConsumerInv(s: Ring, a: Act)
    requires Inv(s) && a.t < |s.th| && !Producing(s.th[a.t]) && !Quiet(s.th[a.t])
    ensures Inv(Step(s, a))
  {
    match s.th[a.t]
    case DeqSeq(k, pos) => DeqSeqInv(s, a.t, k, pos);
    case DeqCas(k, pos) =>
      if s.head == pos && a.c != Fail { DeqClaimInv(s, a, k); } else { MoveInv(s, a.t, DeqSeq(k, s.head)); }
    case DeqRead(k, pos) => DeqReadInv(s, a.t, k, pos);
    case DeqRelease(k, pos, v) => DeqReleaseInv(s, a.t, k, pos, v);
  }

  lemma StepInv(s: Ring, a: Act)
    requires Inv(s)
    ensures Inv(Step(s, a))
  {
    if a.t < |s.th| {
      if Producing(s.th[a.t]) {
        ProducerInv(s, a);
      } else if Quiet(s.th[a.t]) {
        QuietInv(s, a);
      } else {
        ConsumerInv(s, a);
      }
    }
  }

  lemma {:induction false} RunInv(s: Ring, acts: seq<Act>)
    requires Inv(s)
    ensures Inv(Run(s, acts))
  {
    if acts != [] {
      RunInv(s, acts[..|acts| - 1]);
      StepInv(Run(s, acts[..|acts| - 1]), acts[|acts| - 1]);
    }
  }

  // ---------------------------------------------------------------- what every run guarantees

  function Values(puts: seq<Put>): (vs: seq<Value>)
    ensures |vs| == |puts|
    ensures forall p | 0 <= p < |puts| :: vs[p] == puts[p].v
  {
    seq(|puts|, p requires 0 <= p < |puts| => puts[p].v)
  }

  /** The abstract queue: claimed by a producer, not yet claimed by a consumer, in claim order. */
  function Contents(s: Ring): (q: seq<Value>)
    requires LogInv(s)
  {
    Values(s.puts)[s.head..]
  }

  /** Reached by some interleaving of some number of threads on a ring of some capacity. */
  ghost predicate Reachable(s: Ring) {
    exists cap: nat, threads: nat, acts: seq<Act> :: cap >= 2 && s == Run(Init(cap, threads), acts)
  }

  lemma ReachableInv(s: Ring)
    requires Reachable(s)
    ensures Inv(s)
  {
    var cap: nat, threads: nat, acts: seq<Act> :| cap >= 2 && s == Run(Init(cap, threads), acts);
    InitInv(cap, threads);
    RunInv(Init(cap, threads), acts);
  }

  lemma BoundedByCap(s: Ring)
    requires Inv(s)
    ensures s.head <= s.tail <= s.head + s.cap
    ensures |Contents(s)| <= s.cap
  {
    var i := Slot(s.head, s.cap);
    assert CellInv(s, i);
    SameSlot(s.turn[i], s.head, s.cap);
  }

  /** Every interleaving: positions are claimed once per side and in order, the consumer that
      claimed position p reads exactly what the producer that claimed p put there, and a claimed
      position that has not been read has its one consumer just about to read it. */
  lemma ClaimsMatch(s: Ring)
    requires Reachable(s)
    ensures LogInv(s) && s.tail <= s.head + s.cap
    ensures forall p | p in s.got :: p < s.head && s.got[p] == s.puts[p].v
    ensures forall p | 0 <= p < s.head && p !in s.got ::
              s.th[s.takes[p].tid].DeqRead? && s.th[s.takes[p].tid].pos == p
  {
    ReachableInv(s);
    BoundedByCap(s);
  }

  /** The first k positions have been read. */
  predicate ReadUpTo(s: Ring, k: nat) {
    forall p | 0 <= p < k :: p in s.got
  }

  /** What the consumers of the first k positions read. */
  function Taken(s: Ring, k: nat): seq<Value>
    requires ReadUpTo(s, k)
  {
    seq(k, p requires 0 <= p < k => s.got[p])
  }

  /** The values taken, in claim order up to the first position that is claimed and not yet read, are
      a prefix of the values put, in claim order. */
  lemma TakenIsPrefix(s: Ring, k: nat)
    requires Reachable(s) && ReadUpTo(s, k)
    ensures Taken(s, k) <= Values(s.puts)
  {
    ClaimsMatch(s);
    if k > 0 { assert k - 1 in s.got; }
  }

  /** Refinement: every step leaves the abstract queue alone, appends the value of a producer to a
      queue that is not full, or removes the front, which is then what that consumer reads. */
  lemma RefinesFifo(s: Ring, a: Act)
    requires Inv(s)
    ensures Inv(Step(s, a))
    ensures var s' := Step(s, a);
      || Contents(s') == Contents(s)
      || (&& a.t < |s.th| && s.th[a.t].EnqCas? && |Contents(s)| < s.cap
          && Contents(s') == Contents(s) + [s.th[a.t].v])
      || (&& a.t < |s.th| && s.th[a.t].DeqCas? && Contents(s) != []
          && Contents(s') == Contents(s)[1..]
          && s'.th[a.t].DeqRead? && s'.puts[s'.th[a.t].pos].v == Contents(s)[0])
  {
    StepInv(s, a);
    var s' := Step(s, a);
    BoundedByCap(s');
    if s'.tail != s.tail || s'.head != s.head { assert ThreadInv(s, a.t); }
  }

  /** Full is reported exactly when the position loaded is still the tail and its cell is still held
      by the position one lap back; if a consumer has claimed that one, it has not yet released it. */
  lemma FullIsExact(s: Ring, t: nat, v: Value, pos: nat)
    requires Poised(s, t, EnqSeq(v, pos))
    ensures Step(s, Act(t, Go)).th[t] == Idle <==>
              pos == s.tail && s.tail >= s.cap && s.turn[Slot(s.tail, s.cap)] == s.tail - s.cap
    ensures Step(s, Act(t, Go)).th[t] == Idle && s.tail < s.head + s.cap ==>
              Reading(s.th[s.takes[s.tail - s.cap].tid], s.tail - s.cap)
  {
    var i := Slot(pos, s.cap);
    assert ThreadInv(s, t) && CellInv(s, i);
    SameSlot(s.turn[i], pos, s.cap);
  }

  /** Empty is reported exactly when the position loaded is still the head and no producer has
      published it: none has claimed it, or the one that did is still writing. */
  lemma EmptyIsExact(s: Ring, t: nat, k: Caller, pos: nat)
    requires Poised(s, t, DeqSeq(k, pos))
    ensures Step(s, Act(t, Go)).th[t] == AfterEmpty(k) <==>
              pos == s.head && (s.head < s.tail ==> Writing(s.th[s.puts[s.head].tid], s.head))
  {
    var i := Slot(pos, s.cap);
    assert ThreadInv(s, t) && CellInv(s, i);
    SameSlot(s.turn[i], pos, s.cap);
    var j := Slot(s.head, s.cap);
    assert CellInv(s, j);
    if s.head < s.tail { assert ThreadInv(s, s.puts[s.head].tid); }
  }

  // ---------------------------------------------------------------- from the calls to the values

  predicate Sending(pc: Pc) {
    pc.EnqTail? || pc.EnqSeq? || pc.EnqCas? || pc.EnqWrite? || pc.EnqPublish?
  }

  /** Thread t begins to send v. */
  predicate Begins(s: Ring, a: Act, t: nat) {
    a.t == t < |s.th| && s.th[t] == Idle && a.c.Send?
  }

  /** The value of the latest send that thread t has begun. */
  function LastSent(s: Ring, acts: seq<Act>, t: nat): Value
    requires Shape(s)
  {
    if acts == [] then 0
    else
      var k := |acts| - 1;
      if Begins(Run(s, acts[..k]), acts[k], t) then acts[k].c.v else LastSent(s, acts[..k], t)
  }

  /** The values of the calls that have claimed a position, in claim order. */
  function Sent(s: Ring, acts: seq<Act>): seq<Value>
    requires Shape(s)
  {
    if acts == [] then []
    else
      var k := |acts| - 1;
      if Run(s, acts).tail == Run(s, acts[..k]).tail then Sent(s, acts[..k])
      else Sent(s, acts[..k]) + [LastSent(s, acts[..k], acts[k].t)]
  }

  /** A thread that sends carries the value of its call along, and claims with it. */
  lemma CarryStep(s: Ring, a: Act, t: nat)
    requires Shape(s) && t < |s.th|
    ensures var s' := Step(s, a);
      && (Sending(s'.th[t]) ==> if Begins(s, a, t) then s'.th[t].v == a.c.v
                                else Sending(s.th[t]) && s'.th[t].v == s.th[t].v)
  {
    if a.t < |s.th| {
      match s.th[a.t]
      case EnqSeq(v, pos) => assert Step(s, a) == EnqSeqStep(s, a.t, v, pos);
      case EnqCas(v, pos) => assert Step(s, a) == EnqCasStep(s, a, v, pos);
      case EnqWrite(v, pos) => assert Step(s, a) == EnqWriteStep(s, a.t, v, pos);
      case DeqSeq(k, pos) => assert Step(s, a) == DeqSeqStep(s, a.t, k, pos);
      case DeqCas(k, pos) => assert Step(s, a) == DeqCasStep(s, a, k, pos);
      case DeqRead(k, pos) => assert Step(s, a) == DeqReadStep(s, a.t, k, pos);
      case DeqRelease(_, pos, _) => assert Step(s, a) == DeqReleaseStep(s, a.t, pos);
      case ResHead(m, n) => assert Step(s, a) == ResHeadStep(s, a, m, n);
      case _ =>
    }
  }

  lemma ClaimStep(s: Ring, a: Act)
    requires Shape(s)
    ensures var s' := Step(s, a);
      if s'.tail == s.tail then s'.puts == s.puts
      else a.t < |s.th| && Sending(s.th[a.t]) && s'.puts == s.puts + [Put(a.t, s.tail, s.th[a.t].v)]
  {
    if a.t < |s.th| {
      match s.th[a.t]
      case EnqSeq(v, pos) => assert Step(s, a) == EnqSeqStep(s, a.t, v, pos);
      case EnqCas(v, pos) => assert Step(s, a) == EnqCasStep(s, a, v, pos);
      case EnqWrite(v, pos) => assert Step(s, a) == EnqWriteStep(s, a.t, v, pos);
      case DeqSeq(k, pos) => assert Step(s, a) == DeqSeqStep(s, a.t, k, pos);
      case DeqCas(k, pos) => assert Step(s, a) == DeqCasStep(s, a, k, pos);
      case DeqRead(k, pos) => assert Step(s, a) == DeqReadStep(s, a.t, k, pos);
      case DeqRelease(_, pos, _) => assert Step(s, a) == DeqReleaseStep(s, a.t, pos);
      case ResHead(m, n) => assert Step(s, a) == ResHeadStep(s, a, m, n);
      case _ =>
    }
  }

  lemma {:induction false} CarryRun(cap: nat, threads: nat, acts: seq<Act>, t: nat)
    requires cap >= 2
    ensures var s := Run(Init(cap, threads), acts);
      |s.th| == threads && (t < threads && Sending(s.th[t]) ==> s.th[t].v == LastSent(Init(cap, threads), acts, t))
  {
    if acts != [] {
      var k := |acts| - 1;
      CarryRun(cap, threads, acts[..k], t);
      if t < threads { CarryStep(Run(Init(cap, threads), acts[..k]), acts[k], t); }
    }
  }

  /** What is put is what was sent: in every run the values put, in claim order, are those of the calls that
      claimed, in that order. */
  lemma {:induction false} PutsAreSent(cap: nat, threads: nat, acts: seq<Act>)
    requires cap >= 2
    ensures Values(Run(Init(cap, threads), acts).puts) == Sent(Init(cap, threads), acts)
  {
    if acts != [] {
      var k := |acts| - 1;
      var s := Run(Init(cap, threads), acts[..k]);
      PutsAreSent(cap, threads, acts[..k]);
      CarryRun(cap, threads, acts[..k], acts[k].t);
      ClaimStep(s, acts[k]);
    }
  }

  /** The consumer of position p reads the value that the call which claimed p was given. */
  lemma {:induction false} ReadsWhatWasSent(cap: nat, threads: nat, acts: seq<Act>, p: nat)
    requires cap >= 2 && p in Run(Init(cap, threads), acts).got
    ensures var s0 := Init(cap, threads);
      p < |Sent(s0, acts)| && Run(s0, acts).got[p] == Sent(s0, acts)[p]
  {
    var s0 := Init(cap, threads);
    assert Reachable(Run(s0, acts));
    ClaimsMatch(Run(s0, acts));
    PutsAreSent(cap, threads, acts);
  }

  // ---------------------------------------------------------------- an operation left alone

  /** n accesses by thread t alone, none of which fails spuriously. */
  function Alone(s: Ring, t: nat, n: nat): Ring
    requires Shape(s)
    decreases n
  {
    if n == 0 then s else Alone(Step(s, Act(t, Go)), t, n - 1)
  }

  predicate HasRoom(s: Ring)
    requires Shape(s)
  {
    Stamp(s, s.tail) == s.tail
  }

  predicate HasValue(s: Ring)
    requires Shape(s)
  {
    Stamp(s, s.head) == s.head + 1
  }

  /** The value v is in the cell of pos, published. */
  function Published(s: Ring, t: nat, pos: nat, v: Value): Ring
    requires Shape(s) && t < |s.th|
  {
    At(s, t, Idle).(cells := s.cells[Slot(pos, s.cap) := Cell(pos + 1, v)])
  }

  /** The cell of pos, from which v was read, belongs to the next lap. */
  function Vacated(s: Ring, t: nat, pos: nat): Ring
    requires Shape(s) && t < |s.th|
  {
    var i := Slot(pos, s.cap);
    At(s, t, Idle).(cells := s.cells[i := Cell(pos + s.cap, s.cells[i].value)], turn := s.turn[i := pos + s.cap])
  }

  /** A send puts its value at the tail, or finds no room and changes nothing. */
  function SendResult(s: Ring, t: nat, v: Value): Ring
    requires Shape(s) && t < |s.th|
  {
    if HasRoom(s)
    then Published(s, t, s.tail, v).(tail := s.tail + 1, puts := s.puts + [Put(t, s.tail, v)])
    else At(s, t, Idle)
  }

  /** A receive takes the value at the head, or finds none: a plain one returns, the resolver reports the close. */
  function ReceiveResult(s: Ring, t: nat, k: Caller): Ring
    requires Shape(s) && t < |s.th|
  {
    if HasValue(s)
    then Vacated(s, t, s.head).(head := s.head + 1, takes := s.takes + [Take(t, s.head)],
                                got := s.got[s.head := s.cells[Slot(s.head, s.cap)].value])
    else At(s, t, if k == Plain then Idle else ResClosed(s.tail))
  }

  /** What thread t ends with if it is left alone. */
  function Outcome(s: Ring, t: nat): Ring
    requires Shape(s) && t < |s.th|
  {
    match s.th[t]
    case EnqTail(v) => SendResult(s, t, v)
    case EnqSeq(v, _) => SendResult(s, t, v)
    case EnqCas(v, _) => SendResult(s, t, v)
    case EnqWrite(v, pos) => Published(s, t, pos, v)
    case EnqPublish(v, pos) => Published(s, t, pos, v)
    case DeqHead(k) => ReceiveResult(s, t, k)
    case DeqSeq(k, _) => ReceiveResult(s, t, k)
    case DeqCas(k, _) => ReceiveResult(s, t, k)
    case DeqRead(_, pos) => Vacated(s, t, pos).(got := s.got[pos := s.cells[Slot(pos, s.cap)].value])
    case DeqRelease(_, pos, _) => Vacated(s, t, pos)
    case ResTail(_) => At(s, t, ResClosed(s.tail))
    case ResHead(_, _) => At(s, t, ResClosed(s.tail))
    case _ => s
  }

  /** The resolver waits for a producer that has claimed a position and not published it; nothing else waits. */
  predicate Determined(s: Ring, t: nat)
    requires Shape(s) && t < |s.th|
  {
    match s.th[t]
    case DeqHead(k) => k == Plain || HasValue(s) || s.head == s.tail
    case DeqSeq(k, _) => k == Plain || HasValue(s) || s.head == s.tail
    case DeqCas(k, _) => k == Plain || HasValue(s) || s.head == s.tail
    case ResTail(_) => s.head == s.tail
    case ResHead(_, _) => s.head == s.tail
    case _ => true
  }

  /** A bound on the accesses that are left. */
  function Rank(s: Ring, t: nat): nat
    requires t < |s.th|
  {
    match s.th[t]
    case EnqTail(_) => 5
    case EnqSeq(_, pos) => if pos == s.tail then 4 else 6
    case EnqCas(_, pos) => if pos == s.tail then 3 else 5
    case EnqWrite(_, _) => 2
    case EnqPublish(_, _) => 1
    case DeqHead(k) => Late(k) + 5
    case DeqSeq(k, pos) => Late(k) + if pos == s.head then 4 else 6
    case DeqCas(k, pos) => Late(k) + if pos == s.head then 3 else 5
    case DeqRead(_, _) => 2
    case DeqRelease(_, _, _) => 1
    case ResTail(m) => if m == First then 13 else 2
    case ResHead(m, n) => if n != s.head then 21 else if m == First then 12 else 1
    case _ => 0
  }

  /** The resolver's later stages come after its earlier ones. */
  function Late(k: Caller): nat {
    match k
    case Plain => 0
    case Probe => 14
    case Recheck => 3
  }

  /** One more access by t leads to the same end, and is one less to go. */
  predicate Nears(s: Ring, t: nat) {
    && Shape(s) && t < |s.th|
    && var r := Step(s, Act(t, Go));
       Determined(r, t) && Outcome(r, t) == Outcome(s, t) && Rank(r, t) < Rank(s, t)
  }

  lemma SeqNears(s: Ring, t: nat, v: Value, pos: nat)
    requires Poised(s, t, EnqSeq(v, pos))
    ensures Nears(s, t)
  {
    var i := Slot(pos, s.cap);
    assert ThreadInv(s, t) && CellInv(s, i);
    SameSlot(s.turn[i], pos, s.cap);
    assert Step(s, Act(t, Go)) == EnqSeqStep(s, t, v, pos);
  }

  lemma CasNears(s: Ring, t: nat, v: Value, pos: nat)
    requires Poised(s, t, EnqCas(v, pos))
    ensures Nears(s, t)
  {
    assert ThreadInv(s, t);
    assert Step(s, Act(t, Go)) == EnqCasStep(s, Act(t, Go), v, pos);
  }

  lemma WriteNears(s: Ring, t: nat, v: Value, pos: nat)
    requires Poised(s, t, EnqWrite(v, pos)) || Poised(s, t, EnqPublish(v, pos))
    ensures Nears(s, t)
  {
    assert ThreadInv(s, t);
    if s.th[t].EnqWrite? { assert Step(s, Act(t, Go)) == EnqWriteStep(s, t, v, pos); }
  }

  /** A value at the head lies before the tail. */
  lemma ValueBelowTail(s: Ring)
    requires Inv(s)
    ensures HasValue(s) ==> s.head < s.tail && s.turn[Slot(s.head, s.cap)] == s.head
  {
    var i := Slot(s.head, s.cap);
    assert CellInv(s, i);
    SameSlot(s.turn[i], s.head, s.cap);
  }

  /** A position that the head has passed is not empty any more. */
  lemma StaleHead(s: Ring, t: nat, k: Caller, pos: nat)
    requires Poised(s, t, DeqSeq(k, pos)) && pos != s.head
    ensures Step(s, Act(t, Go)) == At(s, t, if Stamp(s, pos) == pos + 1 then DeqCas(k, pos) else DeqHead(k))
  {
    var i := Slot(pos, s.cap);
    assert ThreadInv(s, t) && CellInv(s, i);
    SameSlot(s.turn[i], pos, s.cap);
    assert Step(s, Act(t, Go)) == DeqSeqStep(s, t, k, pos);
  }

  lemma HeadNears(s: Ring, t: nat, k: Caller)
    requires Poised(s, t, DeqSeq(k, s.head)) && Determined(s, t)
    ensures Nears(s, t)
  {
    var i := Slot(s.head, s.cap);
    assert CellInv(s, i);
    SameSlot(s.turn[i], s.head, s.cap);
    assert Step(s, Act(t, Go)) == DeqSeqStep(s, t, k, s.head);
  }

  lemma DeqSeqNears(s: Ring, t: nat, k: Caller, pos: nat)
    requires Poised(s, t, DeqSeq(k, pos)) && Determined(s, t)
    ensures Nears(s, t)
  {
    if pos == s.head { HeadNears(s, t, k); } else { StaleHead(s, t, k, pos); }
  }

  lemma DeqCasNears(s: Ring, t: nat, k: Caller, pos: nat)
    requires Poised(s, t, DeqCas(k, pos)) && Determined(s, t)
    ensures Nears(s, t)
  {
    assert ThreadInv(s, t);
    assert Step(s, Act(t, Go)) == DeqCasStep(s, Act(t, Go), k, pos);
  }

  lemma ReadNears(s: Ring, t: nat, k: Caller, pos: nat)
    requires Poised(s, t, DeqRead(k, pos))
    ensures Nears(s, t)
  {
    assert ThreadInv(s, t);
    assert Step(s, Act(t, Go)) == DeqReadStep(s, t, k, pos);
  }

  lemma ResolverNears(s: Ring, t: nat)
    requires Inv(s) && t < |s.th| && (s.th[t].ResTail? || s.th[t].ResHead?) && s.head == s.tail
    ensures Nears(s, t)
  {
    ValueBelowTail(s);
    match s.th[t]
    case ResTail(_) =>
    case ResHead(m, n) => assert Step(s, Act(t, Go)) == ResHeadStep(s, Act(t, Go), m, n);
  }

  lemma NearsEnd(s: Ring, t: nat)
    requires Inv(s) && t < |s.th| && Determined(s, t) && Rank(s, t) > 0
    ensures Nears(s, t)
  {
    match s.th[t]
    case EnqSeq(v, pos) => SeqNears(s, t, v, pos);
    case EnqCas(v, pos) => CasNears(s, t, v, pos);
    case EnqWrite(v, pos) => WriteNears(s, t, v, pos);
    case EnqPublish(v, pos) => WriteNears(s, t, v, pos);
    case DeqSeq(k, pos) => DeqSeqNears(s, t, k, pos);
    case DeqCas(k, pos) => DeqCasNears(s, t, k, pos);
    case DeqRead(k, pos) => ReadNears(s, t, k, pos);
    case DeqRelease(_, pos, _) => assert Step(s, Act(t, Go)) == DeqReleaseStep(s, t, pos);
    case ResTail(_) => ResolverNears(s, t);
    case ResHead(_, _) => ResolverNears(s, t);
    case _ =>
  }

  /**
  Whatever happened before, a thread that is left alone finishes its operation within a few accesses: a send
  has put its value at the tail or found no room, a receive has taken the value at the head or found none.
  */
  lemma {:induction false} FinishesAlone(s: Ring, t: nat) returns (n: nat)
    requires Inv(s) && t < |s.th| && Determined(s, t)
    ensures n <= Rank(s, t) && Alone(s, t, n) == Outcome(s, t)
    decreases Rank(s, t)
  {
    if Rank(s, t) == 0 {
      n := 0;
    } else {
      NearsEnd(s, t);
      StepInv(s, Act(t, Go));
      var m := FinishesAlone(Step(s, Act(t, Go)), t);
      n := m + 1;
    }
  }

  /** What an idle thread gets for a call, if it is left alone. */
  lemma SendCall(s: Ring, t: nat, v: Value)
    requires Shape(s) && t < |s.th| && s.th[t] == Idle
    ensures Outcome(Step(s, Act(t, Send(v))), t) == SendResult(s, t, v)
  {
    assert Step(s, Act(t, Send(v))) == At(s, t, EnqTail(v));
  }

  lemma ReceiveCall(s: Ring, t: nat)
    requires Shape(s) && t < |s.th| && s.th[t] == Idle
    ensures Outcome(Step(s, Act(t, Receive)), t) == ReceiveResult(s, t, Plain)
  {
    assert Step(s, Act(t, Receive)) == At(s, t, DeqHead(Plain));
  }

  lemma ResolveCall(s: Ring, t: nat)
    requires Shape(s) && t < |s.th| && s.th[t] == Idle
    ensures Outcome(Step(s, Act(t, Resolve)), t) == ReceiveResult(s, t, Probe)
  {
    assert Step(s, Act(t, Resolve)) == At(s, t, DeqHead(Probe));
  }

  // ---------------------------------------------------------------- closed receive

  lemma {:induction false} OthersKeep(s: Ring, acts: seq<Act>, r: nat)
    requires Shape(s) && r < |s.th| && forall a | a in acts :: a.t != r
    ensures var s' := Run(s, acts); |s'.th| == |s.th| && s'.th[r] == s.th[r]
    ensures s.puts <= Run(s, acts).puts && s.takes <= Run(s, acts).takes
  {
    if acts != [] {
      var before := acts[..|acts| - 1];
      OthersKeep(s, before, r);
      StepKeeps(Run(s, before), acts[|acts| - 1], r);
    }
  }

  lemma StepKeeps(s: Ring, a: Act, r: nat)
    requires Shape(s) && r < |s.th| && a.t != r
    ensures var s' := Step(s, a); |s'.th| == |s.th| && s'.th[r] == s.th[r]
    ensures s.puts <= Step(s, a).puts && s.takes <= Step(s, a).takes
  {
    if a.t < |s.th| {
      match s.th[a.t]
      case EnqSeq(v, pos) => assert Step(s, a) == EnqSeqStep(s, a.t, v, pos);
      case EnqCas(v, pos) => assert Step(s, a) == EnqCasStep(s, a, v, pos);
      case EnqWrite(v, pos) => assert Step(s, a) == EnqWriteStep(s, a.t, v, pos);
      case DeqSeq(k, pos) => assert Step(s, a) == DeqSeqStep(s, a.t, k, pos);
      case DeqCas(k, pos) => assert Step(s, a) == DeqCasStep(s, a, k, pos);
      case DeqRead(k, pos) => assert Step(s, a) == DeqReadStep(s, a.t, k, pos);
      case DeqRelease(_, pos, _) => assert Step(s, a) == DeqReleaseStep(s, a.t, pos);
      case ResHead(m, t) => assert Step(s, a) == ResHeadStep(s, a, m, t);
      case _ =>
    }
  }

  /** The confirming head load: the resolver returns the close error only on the tail it saw. */
  lemma ResDecides(s: Ring, r: nat, t: nat)
    requires Shape(s) && r < |s.th| && s.th[r] == ResHead(Confirm, t)
    ensures var s' := Step(s, Act(r, Go));
      && s'.puts == s.puts && s'.takes == s.takes && s'.head == s.head && s'.tail == s.tail
      && (s'.th[r].ResClosed? ==> t == s.head)
  {
    assert Step(s, Act(r, Go)) == ResHeadStep(s, Act(r, Go), Confirm, t);
  }

  /** When the resolver returns the close error, every position that a producer had claimed by its
      last tail load has been claimed by some receiver, whatever the other threads did since; and
      if no producer claimed anything after that load the queue is empty. */
  lemma {:induction false} ResolverDrains(s: Ring, r: nat, acts: seq<Act>)
    requires Reachable(s) && r < |s.th| && s.th[r] == ResTail(Confirm)
    requires forall a | a in acts :: a.t != r
    ensures var s1 := Run(Step(s, Act(r, Go)), acts);
      var s2 := Step(s1, Act(r, Go));
      && LogInv(s2) && |s2.th| == |s.th| && s.puts <= s2.puts
      && (s2.th[r].ResClosed? ==> |s.puts| <= |s2.takes|)
      && (s2.th[r].ResClosed? && |s2.puts| == |s.puts| ==> Contents(s2) == [])
  {
    ReachableInv(s);
    var s0 := Step(s, Act(r, Go));
    assert s0 == At(s, r, ResHead(Confirm, s.tail));
    StepInv(s, Act(r, Go));
    RunInv(s0, acts);
    OthersKeep(s0, acts, r);
    StepInv(Run(s0, acts), Act(r, Go));
    ResDecides(Run(s0, acts), r, s.tail);
  }
}
