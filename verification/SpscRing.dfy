/**
The single-producer single-consumer path of the buffered ring: no sequence numbers and no
compare-and-swap, only the two indices.  The ring has `size` cells, the requested capacity rounded
up, but admits at most `cap` values.  One action is one access to shared memory.
*/
module SpscRing {
  import opened Slots

  type Value = int

  datatype Producer =
    | PIdle                          // load tail
    | PHead(v: Value, tail: nat)     // load head and compare
    | PWrite(v: Value, tail: nat)    // store the payload
    | PPublish(v: Value, tail: nat)  // store tail + 1

  datatype Consumer =
    | CIdle                          // load head
    | CTail(head: nat)               // load tail and compare
    | CRead(head: nat)               // load the payload
    | CRelease(head: nat, v: Value)  // store head + 1

  /** `puts` and `takes` are histories: the values published and the values handed out. */
  datatype Ring = Ring(cap: nat, size: nat, cells: seq<Value>, head: nat, tail: nat, p: Producer, c: Consumer,
                       puts: seq<Value>, takes: seq<Value>)

  datatype Act = Produce(v: Value) | Consume

  function Init(cap: nat, size: nat): Ring {
    Ring(cap, size, seq(size, i => 0), 0, 0, PIdle, CIdle, [], [])
  }

  predicate Shape(s: Ring) {
    1 <= s.cap <= s.size && |s.cells| == s.size
  }

  function ProducerStep(s: Ring, v: Value): Ring
    requires Shape(s)
  {
    match s.p
    case PIdle => s.(p := PHead(v, s.tail))
    case PHead(v, t) => s.(p := if t - s.head >= s.cap then PIdle else PWrite(v, t))
    case PWrite(v, t) => s.(cells := s.cells[Slot(t, s.size) := v], p := PPublish(v, t))
    case PPublish(v, t) => s.(tail := t + 1, p := PIdle, puts := s.puts + [v])
  }

  function ConsumerStep(s: Ring): Ring
    requires Shape(s)
  {
    match s.c
    case CIdle => s.(c := CTail(s.head))
    case CTail(h) => s.(c := if h == s.tail then CIdle else CRead(h))
    case CRead(h) => s.(c := CRelease(h, s.cells[Slot(h, s.size)]))
    case CRelease(h, v) => s.(head := h + 1, c := CIdle, takes := s.takes + [v])
  }

  function Step(s: Ring, a: Act): (t: Ring)
    requires Shape(s)
    ensures Shape(t)
  {
    match a
    case Produce(v) => ProducerStep(s, v)
    case Consume => ConsumerStep(s)
  }

  function Run(s: Ring, acts: seq<Act>): (t: Ring)
    requires Shape(s)
    ensures Shape(t)
  {
    if acts == [] then s else Step(Run(s, acts[..|acts| - 1]), acts[|acts| - 1])
  }

  // ---- The invariant ----

  ghost predicate Live(s: Ring, i: nat)
    requires Shape(s) && i < |s.puts|
  {
    s.cells[Slot(i, s.size)] == s.puts[i]
  }

  ghost predicate Indices(s: Ring) {
    s.head <= s.tail <= s.head + s.cap && |s.puts| == s.tail && s.takes == s.puts[..s.head]
  }

  ghost predicate ProducerOk(s: Ring)
    requires Shape(s)
  {
    match s.p
    case PIdle => true
    case PHead(_, t) => t == s.tail
    case PWrite(_, t) => t == s.tail < s.head + s.cap
    case PPublish(v, t) => t == s.tail < s.head + s.cap && s.cells[Slot(t, s.size)] == v
  }

  ghost predicate ConsumerOk(s: Ring)
    requires Shape(s) && Indices(s)
  {
    match s.c
    case CIdle => true
    case CTail(h) => h == s.head
    case CRead(h) => h == s.head < s.tail
    case CRelease(h, v) => h == s.head < s.tail && v == s.puts[h]
  }

  ghost predicate Inv(s: Ring) {
    && Shape(s) && Indices(s) && ProducerOk(s) && ConsumerOk(s)
    && forall i | s.head <= i < s.tail :: Live(s, i)
  }

  /** The payload store hits no cell that holds a value still to be taken. */
  lemma NoOverwrite(s: Ring, i: nat)
    requires Inv(s) && s.p.PWrite? && s.head <= i < s.tail
    ensures Slot(i, s.size) != Slot(s.p.tail, s.size)
  {
    if Slot(i, s.size) == Slot(s.p.tail, s.size) {
      SameSlot(i, s.p.tail, s.size);
    }
  }

  lemma ProducerInv(s: Ring, v: Value)
    requires Inv(s)
    ensures Inv(ProducerStep(s, v))
  {
    var t := ProducerStep(s, v);
    forall i | t.head <= i < t.tail ensures Live(t, i) {
      if i < s.tail {
        assert Live(s, i);
        if s.p.PWrite? { NoOverwrite(s, i); }
      }
    }
  }

  lemma ConsumerInv(s: Ring)
    requires Inv(s)
    ensures Inv(ConsumerStep(s))
  {
    var t := ConsumerStep(s);
    if s.c.CRead? { assert Live(s, s.c.head); }
    if s.c.CRelease? { assert s.puts[..s.head + 1] == s.puts[..s.head] + [s.puts[s.head]]; }
    forall i | t.head <= i < t.tail ensures Live(t, i) { assert Live(s, i); }
  }

  lemma StepInv(s: Ring, a: Act)
    requires Inv(s)
    ensures Inv(Step(s, a))
  {
    match a
    case Produce(v) => ProducerInv(s, v);
    case Consume => ConsumerInv(s);
  }

  lemma {:induction false} RunInv(cap: nat, size: nat, acts: seq<Act>)
    requires 1 <= cap <= size
    ensures Inv(Run(Init(cap, size), acts))
  {
    if acts != [] {
      var k := |acts| - 1;
      RunInv(cap, size, acts[..k]);
      StepInv(Run(Init(cap, size), acts[..k]), acts[k]);
    }
  }

  // ---- What every run guarantees ----

  /** The queue that the ring stands for. */
  ghost function Queue(s: Ring): seq<Value>
    requires Indices(s)
  {
    s.puts[s.head..s.tail]
  }

  /** Every run holds at most `cap` values, and what was taken is a prefix of what was put. */
  lemma {:induction false} BoundedByRequest(cap: nat, size: nat, acts: seq<Act>)
    requires 1 <= cap <= size
    ensures var s := Run(Init(cap, size), acts);
            Indices(s) && |Queue(s)| <= cap && s.puts == s.takes + Queue(s)
  {
    RunInv(cap, size, acts);
    Constants(cap, size, acts);
    var s := Run(Init(cap, size), acts);
    assert s.puts == s.puts[..s.head] + s.puts[s.head..s.tail];
  }

  lemma {:induction false} Constants(cap: nat, size: nat, acts: seq<Act>)
    requires 1 <= cap <= size
    ensures Run(Init(cap, size), acts).cap == cap && Run(Init(cap, size), acts).size == size
  {
    if acts != [] { Constants(cap, size, acts[..|acts| - 1]); }
  }

  lemma ProduceRefines(s: Ring, v: Value)
    requires Inv(s)
    ensures var t := ProducerStep(s, v);
            && Indices(t) && t.takes == s.takes
            && Queue(t) == if s.p.PPublish? then Queue(s) + [s.p.v] else Queue(s)
  {
    ProducerInv(s, v);
  }

  lemma ConsumeRefines(s: Ring)
    requires Inv(s)
    ensures var t := ConsumerStep(s);
            && Indices(t)
            && if s.c.CRelease? then Queue(s) == [s.c.v] + Queue(t) && t.takes == s.takes + [s.c.v]
               else Queue(t) == Queue(s) && t.takes == s.takes
  {
    ConsumerInv(s);
  }

  /**
  Each action is an operation of the bounded queue: publishing appends, releasing hands out the
  oldest value, anything else leaves the queue alone.
  */
  lemma {:induction false} RefinesFifo(cap: nat, size: nat, acts: seq<Act>, a: Act)
    requires 1 <= cap <= size
    ensures var s := Run(Init(cap, size), acts);
            var t := Step(s, a);
            && Indices(s) && Indices(t)
            && if a.Produce? && s.p.PPublish? then Queue(t) == Queue(s) + [s.p.v] && t.takes == s.takes
               else if a.Consume? && s.c.CRelease? then
                 Queue(s) == [s.c.v] + Queue(t) && t.takes == s.takes + [s.c.v]
               else Queue(t) == Queue(s) && t.takes == s.takes
  {
    RunInv(cap, size, acts);
    match a
    case Produce(v) => ProduceRefines(Run(Init(cap, size), acts), v);
    case Consume => ConsumeRefines(Run(Init(cap, size), acts));
  }

  /** "Full" is answered exactly when the queue holds `cap` values at the load of head. */
  lemma {:induction false} FullIsExact(cap: nat, size: nat, acts: seq<Act>, v: Value)
    requires 1 <= cap <= size && Run(Init(cap, size), acts).p.PHead?
    ensures var s := Run(Init(cap, size), acts);
            Indices(s) && (ProducerStep(s, v).p == PIdle <==> |Queue(s)| == cap)
  {
    RunInv(cap, size, acts);
    Constants(cap, size, acts);
  }

  /** "Empty" is answered exactly when the queue is empty at the load of tail. */
  lemma {:induction false} EmptyIsExact(cap: nat, size: nat, acts: seq<Act>)
    requires 1 <= cap <= size && Run(Init(cap, size), acts).c.CTail?
    ensures var s := Run(Init(cap, size), acts);
            Indices(s) && (ConsumerStep(s).c == CIdle <==> Queue(s) == [])
  {
    RunInv(cap, size, acts);
  }

  // ---- From the calls to the values ----

  /** The value of the producer's latest call. */
  function LastSent(s: Ring, acts: seq<Act>): Value
    requires Shape(s)
  {
    if acts == [] then 0
    else
      var k := |acts| - 1;
      if acts[k].Produce? && Run(s, acts[..k]).p == PIdle then acts[k].v else LastSent(s, acts[..k])
  }

  /** The values of the calls that have published, in order. */
  function Sent(s: Ring, acts: seq<Act>): seq<Value>
    requires Shape(s)
  {
    if acts == [] then []
    else
      var k := |acts| - 1;
      if Run(s, acts).tail == Run(s, acts[..k]).tail then Sent(s, acts[..k])
      else Sent(s, acts[..k]) + [LastSent(s, acts[..k])]
  }

  /** What is put is what was sent, in order; so what is taken is too. */
  lemma {:induction false} PutsAreSent(cap: nat, size: nat, acts: seq<Act>)
    requires 1 <= cap <= size
    ensures var (s0, s) := (Init(cap, size), Run(Init(cap, size), acts));
            && s.puts == Sent(s0, acts) && s.takes <= Sent(s0, acts)
            && (s.p != PIdle ==> s.p.v == LastSent(s0, acts))
  {
    RunInv(cap, size, acts);
    if acts != [] {
      var k := |acts| - 1;
      PutsAreSent(cap, size, acts[..k]);
      RunInv(cap, size, acts[..k]);
    }
  }

  // ---- An operation left alone ----

  /** n accesses by one side alone. */
  function Alone(s: Ring, a: Act, n: nat): Ring
    requires Shape(s)
    decreases n
  {
    if n == 0 then s else Alone(Step(s, a), a, n - 1)
  }

  /** What the producer ends with: its value published at the tail, or a full ring left as it is. */
  function SendResult(s: Ring): Ring
    requires Shape(s)
  {
    if s.p == PIdle || (s.p.PHead? && s.tail >= s.head + s.cap) then s.(p := PIdle)
    else s.(p := PIdle, cells := s.cells[Slot(s.tail, s.size) := s.p.v], tail := s.tail + 1, puts := s.puts + [s.p.v])
  }

  /** What the consumer ends with: the oldest value taken, or an empty ring left as it is. */
  function ReceiveResult(s: Ring): Ring
    requires Shape(s)
  {
    if s.c == CIdle || s.head == s.tail then s.(c := CIdle)
    else s.(c := CIdle, head := s.head + 1, takes := s.takes + [s.cells[Slot(s.head, s.size)]])
  }

  function Left(s: Ring, a: Act): nat {
    match a
    case Produce(_) => (match s.p case PIdle => 0 case PHead(_, _) => 3 case PWrite(_, _) => 2 case PPublish(_, _) => 1)
    case Consume => (match s.c case CIdle => 0 case CTail(_) => 3 case CRead(_) => 2 case CRelease(_, _) => 1)
  }

  function Result(s: Ring, a: Act): Ring
    requires Shape(s)
  {
    if a.Produce? then SendResult(s) else ReceiveResult(s)
  }

  lemma Nears(s: Ring, a: Act)
    requires Inv(s) && Left(s, a) > 0
    ensures Left(Step(s, a), a) < Left(s, a) && Result(Step(s, a), a) == Result(s, a)
  {
    if a.Consume? && s.c.CRelease? { assert Live(s, s.head); }
  }

  /** Left alone, either side finishes its operation within three more accesses, with that result. */
  lemma {:induction false} FinishesAlone(s: Ring, a: Act) returns (n: nat)
    requires Inv(s)
    ensures n <= Left(s, a) <= 3 && Alone(s, a, n) == Result(s, a)
    decreases Left(s, a)
  {
    if Left(s, a) == 0 {
      n := 0;
    } else {
      Nears(s, a);
      StepInv(s, a);
      var m := FinishesAlone(Step(s, a), a);
      n := m + 1;
    }
  }

  /** From its call on, a send appends its value or finds the queue full, a receive takes the front or finds none. */
  lemma BeginsSend(s: Ring, v: Value)
    requires Inv(s) && s.p == PIdle
    ensures SendResult(ProducerStep(s, v)) == if |Queue(s)| == s.cap then s
              else s.(cells := s.cells[Slot(s.tail, s.size) := v], tail := s.tail + 1, puts := s.puts + [v])
  {
  }

  lemma BeginsReceive(s: Ring)
    requires Inv(s) && s.c == CIdle
    ensures ReceiveResult(ConsumerStep(s)) == if Queue(s) == [] then s
              else s.(head := s.head + 1, takes := s.takes + [Queue(s)[0]])
  {
    if s.head < s.tail { assert Live(s, s.head); }
  }
}
