/**
The thread pool's job queue: a circular array, bounded or doubling on demand, filled by submitters
and drained by workers.  Every method is one section under the executor's mutex; a caller that has to
wait on a condition variable gets `Wait` back and tries again.
*/
module Executor {
  import opened Circular

  const EINVAL := 22
  const EAGAIN := 11
  const SIZE_LIMIT := 0x1_0000_0000_0000_0000    // size_t is 64 bits wide

  /** A function (0 is the null pointer) and its argument. */
  datatype Job = Job(fn: int, arg: int)

  datatype Reply = Rc(code: int) | Wait

  /** What a worker's section found. */
  datatype Work = Got(job: Job) | Sleep | Exit

  // ---- The queue as a value ----

  /** `accepted` and `taken` are histories. */
  datatype State = State(queue: seq<Job>, cap: nat, unbounded: bool, down: bool, accepted: seq<Job>, taken: seq<Job>)

  function Init(queueCap: nat): State {
    State([], if queueCap == 0 then 128 else queueCap, queueCap == 0, false, [], [])
  }

  /** The capacity after making room for one job, if there is room; `oom` tells whether allocation fails. */
  function Room(s: State, oom: bool): nat {
    if |s.queue| < s.cap then s.cap
    else if s.unbounded && 2 * s.cap < SIZE_LIMIT && !oom then 2 * s.cap
    else 0
  }

  function Submit(s: State, job: Job, oom: bool, blocking: bool): (State, Reply) {
    if job.fn == 0 || s.down then (s, Rc(EINVAL))
    else if Room(s, oom) == 0 then (s, if blocking then Wait else Rc(EAGAIN))
    else (s.(queue := s.queue + [job], cap := Room(s, oom), accepted := s.accepted + [job]), Rc(0))
  }

  function Take(s: State): (State, Work) {
    if s.queue != [] then (s.(queue := s.queue[1..], taken := s.taken + [s.queue[0]]), Got(s.queue[0]))
    else (s, if s.down then Exit else Sleep)
  }

  datatype Act = SubmitAct(job: Job, oom: bool, blocking: bool) | TakeAct | ShutdownAct

  function Step(s: State, a: Act): State {
    match a
    case SubmitAct(job, oom, blocking) => Submit(s, job, oom, blocking).0
    case TakeAct => Take(s).0
    case ShutdownAct => s.(down := true)
  }

  function Run(queueCap: nat, acts: seq<Act>): State {
    if acts == [] then Init(queueCap) else Step(Run(queueCap, acts[..|acts| - 1]), acts[|acts| - 1])
  }

  ghost predicate Inv(s: State) {
    s.cap > 0 && |s.queue| <= s.cap && s.accepted == s.taken + s.queue
  }

  lemma {:induction false} RunInv(queueCap: nat, acts: seq<Act>)
    ensures Inv(Run(queueCap, acts))
  {
    if acts != [] {
      RunInv(queueCap, acts[..|acts| - 1]);
    }
  }

  /** Every accepted job is taken once and in order: what was taken, then what is queued, is what was accepted. */
  lemma {:induction false} AcceptedAreTakenInOrder(queueCap: nat, acts: seq<Act>)
    ensures var s := Run(queueCap, acts); s.accepted == s.taken + s.queue && |s.queue| <= s.cap
  {
    RunInv(queueCap, acts);
  }

  /** The jobs of the submits that were answered with 0, and the jobs that workers got, in order. */
  function Answered(queueCap: nat, acts: seq<Act>): (seq<Job>, seq<Job>) {
    if acts == [] then ([], [])
    else
      var (k, (a, t)) := (|acts| - 1, Answered(queueCap, acts[..|acts| - 1]));
      match acts[k]
      case SubmitAct(job, oom, blocking) =>
        if Submit(Run(queueCap, acts[..k]), job, oom, blocking).1 == Rc(0) then (a + [job], t) else (a, t)
      case TakeAct =>
        var w := Take(Run(queueCap, acts[..k])).1;
        if w.Got? then (a, t + [w.job]) else (a, t)
      case ShutdownAct => (a, t)
  }

  /** The answers tell the truth: a worker gets exactly the jobs that were answered with 0, in that order, and
      the rest of them is queued. */
  lemma {:induction false} AnswersAreTrue(queueCap: nat, acts: seq<Act>)
    ensures var s := Run(queueCap, acts);
            Answered(queueCap, acts).0 == Answered(queueCap, acts).1 + s.queue && Answered(queueCap, acts).1 == s.taken
  {
    RunInv(queueCap, acts);
    if acts != [] {
      AnswersAreTrue(queueCap, acts[..|acts| - 1]);
      RunInv(queueCap, acts[..|acts| - 1]);
    }
  }

  /** Nothing but a shutdown stops an executor. */
  lemma {:induction false} DownIffShut(queueCap: nat, acts: seq<Act>)
    ensures Run(queueCap, acts).down <==> ShutdownAct in acts
  {
    if acts != [] {
      var k := |acts| - 1;
      DownIffShut(queueCap, acts[..k]);
      assert acts == acts[..k] + [acts[k]];
    }
  }

  /** A bounded executor never outgrows the capacity it was created with. */
  lemma {:induction false} BoundedStaysBounded(queueCap: nat, acts: seq<Act>)
    requires queueCap > 0
    ensures var s := Run(queueCap, acts); s.cap == queueCap && !s.unbounded && |s.queue| <= queueCap
  {
    RunInv(queueCap, acts);
    if acts != [] {
      BoundedStaysBounded(queueCap, acts[..|acts| - 1]);
    }
  }

  /**
  A worker exits only when the queue is empty and shutdown is set.  From then on nothing is accepted,
  so no job is ever left behind: every accepted job has been taken, now and in every later state.
  */
  lemma {:induction false} ExitLeavesNothing(queueCap: nat, acts: seq<Act>, more: seq<Act>)
    requires Take(Run(queueCap, acts)).1 == Exit
    ensures var s := Run(queueCap, acts + more); s.queue == [] && s.down && s.taken == s.accepted
  {
    RunInv(queueCap, acts + more);
    if more == [] {
      assert acts + more == acts;
    } else {
      var k := |more| - 1;
      ExitLeavesNothing(queueCap, acts, more[..k]);
      assert (acts + more)[..|acts + more| - 1] == acts + more[..k];
    }
  }

  // ---- The circular array ----

  /** A doubled capacity as size_t holds it: it falls below the old one exactly when the product wraps. */
  method Doubled(cap: nat) returns (n: nat)
    requires 0 < cap < SIZE_LIMIT
    ensures n < SIZE_LIMIT && (n < cap <==> 2 * cap >= SIZE_LIMIT) && (n >= cap ==> n == 2 * cap)
  {
    n := cap * 2 % SIZE_LIMIT;
  }

  class Exec {
    const queue: Buffer<Job>
    var unbounded: bool
    var shuttingDown: bool
    ghost var s: State

    /** The circular array holds the queue of the model. */
    ghost predicate Valid()
      reads this, queue, queue.buf
    {
      && queue.Valid() && queue.contents == s.queue && queue.buf.Length == s.cap < SIZE_LIMIT
      && unbounded == s.unbounded && shuttingDown == s.down
    }

    constructor (queueCap: nat)
      requires queueCap < SIZE_LIMIT
      ensures Valid() && fresh(queue) && fresh(queue.buf) && s == Init(queueCap)
      ensures queue.contents == [] && !shuttingDown && unbounded == (queueCap == 0)
      ensures queue.buf.Length == if queueCap == 0 then 128 else queueCap
    {
      unbounded := queueCap == 0;
      queue := new Buffer(if queueCap == 0 then 128 else queueCap, Job(0, 0));
      shuttingDown := false;
      s := Init(queueCap);
    }

    /** The queue is full and cannot grow: it is bounded, or doubling it wraps, or there is no memory. */
    ghost predicate Stuck(oom: bool)
      reads this, queue, queue.buf
    {
      queue.count == queue.buf.Length && (!unbounded || 2 * queue.buf.Length >= SIZE_LIMIT || oom)
    }

    /** Room for one more job: grow a full unbounded queue; `oom` tells whether allocation fails. */
    method MakeRoom(oom: bool) returns (ok: bool)
      requires Valid()
      modifies this`s, queue`buf, queue`head, queue`tail
      ensures Valid() && (queue.buf == old(queue.buf) || fresh(queue.buf))
      ensures ok == (Room(old(s), oom) > 0)
      ensures if ok then s == old(s).(cap := Room(old(s), oom)) && |s.queue| < s.cap else s == old(s)
      ensures ok == !old(Stuck(oom))
      ensures queue.buf.Length == if ok && old(queue.count == queue.buf.Length) then 2 * old(queue.buf.Length)
                                  else old(queue.buf.Length)
    {
      if queue.count < queue.buf.Length {
        return true;
      }
      if !unbounded {
        return false;
      }
      var newCap := Doubled(queue.buf.Length);
      if newCap < queue.buf.Length || oom {
        return false;
      }
      queue.Grow(newCap, Job(0, 0));
      s := s.(cap := newCap);
      return true;
    }

    /** One attempt to submit: 0 means that the job is at the end of the queue, anything else that it is not. */
    method TrySubmit(job: Job, oom: bool, blocking: bool) returns (r: Reply)
      requires Valid()
      modifies this`s, queue, queue.buf
      ensures Valid() && (s, r) == Submit(old(s), job, oom, blocking)
      ensures queue.contents == if r == Rc(0) then old(queue.contents) + [job] else old(queue.contents)
      ensures r == Rc(EINVAL) <==> job.fn == 0 || old(shuttingDown)
      ensures r == Rc(EAGAIN) <==> job.fn != 0 && !old(shuttingDown) && old(Stuck(oom)) && !blocking
      ensures r == Wait <==> job.fn != 0 && !old(shuttingDown) && old(Stuck(oom)) && blocking
      ensures r in [Rc(0), Rc(EINVAL), Rc(EAGAIN), Wait]
    {
      if job.fn == 0 || shuttingDown {
        return Rc(EINVAL);
      }
      var ok := MakeRoom(oom);
      if !ok {
        return if blocking then Wait else Rc(EAGAIN);
      }
      queue.Enqueue(job);
      s := s.(queue := s.queue + [job], accepted := s.accepted + [job]);
      return Rc(0);
    }

    /** A worker's section: take the oldest job, sleep, or exit. */
    method TakeJob() returns (w: Work)
      requires Valid()
      modifies this`s, queue`head, queue`count, queue`contents
      ensures Valid() && (s, w) == Take(old(s))
      ensures if old(queue.contents) != []
              then w == Got(old(queue.contents)[0]) && queue.contents == old(queue.contents)[1..]
              else w == (if shuttingDown then Exit else Sleep) && queue.contents == []
    {
      var r := queue.Dequeue();
      if r.None? {
        return if shuttingDown then Exit else Sleep;
      }
      s := Take(s).0;
      return Got(r.value);
    }

    method Shutdown()
      requires Valid()
      modifies this`shuttingDown, this`s
      ensures Valid() && s == old(s).(down := true) && shuttingDown
    {
      shuttingDown := true;
      s := s.(down := true);
    }
  }
}
