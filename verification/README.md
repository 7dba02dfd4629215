# Concurrent-C runtime: a verified model

A Dafny model of the concurrent core of the Concurrent-C runtime: the lock-free channel rings, the
channel wait lists and the park/wake protocol of a blocking receive, the rendezvous of unbuffered
channels, the fiber scheduler with its join and idle-worker handshakes, and the structures layered on
them (nursery barrier, owned pool, asynchronous channel, thread-pool queue).

`dafny verify dfyconfig.toml` checks the whole project.

## How the code is modelled

- **Protocols** are labelled transition systems. A state is a value, an action is one atomic access of
  one thread or one section under a mutex, `Step` is total, and a run is any sequence of actions. Main
  results quantify over every run, with any number of threads. Atomics are interleaved under sequential
  consistency. Weak compare-and-swaps may fail spuriously and sleeps may end spuriously.
- **Mutex-protected structures** (`WaitList`, `ReadyQueue`, `Executor`, `AsyncChan`) are classes with
  the source's fields, linked nodes or circular arrays. Each method is proved against a function on
  sequences, and the run-level results are proved about those functions.
- Ring positions are unbounded naturals. `PowerOfTwo` works on 64-bit words, `RingIndex` shows that the
  masked 64-bit counter picks the cell of the unbounded position, and `Executor` writes out the wrap of a
  doubled capacity.
- Fields marked as history record what happened; no step reads them to decide anything. Run-level results are
  stated over the actions where they can be: the value a call was given, the calls that returned, the order in
  which calls blocked.
- Besides safety, each protocol has results about an operation **left alone**: from any state of any run, what
  it comes to when no other thread interferes. They say which branch every operation takes and where it ends.
- A choice the code leaves to its environment (allocation failure, an expired deadline, a spurious
  wake, the value sent) is a parameter of the action.

## What the model shows to be false

Each of these properties one would expect of the code fails. The model keeps the code as it is, gives a
concrete failing run and proves when the property does hold.

- *A pushed fiber always finds a worker to wake.* It fails in two ways. A worker can be claimed by a late
  producer between marking itself idle and reading its wake counter (`cc/runtime/sched_v2.c:1641-1645`); it
  then sleeps with `is_idle` clear and no producer can find it (`WorkerWake.LostWakeHappens`, a pool of one).
  And a worker runs before its starter has counted it in `num_threads` (`cc/runtime/sched_v2.c:946-950`), so a
  producer that counts in between does not scan it (`OverlookHappens`, a pool of two). `LostWakeIff` gives the
  exact condition: a wake is lost exactly when every worker passed its re-check of an empty queue with its
  flag taken and its counter already bumped, and has not woken since, or is the one sleeper that the
  producer's last count left out. `OneOverlooked`: there is at most one of those, and never the first worker.
  So no wake is lost in a run in which no worker passes its re-check with its flag taken (`NoStrandNoLoss`).
  The comment at `cc/runtime/sched_v2.c:959-968` leaves this to the periodic safety-net wake.
- *A completed fiber wakes its joiner.* A joiner may release the fiber as soon as it sees `done`, and the fiber
  may be spawned and joined again while the worker of its earlier life has yet to take the waiter slot
  (`cc/runtime/sched_v2.c:1161-1172`, `cc/runtime/task.c:650-652`). That worker then takes the new joiner's
  publication; the joiner is woken too early, parks again and stays parked for good
  (`JoinHandshake.RobberyHappens`, `ForgottenForGood`). A worker finds a joiner that waits if and only if no
  worker of an earlier life took its publication (`WorkerFindsJoinerIff`), and then it is never stranded
  (`JoinerNeverStranded`). Nobody is robbed if the fiber is never released between its worker's store of `done`
  and its exchange (`PatientNeverRobbed`). Thread joiners are safe in every run.
- *A fiber is returned to the pool only after it has finished.* In worker-frees mode the same early release lets
  the old worker see the nursery of the next life (`cc/runtime/sched_v2.c:1192-1196`) and free a fiber that is in
  the ready queue (`FiberStates.MisfreeHappens`). `FiberStates.StepInv`: a step breaks the invariant if and only
  if it is that one. `PatientIsClean`: it is never taken if joiners release a fiber only after its worker's last
  access.
- *No child touches a nursery after wait has returned.* A child lowers the count first and bumps the wake counter
  afterwards (`cc/runtime/nursery.c:528-534`), and the owner may return in between (`Nursery.TouchHappens`).
  `TouchedAfterWaitIff` gives the exact condition: the owner read a count of zero before that child's bump.
- *A thread that has been handed its value wakes up.* Threads of one side of an unbuffered channel share a
  condition variable, and the signal for the one that was served may wake another one
  (`Rendezvous.ServedStaysBlocked`). Whomever the signal wakes, the thread served is awake if and only if no
  other thread is blocked on that condition variable (`ServedIsAwakeIff`), and so in every run that serves no
  thread in a crowd (`ServedAreAwake`). A close reaches every thread (`CloseReachesAll`).
- *A caller that returns an item to an owned pool never finds it full.* A receiver that has claimed a
  ring position and not yet released its cell makes the ring report full, even when it is empty
  (`OwnedPool.ReturnFindsFull`). `FullIffStalledReceiver` gives the exact condition.
- *A send on an unbuffered channel returns 0 only if a receive got the value.* After
  `cc_chan_rx_close_err(ch, 0)` a send returns 0 without a receiver (`Rendezvous.FalseSuccessHappens`).
  `FalseSuccessIff` and, for the non-blocking send, `TryFalseSuccessIff` give the exact conditions; with
  non-zero codes the property holds in every run (`SendExactlyOnce`).
- *An asynchronous channel delivers values in the order in which it accepted them.* A receive does not
  refill the buffer from the pending sends, so a later send can be buffered ahead of them and received
  first (`AsyncOrder.OvertakeHappens`). Values delivered, followed by those on their way, stay in the order
  of acceptance in a step if and only if it does not buffer a send while earlier sends are pending
  (`OrderKeptIff`). A run without such a step delivers in order (`DeliversInOrder`). In any run two values
  are received in the wrong order if and only if some step delivered the later one while the earlier one
  was still on its way (`InvertedIff`).

Two branches of the source are shown never to be taken: the second look for a receiver by a woken
sender (`cc/runtime/channel.c:3317-3325`, by `Rendezvous.NoPartner`) for plain waiters, and the match
of two pending operations (`cc/runtime/async_chan.c:129-143`, by `AsyncChan.NeverBothPending`).

## Model

| member | source | states |
|---|---|---|
| `MpmcRing.StepInv` | perf/perf_buffered_ladder_ring_core.c:47-112 | every load, compare, claim, write, publish, read and release step by any of any number of producers and consumers keeps the ring invariant: which position owns each cell, what its sequence number and payload are, and who holds it |
| `MpmcRing.ClaimsMatch` | cc/runtime/channel.c:2649-2740 | in every reachable state each position is claimed once per side and in order, the consumer of position p has read exactly what the producer of p put, and a claimed position not yet read has its one consumer about to read it; that what was put is what was sent is `PutsAreSent` |
| `MpmcRing.PutsAreSent` | cc/runtime/channel.c:2649-2691 | told from the calls alone: in every run the values claimed for, in claim order, are the values of the sends that claimed, each the value its send call was given |
| `MpmcRing.ReadsWhatWasSent` | cc/runtime/channel.c:2693-2740 | in every run what a receive read at position p is the value that the p-th send to claim was called with |
| `MpmcRing.TakenIsPrefix` | cc/runtime/channel.c:2693-2740 | in every reachable state, for any k such that the first k positions have been read, the values read there are the first k values put |
| `MpmcRing.RefinesFifo` | cc/runtime/channel.c:2649-2740 | each atomic step leaves the abstract queue alone, appends a producer's value to a queue that is not full, or removes the front, which is then what that consumer reads; with `PutsAreSent` the value appended is the one the send was given |
| `MpmcRing.BoundedByCap` | cc/runtime/channel.c:1735-1738 | head <= tail <= head + capacity and the abstract queue holds at most the capacity |
| `MpmcRing.FullIsExact` | cc/runtime/channel.c:2654-2681 | full is reported if and only if the position loaded is still the tail and its cell still belongs to the position one lap back; if a consumer claimed that one it has not released it |
| `MpmcRing.EmptyIsExact` | cc/runtime/channel.c:2698-2726 | empty is reported if and only if the position loaded is still the head and no producer has published it |
| `MpmcRing.ResolverDrains` | cc/runtime/channel.c:2994-3078 | when the closed-receive resolver returns the close error, every position claimed by a producer before its last tail load has been claimed by a receiver, whatever the other threads do meanwhile |
| `MpmcRing.FinishesAlone` | cc/runtime/channel.c:2649-2740 | from every state of every run, a send or receive that is left alone ends, and so does a resolver unless a producer has claimed the next position and not published it; the whole ring is then as predicted: the value published at the tail, the value at the head taken, or nothing changed when there is no room or no value |
| `MpmcRing.SendCall` | cc/runtime/channel.c:2649-2691 | a send that finds room publishes the value it was given as the next one; one that does not changes nothing |
| `MpmcRing.ReceiveCall` | cc/runtime/channel.c:2693-2740 | a receive that finds a published value takes the oldest one and frees its cell for the next lap; one that does not changes nothing |
| `MpmcRing.ResolveCall` | cc/runtime/channel.c:2994-3078 | the closed-receive resolver takes a published value if there is one and reports the close if the ring is drained |
| `Slots.SameSlot` | cc/runtime/channel.c:2657-2657 | two positions that share a cell are equal or at least one lap apart |
| `SpscRing.RunInv` | cc/runtime/channel.c:2545-2580 | every interleaving of one producer and one consumer keeps the indices ordered and every position between them readable |
| `SpscRing.NoOverwrite` | cc/runtime/channel.c:2553-2559 | the payload store never hits a cell that still holds a value to be taken |
| `SpscRing.BoundedByRequest` | cc/runtime/channel.c:2548-2550 | although indexed modulo the rounded size, the ring never holds more than the requested capacity, and what was put is what was taken followed by what is queued |
| `SpscRing.RefinesFifo` | cc/runtime/channel.c:2545-2580 | each access is an operation of the bounded queue: publishing appends, releasing hands out the oldest value, everything else leaves it alone |
| `SpscRing.PutsAreSent` | cc/runtime/channel.c:2545-2561 | in every run the values put are those that the producer was called with, in order |
| `SpscRing.FinishesAlone` | cc/runtime/channel.c:2545-2580 | left alone, either side finishes its operation with the predicted ring: one value appended, the oldest one taken, or nothing changed |
| `SpscRing.BeginsSend` | cc/runtime/channel.c:2545-2561 | a send that is left alone appends exactly the value it was given unless the requested capacity is used up |
| `SpscRing.BeginsReceive` | cc/runtime/channel.c:2563-2580 | a receive that is left alone takes exactly the oldest value unless there is none |
| `SpscRing.FullIsExact` | cc/runtime/channel.c:2546-2550 | full is answered if and only if the queue holds the requested capacity at the load of head |
| `SpscRing.EmptyIsExact` | cc/runtime/channel.c:2564-2568 | empty is answered if and only if the queue is empty at the load of tail |
| `PowerOfTwo.PowerAbove` | cc/runtime/channel.c:1680-1692 | for 1 <= n <= 2^63 the 64-bit result is a power of two and not below n |
| `PowerOfTwo.LeastPower` | cc/runtime/channel.c:1680-1692 | no power of two that is not below n is smaller than the result |
| `PowerOfTwo.Wraps` | cc/runtime/channel.c:1680-1692 | the result wraps to 0 if and only if n > 2^63 |
| `PowerOfTwo.IndexBelow` | cc/runtime/channel.c:2553-2553 | masking with a power of two less one stays below the size and is the identity below it |
| `PowerOfTwo.IndexOfLap` | cc/runtime/channel.c:2553-2553 | positions one lap apart share a cell, also across the wrap of a 64-bit position |
| `RingIndex.IndexIsSlot` | cc/runtime/channel.c:2553-2553 | for a power-of-two size the 64-bit position counter masked with size - 1 is the slot of the unbounded position, for every position and however often the counter has wrapped |
| `RingIndex.CreatedRing` | cc/runtime/channel.c:1728-1738 | a ring created for a requested capacity up to 2^63 has at least that many cells, never holds more values than requested in any run, hands out what was put in order, and finds the cell of every position by its mask |
| `RecvPark.StepInv` | cc/runtime/channel.c:3929-4213 | every step of the receiver, of any sender and of stray wakes keeps the invariant that a receiver going to sleep past a claimed position has a sender about to notify it, and a notified sleeper has a sender about to unpark it |
| `RecvPark.RxKeeps` | cc/runtime/channel.c:3929-4213 | no step of the receiver (link, count, probe off the list, link again, count again, guarded park) creates a need for a wake |
| `RecvPark.TxCovers` | cc/runtime/channel.c:1596-1657 | a sender step that leaves the receiver uncovered is by a sender still on its way to notify, in spite of wake coalescing and skipped locks |
| `RecvPark.TxWakes` | cc/runtime/channel.c:1596-1657 | a sender step that leaves a notified receiver asleep is by a sender about to unpark it |
| `RecvPark.NoLostWake` | cc/runtime/channel.c:3929-4213 | in every run, when every sender has finished its notify, a parked receiver has tail == head and is linked and unnotified; that returns match what was taken and kept is `ReceiveReturnsOne` |
| `RecvPark.NoLostHandoff` | cc/runtime/channel.c:3237-3264 | every value handed directly to the receiver is returned by it; at most one is waiting to be noticed |
| `RecvPark.ReceiveReturnsOne` | cc/runtime/channel.c:3929-4213 | in every run the receives that have returned are as many as the positions taken from the ring plus the handoffs kept: a blocking receive never returns with nothing and never with two values |
| `RecvPark.SendPlacesOne` | cc/runtime/channel.c:3554-3616 | in every run each send that has returned has claimed one position or handed over one value, and no send does more |
| `RecvPark.ClaimsArePublished` | cc/runtime/channel.c:2649-2691 | every claimed position is published, or its sender is about to publish it |
| `RecvPark.ReceiveAlone` | cc/runtime/channel.c:3929-4213 | left alone, a receive ends within a bounded number of accesses: it returns the value handed to it, else the value at the head of the ring, else it parks, linked, if nothing has been claimed |
| `RecvPark.SendAlone` | cc/runtime/channel.c:1596-1657 | left alone on a ring with room, a send ends with its value handed to the unnotified waiter or published, with that waiter signalled and woken, and with exactly as many sections under the mutex as coalescing allows: none when nobody waits |
| `RecvPark.CountersAgree` | cc/runtime/channel.c:638-643 | in every run the waiter counter is positive exactly while the node is linked and unnotified, the in-flight counter exactly while it is linked and signalled |
| `WaitList.RecvList.constructor` | cc/runtime/channel.c:632-642 | an empty list with a null hint and zero counters |
| `WaitList.RecvList.Append` | cc/runtime/channel.c:985-1002 | linking at the tail keeps a well-formed doubly linked list and appends to its sequence |
| `WaitList.RecvList.Add` | cc/runtime/channel.c:1095-1104 | adding a waiter appends it, counts it and points a null hint at it |
| `WaitList.RecvList.Unlink` | cc/runtime/channel.c:1107-1121 | unlinking any node keeps a well-formed list over the remaining sequence and clears the node's links |
| `WaitList.RecvList.Settle` | cc/runtime/channel.c:1171-1179 | after an unlink the counters match the remaining notifications and the hint is null if and only if the list is empty, and otherwise linked |
| `WaitList.RecvList.Remove` | cc/runtime/channel.c:1156-1180 | removing a linked node removes exactly it; removing an unlinked one changes nothing |
| `WaitList.RecvList.UnlinkHead` | cc/runtime/channel.c:1403-1410 | the inlined head unlink leaves the tail of the sequence, well linked |
| `WaitList.RecvList.PopRecv` | cc/runtime/channel.c:1393-1460 | pop returns the first node that is unnotified with a live ticket and drops every node before it; null if and only if there is none, and then the list is empty |
| `WaitList.RecvList.SignalPass` | cc/runtime/channel.c:1286-1325 | one pass over the list carries a circular round forward to the end of the pass or of the budget |
| `WaitList.RecvList.TwoPasses` | cc/runtime/channel.c:1284-1328 | the pass from the hint to the tail and the pass from the head to the hint together are one circular round |
| `WaitList.RecvList.SignalWaiters` | cc/runtime/channel.c:1280-1331 | exactly min(k, wakeable) waiters move, each from NONE to SIGNAL and none that was notified or stale; with live tickets wakeable is has_recv_waiters; both counters follow; the hint moves behind the last one signalled or back to the head |
| `WaitList.RoundTotal` | cc/runtime/channel.c:1280-1331 | a circular round with budget k signals min(k, wakeable) nodes and changes no other |
| `WaitList.RoundAhead` | cc/runtime/channel.c:1286-1325 | a round does not touch the nodes it has not reached, so each is visited at most once |
| `WaitList.RoundStays` | cc/runtime/channel.c:1319-1322 | once its budget is spent a round does nothing more |
| `WaitList.WakeablesCount` | cc/runtime/channel.c:638-640 | with live tickets the wakeable nodes are those the waiter counter counts |
| `WaitList.RecvList.WakeOneClose` | cc/runtime/channel.c:1463-1498 | nothing happens on an empty list; otherwise the first node is unlinked and, with a live ticket, told CLOSE, and the rest is kept |
| `WaitList.RecvList.WakeAll` | cc/runtime/channel.c:1531-1541 | close empties the list, zeroes both counters and the hint, and tells CLOSE to every node with a live ticket |
| `Rendezvous.RunInv` | cc/runtime/channel.c:3285-3510 | every run of blocking, timed and non-blocking sends and receives and closes keeps: each list is exactly the unnotified sleepers of its side, and each call's history matches its state; the order of the lists is `RendezvousOrder.FirstLinkedFirstServed` |
| `Rendezvous.HandoffsPairUp` | cc/runtime/channel.c:3221-3279 | a call takes part in at most one handoff; handoffs pair one send with one receive, which holds the send's value |
| `RendezvousAnswers.CallsAreRecorded` | cc/runtime/channel.c:3285-3510 | the calls of every run are those it began, in order, with their kind and mode, and every send still has the value it was given |
| `RendezvousAnswers.ReceivesWhatWasGiven` | cc/runtime/channel.c:3221-3279 | a receive that was served holds what the send it met was given |
| `RendezvousOrder.FirstLinkedFirstServed` | cc/runtime/channel.c:985-1002 | in every run and for either side, the blocked calls that have been served, in the order they were served, followed by those that wait, in the order of their list, are in the order in which they blocked |
| `RendezvousOrder.EarlierComesFirst` | cc/runtime/channel.c:1338-1460 | of two calls of one side that were served or still wait, the one that blocked first was served first, or was served while the other waits, or is ahead in the list, and only then |
| `RendezvousOrder.StepMoves` | cc/runtime/channel.c:985-1002 | every step leaves a wait list alone, appends the call that blocks, removes its first node and serves that call, or removes nodes that it does not serve |
| `Rendezvous.ReceiveExactlyOnce` | cc/runtime/channel.c:3412-3510 | a receive returns 0 if and only if one send handed it a value |
| `Rendezvous.SendExactlyOnce` | cc/runtime/channel.c:3285-3397 | a send returns 0 if and only if one receive got its value, under every interleaving with timeouts, spurious wakes and closes, if receive-side closes carry an error code |
| `Rendezvous.FalseSuccessIff` | cc/runtime/channel.c:3360-3387 | a blocking or timed send on entry or after a wake, and a non-blocking send reading the flags after it found nobody, returns 0 without a handoff if and only if it finds the receive side closed with code 0, and on entry the channel not closed |
| `Rendezvous.TryFalseSuccessIff` | cc/runtime/channel.c:4272-4292 | the locked section of a non-blocking send returns 0 without a handoff if and only if the receive side is closed with code 0 and the channel is not closed |
| `Rendezvous.FalseSuccessHappens` | cc/runtime/channel.c:1954-1958 | a concrete run: the receive side is closed with code 0 and the next send returns 0 undelivered |
| `Rendezvous.ReturnedStays` | cc/runtime/channel.c:3285-3510 | a call that has returned is never served or changed later |
| `Rendezvous.FailsForAReason` | cc/runtime/channel.c:3376-3392 | a call that returns without a handoff does so only because its side is shut, with ETIMEDOUT if it has a deadline, or with EAGAIN if it may not wait |
| `RendezvousAnswers.ClosesAreRecorded` | cc/runtime/channel.c:1890-1926 | a side is shut if and only if a close of it was made, and each error code is the last non-zero one that such a close gave |
| `RendezvousAnswers.EnterAnswers` | cc/runtime/channel.c:3289-3307 | the first section of a call refuses with the close's code or EPIPE, returns 0 with the first waiter of the other side, or blocks, under exactly these conditions |
| `RendezvousAnswers.GoAnswers` | cc/runtime/channel.c:3308-3396 | a woken call returns 0 if it was served, reports the close with the receiver's code first for a send, times out only with a deadline, and sleeps on otherwise |
| `RendezvousAnswers.TryAnswers` | cc/runtime/channel.c:4272-4300 | a non-blocking call is refused on a shut send side, served by the first waiter, or about to fail |
| `RendezvousAnswers.FailAnswers` | cc/runtime/channel.c:4288-4292 | it then fails with EAGAIN while the channel is open and reports the close otherwise |
| `Rendezvous.NeverBothLinked` | cc/runtime/channel.c:1890-1940 | unnotified senders and receivers are never both linked; after close both lists are empty, after a receive-side close the send list is |
| `Rendezvous.NobodyStranded` | cc/runtime/channel.c:3285-3510 | a sleeping call that nobody notified is linked, on a side that is open, with nobody to trade with |
| `Rendezvous.CloseReachesAll` | cc/runtime/channel.c:1919-1923 | in every run no thread stays blocked on a condition variable of a side that has been shut |
| `Rendezvous.ServedIsAwakeIff` | cc/runtime/channel.c:3221-3279 | whichever blocked thread of its side the signal wakes, the call served is not blocked, if and only if no other thread is blocked on its condition variable |
| `Rendezvous.ServedAreAwake` | cc/runtime/channel.c:3221-3279 | in every run in which each thread served is alone on its condition variable, no call that has been served is blocked |
| `Rendezvous.ServedStaysBlocked` | cc/runtime/channel.c:3231-3234 | a concrete run of two receiving threads and a send, after which the thread served and the other one are both blocked |
| `Rendezvous.NoPartner` | cc/runtime/channel.c:3314-3326 | while a call waits there is nobody to trade with, so a woken sender's second look never finds a receiver |
| `Rendezvous.CloseInv` | cc/runtime/channel.c:1890-1940 | closing either side or both keeps the invariant |
| `FiberStates.StepInv` | cc/runtime/sched_v2.c:1102-1273 | safety of the life cycle (where each operation ends is `FiberOutcomes.FinishesAlone`): every step of any number of threads that spawn, pop, run, park, requeue, finish, signal, join and release any number of fibers keeps the link between state words, ready queue and holders, if and only if it is not a worker that sees the nursery of a life it did not run |
| `FiberStates.QueuedOnceRunningOnce` | cc/runtime/sched_v2.c:1102-1273 | in every run without that step, a fiber is in the ready queue at most once, QUEUED if and only if it is queued or in a push or pop window, RUNNING if and only if one worker runs it, and no two threads hold it |
| `FiberStates.PatientIsClean` | cc/runtime/sched_v2.c:2171-2173 | a run in which joiners release a fiber only after its worker's last access has no such step |
| `FiberStates.MisfreeHappens` | cc/runtime/sched_v2.c:1183-1197 | a concrete run in which the worker of an earlier life frees a fiber that is in the ready queue |
| `FiberStates.PoppedIsQueued` | cc/runtime/sched_v2.c:1103-1107 | a worker's sanity check on a popped fiber never fails in such a run |
| `FiberStates.NoLostSignal` | cc/runtime/sched_v2.c:1234-1273 | in such a run, after a signal takes effect the fiber is not PARKED, in any continuation, until it has been resumed again or has finished |
| `FiberStates.YieldComesBack` | cc/runtime/sched_v2.c:1203-1213 | in such a run, whatever follows a yield, the fiber is not PARKED until it has been resumed, and once its worker is idle again it is in the ready queue, or popped and about to be resumed, or has been resumed |
| `FiberOutcomes.FinishesAlone` | cc/runtime/sched_v2.c:1102-1273 | from every state of every such run, a worker, signaller or spawner that is left alone ends, and its fiber is where its operation promises: a yield, a spawn, a park with a signal pending and a signal to a parked fiber at the end of the ready queue, a popped fiber resumed, a park with none pending PARKED, a finished fiber freed if a nursery owns it and DEAD if not, a running one marked pending; no other fiber changes |
| `FiberOutcomes.CallBegins` | cc/runtime/sched_v2.c:245-271 | popping takes the oldest fiber of the queue, spawning takes a fiber that is in the pool, and only a finished fiber is released |
| `FiberOutcomes.ReadyInOrder` | cc/runtime/sched_v2.c:245-271 | in every such run fibers are popped in the order in which they were pushed |
| `FiberOutcomes.TurnsCount` | cc/runtime/sched_v2.c:1150-1161 | the turns counted for a fiber are the steps that resumed or ended it |
| `WorkerWake.StepInv` | cc/runtime/sched_v2.c:915-1096 | every step of any producer and any worker of a pool that starts a worker before it counts it keeps: the idle counter equals the flags up to the claims in progress, and queued work has a worker that is up, or the producer that ended the empty period still looking, or every worker stranded or left out of that producer's count |
| `WorkerWake.IdleWorkersAreWoken` | cc/runtime/sched_v2.c:915-974 | if the queue is non-empty and every worker is blocked with is_idle set, some producer is between its push and the end of its wake, although wakes on a deep queue are skipped |
| `WorkerWake.StrandedIffTrapped` | cc/runtime/sched_v2.c:1641-1660 | in every run a worker sleeps unclaimable, with its flag clear and no wake on its way, if and only if it passed its re-check of an empty queue with its flag taken and its counter already bumped, and has not woken spuriously since |
| `WorkerWake.LostWakeIff` | cc/runtime/sched_v2.c:915-953 | with queued work and no producer in its wake, every worker is asleep if and only if every worker took that step and has not woken spuriously since, or was left out asleep of the last count of the producer that ended the empty period and has not been relieved since |
| `WorkerWake.OneOverlooked` | cc/runtime/sched_v2.c:935-953 | in every run at most one worker is left out in this way, and never the first |
| `WorkerWake.NoStrandNoLoss` | cc/runtime/sched_v2.c:1641-1660 | in a run in which no worker passes its re-check with its flag already taken, queued work and no producer in its wake leave some worker up |
| `WorkerOutcomes.DepthIsOutstanding` | cc/runtime/sched_v2.c:245-271 | in every run the depth of the queue is what was pushed and has not been popped |
| `WorkerOutcomes.SleepsAlone` | cc/runtime/sched_v2.c:1632-1664 | left alone, a worker that is up drains the queue, marks itself idle, is counted once and sleeps on its wake counter |
| `WorkerOutcomes.RoundAlone` | cc/runtime/sched_v2.c:915-931 | left alone, one round of a producer claims, counts out and wakes the first worker flagged idle, and turns to starting another one only if it sees none |
| `WorkerOutcomes.TurnsAlone` | cc/runtime/sched_v2.c:934-974 | a push looks for a worker unless the queue was deep, and the pool grows by one counted worker up to its limit |
| `WorkerWake.LostWakeHappens` | cc/runtime/sched_v2.c:1641-1660 | a concrete run that ends with work queued, every producer finished and the only worker asleep |
| `WorkerWake.OverlookHappens` | cc/runtime/sched_v2.c:945-951 | a concrete run that ends the same way with a full pool of two, one of them asleep with is_idle set and counted too late |
| `JoinHandshake.RobbedIff` | cc/runtime/sched_v2.c:1171-1172 | a joiner counts as robbed if and only if, in its life of the target, a worker of an earlier life ran its exchange while the joiner was published |
| `JoinHandshake.WorkerFindsJoinerIff` | cc/runtime/sched_v2.c:1160-1175 | in every run over any number of lives, a worker at its exchange finds a joiner that waits if and only if it was not robbed |
| `JoinHandshake.JoinerNeverStranded` | cc/runtime/sched_v2.c:2545-2564 | once the completing worker has passed its exchange and unpark, a joining fiber that was not robbed is not parked and cannot commit a park, in every interleaving of publish, guarded park, park commit, stray wakes, completion, release and respawn |
| `JoinHandshake.ParkedIsForgotten` | cc/runtime/sched_v2.c:2545-2564 | a joiner parked past its worker's unpark was robbed, and nobody is left to unpark it unless the robber still is |
| `JoinHandshake.ForgottenForGood` | cc/runtime/sched_v2.c:2559-2562 | such a joiner stays parked in every continuation without a stray wake |
| `JoinHandshake.PatientNeverRobbed` | cc/runtime/sched_v2.c:2171-2173 | nobody is robbed in a run that never releases the target between its worker's store of done and its exchange |
| `JoinHandshake.RobberyHappens` | cc/runtime/sched_v2.c:1161-1175 | a concrete run that ends with the workers of both lives finished and the second joiner parked for good |
| `JoinHandshake.ThreadsNeverStranded` | cc/runtime/sched_v2.c:2566-2571 | in every run, also across reuse, once the worker has bumped the wake counter no thread joiner sleeps on the value it read |
| `JoinHandshake.JoinReturnsResult` | cc/runtime/sched_v2.c:2524-2574 | every join, in every life of the target, returns the result of the life it joined |
| `JoinOutcomes.JoinReturns` | cc/runtime/sched_v2.c:2545-2564 | in every run, once the worker of the target has unparked the waiter, a join that was not robbed and is left alone returns the result |
| `JoinOutcomes.JoinAlone` | cc/runtime/sched_v2.c:2524-2564 | from every state of every run, a join left alone returns the result and clears its publication if the target is done and it has not gone past its last look, and otherwise parks under its publication |
| `JoinOutcomes.CompletionAlone` | cc/runtime/sched_v2.c:1160-1176 | left alone, the worker of any life stores result and done, takes the waiter slot, unparks whoever it found there and bumps the wake counter once |
| `JoinOutcomes.ThreadReturns` | cc/runtime/sched_v2.c:2566-2574 | once the worker has finished, a joining thread left alone returns the result |
| `JoinOutcomes.ThreadJoinAlone` | cc/runtime/sched_v2.c:2566-2574 | a joining thread left alone returns if the target is done and it is not asleep, and sleeps on the current counter otherwise |
| `ReadyQueue.Queue.Push` | cc/runtime/sched_v2.c:245-257 | a fiber that is not queued is appended; the depth before is returned; the chain stays well formed |
| `ReadyQueue.Queue.Pop` | cc/runtime/sched_v2.c:259-271 | the oldest fiber is removed, or null if and only if the queue is empty |
| `Nursery.RunInv` | cc/runtime/nursery.c:447-470 | in every run of owner, children that spawn and fail to spawn, and finishing workers, the count is what children and spawns in progress hold of it |
| `Nursery.AliveIsOutstanding` | cc/runtime/nursery.c:455-464 | the count is children spawned minus children notified plus the spawns in progress |
| `Nursery.BarrierWaitsForAll` | cc/runtime/nursery.c:549-557 | once the barrier has let go, or a channel has been closed by wait, every child ever spawned has notified and the count is zero |
| `Nursery.WaitClosesAll` | cc/runtime/nursery.c:586-597 | when wait returns every owned channel has been closed |
| `Nursery.OwnerNotStranded` | cc/runtime/nursery.c:529-556 | the owner never stays asleep once the last notifier has finished |
| `Nursery.WaitAlone` | cc/runtime/nursery.c:549-597 | from every state of every run, the owner left alone closes every owned channel and returns if nobody is alive, and sleeps on the current wake counter if somebody is |
| `Nursery.ChildAlone` | cc/runtime/nursery.c:529-535 | left alone, a child ends and gives back what it holds of the count, and the last one bumps the wake counter |
| `Nursery.SpawnAlone` | cc/runtime/nursery.c:447-470 | a spawn that succeeds adds one running child and one to the count, one that fails leaves everything as it was |
| `Nursery.FailedSpawnNotLast` | cc/runtime/nursery.c:466-470 | a failed spawn by a child never takes the count to zero, so its missing wake does no harm |
| `Nursery.TouchedAfterWaitIff` | cc/runtime/nursery.c:528-558 | after wait has returned, a step of a child changes the nursery if and only if the owner read a count of zero before that child's bump |
| `Nursery.TouchHappens` | cc/runtime/nursery.c:528-558 | a concrete run in which the owner returns from wait between the two accesses of the last child |
| `OwnedPool.ItemsAccountedFor` | cc/runtime/channel.c:3767-3817 | in every interleaving of receives, creations, returns and handoffs on the ring, items created never exceed the maximum and equal held plus carried plus in the ring |
| `PoolAccounts.ItemsBalance` | cc/runtime/channel.c:3767-3817 | told from the calls: in every run, items held are those that receives were given, less those put back or passed on, plus those refused, and items that exist are those made by a receive that found fewer than the maximum |
| `PoolAccounts.TwoLooksFirst` | cc/runtime/channel.c:3770-3790 | in every run a receive makes an item, or blocks, only after it has found the ring empty twice |
| `PoolAccounts.ReceiveGoesOn` | cc/runtime/channel.c:3776-3812 | a receive looks again after its first look in vain, makes an item if and only if fewer than the maximum exist, and otherwise blocks and keeps looking |
| `OwnedPool.AlwaysRoom` | cc/runtime/channel.c:1782-1805 | while an item is being returned the ring holds fewer than the maximum |
| `OwnedPool.FullIffStalledReceiver` | cc/runtime/channel.c:2654-2681 | a return is told full if and only if the receiver that claimed the position one lap behind the tail has not released its cell |
| `OwnedPool.ReturnFindsFull` | cc/runtime/channel.c:3767-3817 | a concrete run in which a return finds the ring empty and is told that it is full |
| `AsyncChan.RunInv` | cc/runtime/async_chan.c:166-279 | every run of sends, receives and closes in every mode keeps: each list names exactly the calls with its fate, and completions and received values match the histories |
| `AsyncChan.NeverBothPending` | cc/runtime/async_chan.c:129-143 | a pending receive means an empty buffer and no pending send |
| `AsyncChan.CompletesOnce` | cc/runtime/async_chan.c:60-63 | every call is signalled at most once; an accepted call is pending or signalled, never both, and a rejected one neither |
| `AsyncChan.ValuesArePartitioned` | cc/runtime/async_chan.c:166-279 | every accepted value is in exactly one place: buffer, pending sends, one receive that holds it, dropped in DROP_OLD mode only, or refused at close |
| `AsyncChan.CloseCompletesAll` | cc/runtime/async_chan.c:77-86 | after close every accepted call has been signalled |
| `AsyncCodes.SendDoes` | cc/runtime/async_chan.c:194-230 | a send returns EINVAL if and only if its size is 0 or differs from the channel's, ENOMEM if and only if memory for the buffer or for the pending send is missing, EAGAIN if and only if the buffer is full in DROP_NEW mode, and 0 otherwise; accepted, it meets the oldest pending receive, is buffered, or waits, and no other call changes but its mate and, in DROP_OLD mode, the oldest buffered value |
| `AsyncCodes.RecvDoes` | cc/runtime/async_chan.c:247-279 | the same for a receive: it takes the oldest buffered value, else that of the oldest pending send, else it waits |
| `AsyncCodes.Standing` | cc/runtime/async_chan.c:36-86 | in every run the channel keeps its mode and capacity, its element size is the first non-zero size ever given, it has its buffer if and only if some send of that size found memory, and it is closed if and only if close was called |
| `AsyncCodes.CallsAreRecorded` | cc/runtime/async_chan.c:194-279 | the history of every run is that of the calls made, in order, each send with the value it was given |
| `AsyncOrder.ReceivesServedInOrder` | cc/runtime/async_chan.c:208-218 | in every run the receives served, in the order they were served, followed by the pending ones are in the order of their calls |
| `AsyncOrder.OrderKeptIff` | cc/runtime/async_chan.c:194-279 | the sends delivered so far followed by those on their way stay in the order of acceptance in a step of any run if and only if the step is not a send buffered while earlier sends are pending |
| `AsyncOrder.DeliversInOrder` | cc/runtime/async_chan.c:194-279 | in a run without such a step, of any two delivered sends the earlier one went to the earlier receive |
| `AsyncOrder.InvertedIff` | cc/runtime/async_chan.c:247-279 | in any run, of two delivered sends the earlier one went to the later receive if and only if some step delivered the later send while the earlier one was still on its way |
| `AsyncOrder.OvertakeHappens` | cc/runtime/async_chan.c:247-279 | a concrete run with capacity 1 in which the third value sent is received before the second |
| `AsyncChan.SendCode` | cc/runtime/async_chan.c:194-230 | the code a send returns, for every size mismatch and allocation failure, is recorded with its value in its history |
| `AsyncChan.RecvCode` | cc/runtime/async_chan.c:247-279 | the same for a receive |
| `Circular.Buffer.Enqueue` | cc/runtime/async_chan.c:177-182 | the circular buffer appends |
| `Circular.Buffer.Dequeue` | cc/runtime/async_chan.c:185-192 | the circular buffer removes the oldest value, or reports that it is empty and changes nothing |
| `AsyncChan.Chan.constructor` | cc/runtime/async_chan.c:65-75 | an empty channel; capacity 0 means 64 |
| `AsyncChan.Chan.SendValue` | cc/runtime/async_chan.c:194-230 | the stored channel, completions and returned code after a send are those of the model and of the call's history, for every mode, size mismatch and allocation failure |
| `AsyncChan.Chan.RecvValue` | cc/runtime/async_chan.c:247-279 | the same for a receive |
| `AsyncChan.Chan.CloseAll` | cc/runtime/async_chan.c:77-86 | the same for close |
| `Executor.AcceptedAreTakenInOrder` | cc/runtime/exec.c:46-163 | in every run of submits, grows, takes and shutdown, jobs taken followed by jobs queued are exactly the jobs accepted, in order |
| `Executor.AnswersAreTrue` | cc/runtime/exec.c:46-163 | in every run workers get exactly the jobs whose submit was answered with 0, in that order, and the rest of those is queued |
| `Executor.DownIffShut` | cc/runtime/exec.c:165-171 | an executor is shut down if and only if shutdown was called |
| `Executor.BoundedStaysBounded` | cc/runtime/exec.c:104-129 | a bounded executor never outgrows its capacity |
| `Executor.ExitLeavesNothing` | cc/runtime/exec.c:46-65 | once a worker may exit, every accepted job has been taken, now and in every later state |
| `Executor.Exec.constructor` | cc/runtime/exec.c:67-86 | an empty queue; capacity 0 means unbounded from 128 |
| `Circular.Buffer.Grow` | cc/runtime/exec.c:32-44 | growing linearises the circular array and preserves the queue |
| `Executor.Exec.MakeRoom` | cc/runtime/exec.c:108-120 | a full queue grows if the executor is unbounded, its doubled capacity does not wrap and memory is there; otherwise nothing changes and the caller is told |
| `Executor.Exec.TrySubmit` | cc/runtime/exec.c:104-163 | one attempt of a submit, blocking or not: answered 0 if and only if the job is then at the end of the queue, EINVAL if and only if there is no function or shutdown is set, EAGAIN or a wait if and only if the queue is full and cannot grow; the queue is otherwise unchanged |
| `Executor.Exec.TakeJob` | cc/runtime/exec.c:46-65 | a worker gets and removes the oldest job if there is one, and otherwise changes nothing: it exits if shutdown is set and sleeps if not |
| `Circular.WindowPush` | cc/runtime/exec.c:121-124 | storing at the tail index appends to the window of a circular array |
| `Circular.WindowPop` | cc/runtime/exec.c:57-59 | advancing the head index removes the front of the window |

## Left out

- Weak-memory reordering, spin budgets, tracing, statistics and environment knobs: sequential consistency and default settings are assumed.
- The wrap of the 64-bit sequence-number and occupancy differences: they are taken on unbounded positions; the cell index alone is proved across the wrap.
- Several receivers on one ring channel: lost-wake freedom is stated for one receiver, because wake coalescing (`cc/runtime/channel.c:1631-1640`) lets further receivers stay parked while one wake is in flight.
- Channel-level order across direct handoff: a handoff can overtake ring items (`cc/runtime/channel.c:3568-3592`), so order is a property of the ring only.
- Non-fiber receivers on the condition variable, deadlines and the send-side wait list of buffered channels.
- Multi-channel select and its unlocked re-arm, and wait nodes of select: the lists hold plain waiters.
- The liblfds fallback queue, the mutex-only buffered path and channels of capacity 1: the ring needs at least two cells.
- More than one fiber joining the same life of a fiber: the waiter slot holds one. A fiber is released only after all joins of it have returned, and once.
- Worker eviction, the admission cap and the periodic safety-net wake of the system monitor.
- The lock-free free list of fibers: allocation is an atomic choice of a pooled fiber.
- WaitList: tickets are a set of stale nodes fixed for the duration of one section; signal deduplication is at its default, on.
- Rendezvous: stale tickets are left out, and an error of the timed wait other than a timeout; the unlocked tests of the closed flags before the mutex are covered by the locked ones, with the same codes; the unlocked reads after a failed try are one action.
- OwnedPool: closing, deadline scopes and select on a pool; item identities are counted, not named.
- Nursery: classic join mode, and spawns by threads that are neither the owner before it waits nor a living child.
- AsyncChan: after close a send or receive is accepted as before, as in the source; calls left pending then complete only at the next close. The deadline variants and the slice checks are not modelled.
- Executor: starting and joining threads; a caller waiting on a condition variable appears as repeated attempts, and the wrap of the byte size passed to malloc is not modelled.
- Networking, I/O, processes, directories, HTTP and coroutine context switching.
