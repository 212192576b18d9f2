# Models of Cyan's concurrent and event-driven core

Cyan is an event-driven library in three layers: lock-free containers, an event loop
(its own wrappers around libev), and dispatch of messages to worker threads. This
project models the stateful core of each layer and proves what the layer above relies on.
`dafny verify dfyconfig.toml` checks everything.

## The models

Lock-free layer

- `LockFreeQueue`, `LockFreeQueueShape`, `LockFreeQueueLinear`, `LockFreeQueueProgress`,
  `LockFreeQueueEmpty`, `LockFreeQueueMisled`: the Michael-Scott queue as a transition
  system with any number of threads. Each atomic load and compare-exchange, and the read
  of a node's data, is a step. The invariant ranks the nodes by the order in which they
  were linked; from it follow that only nodes are dereferenced, a step-by-step
  refinement of an atomic queue, first-in-first-out order of every run, obstruction
  freedom, and what the two loads of `empty()` may conclude.
- `Freelist`, `SequentialQueue`: the same queue and its pool as heap objects in the hands
  of one thread. The invariant lets the tail lag by one, so the helping branches are live.

Event layer

- `AsyncWakeup`: senders and the loop over libev's wake-up flags and pipe, flag access by
  flag access, including the wrapper's counter and sends from the loop thread.
- `Watchers`, `TimerHeap`, `PendingQueues`, `Timers`: libev's 4-ary timer heap with
  back-indices, its pending queues with callbacks that feed and clear, and the timers
  that use both. Times are exact reals. Event masks are sets of bits.
- `TimerWheel`: Cyan's timer wheel over a multimap with lazy reset, its callbacks posting,
  cancelling and resetting. Times are whole nanoseconds.
- `InterestSet`: io watchers in linked lists, the list of changed descriptors, `fd_reify`,
  and the poll backend's dense array with its sparse index.
- `Growth`, `Periodic`: how arrays grow; the arithmetic of periodic watchers.

Dispatch layer

- `SerialToken`: any number of posters and workers; every counter access, queue operation,
  start and end of a callable is a step.
- `SerialTokenFound`: that in the same runs no message is lost, each runs once on its own
  worker, and there is always a way for all to run.
- `SafeStop`, `SafeStopOnce`: stopping a worker against concurrent posts, and what becomes
  of every message.
- `DrainQueue`: `process_queue` as a loop over a heap object, with messages that have to
  be put back.
- `RoundRobin`: how the thread pool picks a worker.

`Basics` holds what several of them use.

The upper layers use the lower ones as proved: the dispatch models take a worker's queue
as an atomic first-in-first-out queue whose `empty()` answers the worker, its sole
consumer, as `ConsumerAnswer` says and a caller of `stop()` no better than `TrueAnswer`
and `EmptyMisleads` allow, and its async event as the lossless wake-up of `NoLostWakeup`.

Classes whose methods change fields are classes here, with the values of their fields
collected in a datatype (`Snap`, `View`, `Links`) on which the lemmas are stated: each
method's contract says which function of the old value the new value is, and the lemmas
say what that function means. Where a callback may do anything, a script says what the
n-th callback does; the contracts hold for every script. Clocks, the choices of poll and
the answers of the operating system are parameters or steps.

Some results say exactly when a property holds:

- of two expired timers of one priority the earlier runs first just when it was not
  pending already or does not repeat, or both repeat, were pending and it was ahead
  (`Timers.OrderIff`, `Timers.TurnsTaken`, `Timers.LateTimer`);
- the timer wheel's two containers stay matched just when a new id is not in use
  (`TimerWheel.PostOk`, `TimerWheel.PostCollides`);
- its keys stay at or before the expiries, on which bounded lateness rests, just when a
  posted timeout is not positive or of whole milliseconds (`TimerWheel.PostOnTime`,
  `TimerWheel.WholeMilliseconds`, `TimerWheel.PartMillisecond`);
- `periodic_recalc` gives the next point just when its start is a point, which needs an
  interval of at least `MIN_INTERVAL` to be sure (`Periodic.NextPointIff`,
  `Periodic.ShortIntervalMisses`);
- `process_queue` ends on a lone worker just when no message waits for one that is not in
  the queue (`DrainQueue.DrainsIff`, `DrainQueue.LoneSuccessor`);
- `empty()` answers for one moment when nobody else takes values, and otherwise need not
  (`LockFreeQueueEmpty.ConsumerAnswer`, `LockFreeQueueMisled.EmptyMisleads`);
- an async callback ends in another send just when more than one call was counted, and
  from then on always (`AsyncWakeup.ResendIff`, `AsyncWakeup.SendsAgain`,
  `AsyncWakeup.TwoSends`): the counter never comes to rest after two sends that one
  callback answers;
- the number test of serial tokens confuses two messages just when their numbers differ by
  a multiple of 2^64 (`SerialToken.SamePass`).

In `TimerHeap.MinChild` the fourth test of the slow path is left out, and in
`Periodic.EvFloor` the test `v == v - 1`: neither can succeed, with fewer than four
children and with exact reals.

## Model

| member | source | states |
|---|---|---|
| `LockFreeQueueShape.InitHasShape` | lockfree/cyan/lockfree/queue.h:168-174 | a queue just initialised, one dummy node with both ends on it, has the shape |
| `LockFreeQueueShape.StepKeepsShape` | lockfree/cyan/lockfree/queue.h:110-203 | whatever thread takes whatever atomic step of enqueue, try_dequeue or empty, the shape stays: one chain of nodes, the tail one of its last two, every local copy in a thread's hands a value the shared variable has had, handed-back nodes never reachable |
| `LockFreeQueueShape.AllocateKeepsShape` | lockfree/cyan/lockfree/queue.h:98-108 | allocating and constructing a node disturbs no other thread |
| `LockFreeQueueShape.LinkKeepsShape` | lockfree/cyan/lockfree/queue.h:187-188 | the exchange of the last node's next, when it succeeds, makes the chain one node longer and keeps the shape |
| `LockFreeQueueShape.SwingKeepsShape` | lockfree/cyan/lockfree/queue.h:189-199 | the exchanges of tail_, by the owner or by a helper, move it up one node or fail, and keep the shape |
| `LockFreeQueueShape.TakeKeepsShape` | lockfree/cyan/lockfree/queue.h:124-127 | the exchange of head_, when it succeeds, moves it up one node and gives the old dummy to one thread alone |
| `LockFreeQueueShape.RetireKeepsShape` | lockfree/cyan/lockfree/queue.h:128-130 | handing back the old dummy keeps the shape: it was before the head and the only one its thread had, and no other thread hands it back; a thread with an older copy may still read it, for a handed-back node stays readable in the model |
| `LockFreeQueueShape.ShapeIsSafe` | lockfree/cyan/lockfree/queue.h:110-203 | in a well-shaped state no thread dereferences a null pointer or one to no node; in particular next is not null when next->data is read |
| `LockFreeQueueLinear.StepRefines` | lockfree/cyan/lockfree/queue.h:110-203 | each step does to an atomic queue exactly what its event says: the link exchange appends one value, the head exchange removes exactly the first, a null next read by a dequeue means the queue is empty then, no other step changes the contents |
| `LockFreeQueueLinear.SawEmptyRefines` | lockfree/cyan/lockfree/queue.h:114-119 | when the load of head->next gives null, the queue is empty at that moment |
| `LockFreeQueueLinear.NullNextAgrees` | lockfree/cyan/lockfree/queue.h:117-119 | a dequeue that read a null next also read head and tail equal, so false is returned only then |
| `LockFreeQueueLinear.RunKeepsShape` | lockfree/cyan/lockfree/queue.h:110-203 | every state of every run, with any number of threads, has the shape |
| `LockFreeQueueLinear.RunIsSafe` | lockfree/cyan/lockfree/queue.h:110-203 | in no run does a thread follow a null pointer or one to memory that never was a node, so every reachable state can be continued by every thread; nodes already handed back count as readable |
| `LockFreeQueueEmpty.RetiredReadsAreVain` | lockfree/cyan/lockfree/queue.h:112-130 | a stalled thread does read through a node that another has handed back, but nothing comes of it: its step changes no shared variable, returns nothing, and leads to a failed exchange or comparison and a new try |
| `LockFreeQueueLinear.RunRefines` | lockfree/cyan/lockfree/queue.h:110-203 | linearizability: every run is step by step a run of the atomic queue, whose calls take effect in one step between call and return |
| `LockFreeQueueLinear.RunIsFifo` | lockfree/cyan/lockfree/queue.h:110-203 | in every run the values taken, followed by the contents, are the values put in, in their order |
| `LockFreeQueueProgress.QueueShape` | lockfree/cyan/lockfree/queue.h:112-127 | the chain from head_ reaches tail_; tail_ lags by at most one node, and only while the enqueue that linked the last node is between its two exchanges |
| `LockFreeQueueProgress.EndsAgree` | lockfree/cyan/lockfree/queue.h:137-139 | when the ends are equal at one moment, the queue is empty then or holds one value of an enqueue that has not returned |
| `LockFreeQueueEmpty.ConsumerAnswer` | lockfree/cyan/lockfree/queue.h:137-139 | empty(), two loads in either order, asked by the sole consumer or while nobody takes a value between the loads: true just when the ends were equal as the tail was loaded, and then the queue was empty or held one value of an enqueue that had not returned; false only when it held something then |
| `LockFreeQueueEmpty.TrueAnswer` | lockfree/cyan/lockfree/queue.h:137-139 | empty() asked by any thread: true means that every value linked before the first load was taken before the second, but perhaps one, of an enqueue that had not returned |
| `LockFreeQueueMisled.EmptyMisleads` | lockfree/cyan/lockfree/queue.h:137-139 | no more than that holds: a run in which empty() answers true to a thread that is not the consumer while a value whose enqueue has returned is in the queue and no other call is under way |
| `LockFreeQueueProgress.EndsMoveByOne` | lockfree/cyan/lockfree/tagged_ptr.h:72-74 | every change of head_ or tail_ is to the next node with the tag one higher, although enqueue loads the tag of tail_ a second time |
| `LockFreeQueueProgress.StepCosts` | lockfree/cyan/lockfree/queue.h:176-203 | every step of a call that runs undisturbed makes its distance to the return smaller, out-of-date copies and a lagging tail included |
| `LockFreeQueueProgress.AloneReturns` | lockfree/cyan/lockfree/queue.h:110-203 | obstruction freedom: from every reachable state a call that runs alone returns within 16 steps |
| `Freelist.Freelist.constructor` | lockfree/cyan/lockfree/freelist.h:46-52 | a new pool has max_size free nodes and none given out |
| `Freelist.Freelist.Allocate` | lockfree/cyan/lockfree/freelist.h:67-76 | gives the first free node, or a new one when there is none; free and given-out nodes stay disjoint, and free plus given out stays at least max_size |
| `Freelist.Freelist.Deallocate` | lockfree/cyan/lockfree/freelist.h:78-88 | takes a node back in front of the others, or frees it when the pool is full; the same invariants |
| `Freelist.Freelist.Destroy` | lockfree/cyan/lockfree/freelist.h:54-65 | with all nodes back the destructor's assertion holds and each of the max_size nodes is released exactly once |
| `Freelist.ChainPush` | lockfree/cyan/lockfree/freelist.h:84-86 | a node linked in front of the list makes a list one longer |
| `SequentialQueue.Queue.constructor` | lockfree/cyan/lockfree/queue.h:66-71 | a new queue is empty and keeps the invariant, its dummy the only node taken from the pool |
| `SequentialQueue.Queue.Initialize` | lockfree/cyan/lockfree/queue.h:168-174 | the dummy node makes an empty queue |
| `SequentialQueue.Queue.TryDequeue` | lockfree/cyan/lockfree/queue.h:110-135 | succeeds just when something is queued, and then removes and returns the first; with a lagging tail it helps first and still does |
| `SequentialQueue.Queue.LinkAndSwing` | lockfree/cyan/lockfree/queue.h:184-193 | appends the node and moves the tail to it |
| `SequentialQueue.Queue.EnqueueNode` | lockfree/cyan/lockfree/queue.h:176-203 | appends the node's value to the contents, helping a lagging tail first |
| `SequentialQueue.Queue.Enqueue` | lockfree/cyan/lockfree/queue.h:98-108 | appends the value to the contents, using one node of the pool |
| `SequentialQueue.Queue.Empty` | lockfree/cyan/lockfree/queue.h:137-139 | answers whether the number of queued values equals the tail's lag, so with no lag whether the queue is empty |
| `SequentialQueue.Queue.ReturnFirst` | lockfree/cyan/lockfree/queue.h:127-130 | the old dummy goes back to the pool; the rest of the chain and its data stay |
| `SequentialQueue.Queue.Destroy` | lockfree/cyan/lockfree/queue.h:73-85 | gives back every node including the last, so that the pool's destructor finds all max_size |
| `AsyncWakeup.StepKeepsInv` | event/cyan/external/ev/ev.c:2777-2890 | every step of every sender and of the loop keeps: a marked watcher is announced by the pending flag or will be, the pending flag by the skip flag or the pipe or will be, and a blocked loop is not skipped |
| `AsyncWakeup.PathKeepsInv` | event/cyan/external/ev/ev.c:4088-4167 | the same over every run |
| `AsyncWakeup.NoLostWakeup` | event/cyan/external/ev/ev.c:2777-2823 | in every run, when the loop is blocked in poll and no call is under way, a watcher with sent set or a raised pending flag means the wake-up pipe is readable, sends that return early included |
| `AsyncWakeup.ScanFeeds` | event/cyan/external/ev/ev.c:2872-2889 | the scan in pipecb feeds exactly the marked watchers and clears their marks |
| `AsyncWakeup.PipecbFeeds` | event/cyan/external/ev/ev.c:2827-2890 | pipecb with the pending flag up feeds every marked watcher and leaves no flag behind |
| `AsyncWakeup.MarkedIsDelivered` | event/cyan/event/basic_async.txx:62-73 | from poll with a watcher marked and no call under way, the loop on its own comes to a state in which every marked watcher's callback is pending |
| `AsyncWakeup.StepOnWay` | event/cyan/external/ev/ev.c:2827-2890 | from a poll that will call pipecb, whoever steps and whatever the loop chooses, a marked watcher stays on its way to being fed, and each step of the loop brings it nearer, calls the loop makes itself left out |
| `AsyncWakeup.DeliveryInevitable` | event/cyan/external/ev/ev.c:4088-4167 | delivery is inevitable: in every path from poll with a watcher marked and announced, other threads sending as they please, the watcher is fed within a stated number of steps of the loop |
| `AsyncWakeup.SendBegins` | event/cyan/event/basic_async.txx:62-73 | a send by an idle sender thread, or by the application code that the loop runs, begins a call |
| `AsyncWakeup.CallMoves` | event/cyan/event/basic_async.txx:62-73 | a call of send is moved by its own caller alone, each step as the code has it, and returns within nine of them |
| `AsyncWakeup.SendMarks` | event/cyan/external/ev/ev.c:5437-5442 | in every path every call of send, by whichever thread, meets its watcher marked between its begin and its return: by itself or by another call it found |
| `AsyncWakeup.SendIsAnnounced` | event/cyan/external/ev/ev.c:5437-5442 | in every run, when a send returns the watcher has been fed since the send began, or is marked and announced by the pending flag, by a call about to raise it, or by the scan under way |
| `AsyncWakeup.SendIsDelivered` | event/cyan/event/basic_async.txx:62-73 | from send to feed: in every run the watcher of every send is fed after the send began, at the latest within the stated number of the loop's steps after it next polls with nobody in the middle of announcing |
| `AsyncWakeup.FedIsCalled` | event/cyan/external/ev/ev.c:3754-3775 | in every path the callback of a fed watcher runs before the loop goes round again |
| `AsyncWakeup.RoundEnds` | event/cyan/external/ev/ev.c:4088-4167 | a loop whose invoking loop does not idle goes round within a stated number of its steps, whatever the sender threads do |
| `AsyncWakeup.CounterIs` | event/cyan/event/basic_async.txx:63-82 | in every run the wrapper's counter is the number of calls begun less the callbacks ended, modulo 2^32 |
| `AsyncWakeup.ResendIff` | event/cyan/event/basic_async.txx:81-83 | when a callback ends the wrapper sends again just when the counter was above one |
| `AsyncWakeup.SendsAgain` | event/cyan/event/basic_async.txx:77-84 | once the counter has been above one, and as long as it does not wrap round, every callback of the watcher ends in another send, and so for ever |
| `AsyncWakeup.TwoSends` | event/cyan/event/basic_async.txx:62-73 | that state is reached: two sends before the loop has polled |
| `SerialToken.StepKeepsInv` | dispatch/cyan/dispatch/handler_thread.cxx:83-91 | every post, enqueue, stop and worker step keeps: what is in a queue or in somebody's hands is there only, the completed messages are those below executing_sequence, at most one holder per token |
| `SerialToken.RunKeepsInv` | dispatch/cyan/dispatch/handler_thread.cxx:136-151 | the same over every run of any number of posters and workers |
| `SerialToken.AcquireAlone` | dispatch/cyan/dispatch/serial_token.cxx:40-42 | when the equality test succeeds nobody holds the token |
| `SerialToken.HoldersAgree` | dispatch/cyan/dispatch/serial_token.cxx:40-46 | two workers that hold one token are the same, and run the message numbered executing_sequence |
| `SerialToken.OneAtATime` | dispatch/cyan/dispatch/message.h:95-104 | in every run at most one callable of a token is between acquire and release |
| `SerialToken.InTicketOrder` | dispatch/cyan/dispatch/message.cxx:44-56 | in every run the callables of a token start and finish strictly one after the other in the order of their numbers from 0, on whatever workers and in whatever order they were queued |
| `SerialToken.CompletedIsPrefix` | dispatch/cyan/dispatch/serial_token.cxx:44-50 | the completed messages of a token are always exactly those numbered below executing_sequence |
| `SerialToken.SamePass` | dispatch/cyan/dispatch/serial_token.cxx:40-42 | two messages of a token pass the same test just when their numbers differ by a multiple of 2^64, which is why fewer may be outstanding |
| `SerialTokenFound.StepKeepsFound` | dispatch/cyan/dispatch/handler_thread.cxx:136-151 | every step keeps: each message, with or without a token, is in the hands or in the queue its place names, on its way to or at the worker it was posted to, or done, or dropped by that worker stopping; every number handed out belongs to a message; a callable has started and ended as often as its place says |
| `SerialTokenFound.NumberedInOrder` | dispatch/cyan/dispatch/serial_token.cxx:48-50 | the messages of a token are numbered from 0 in the order of its posts |
| `SerialTokenFound.PostIsKept` | dispatch/cyan/dispatch/handler_thread.cxx:83-91 | in every run what was posted stays accounted for ever after, for the worker it was posted to |
| `SerialTokenFound.InOnePlace` | dispatch/cyan/dispatch/handler_thread.cxx:138-150 | in every run a posted message is in exactly one queue, once, or one pair of hands, of its own worker, or is done, or that worker is stopping and dropped it |
| `SerialTokenFound.OutstandingIsSomewhere` | dispatch/cyan/dispatch/serial_token.cxx:40-50 | with nothing stopping, each of a token's messages from executing_sequence to the last number handed out is in a queue or in hand |
| `SerialTokenFound.RunsOnce` | dispatch/cyan/dispatch/message.h:95-104 | in every run no callable starts or ends twice, and a message is done only when its callable has run to its end |
| `SerialTokenFound.TestIff` | dispatch/cyan/dispatch/handler_thread.cxx:145-149 | a worker runs the message it tests just when that has no token or is the token's next, and otherwise puts it back |
| `SerialTokenFound.CanFinish` | dispatch/cyan/dispatch/handler_thread.cxx:138-150 | no deadlock: from every reachable state with no worker stopping, posters and workers can bring it about that every message has run, each worker putting back what it may not run yet |
| `SerialTokenFound.RunCanFinish` | dispatch/cyan/dispatch/handler_thread.cxx:138-150 | the same of every state of every run |
| `SafeStop.StepKeepsInv` | dispatch/cyan/dispatch/handler_thread.cxx:65-97 | every step of posters, of callers of stop and of the worker keeps: what is queued behind the worker's back has announced itself or will, and no message that was there before stop waits behind the stop message; stop's empty() may answer true although returned messages are queued, as EmptyMisleads has it |
| `SafeStop.RunKeepsInv` | dispatch/cyan/dispatch/handler_thread.cxx:136-156 | the same over every run |
| `SafeStop.EarlyIsProcessed` | dispatch/cyan/dispatch/handler_thread.cxx:111-117 | an untimed, token-free message whose enqueue returned before stop was called is processed before on_finalize |
| `SafeStop.NeverLeftAsleep` | dispatch/cyan/dispatch/handler_thread.cxx:65-73 | after stop, with no stop call under way, a sleeping worker has a wake-up pending or one about to be sent |
| `SafeStop.WorkerProgress` | dispatch/cyan/dispatch/handler_thread.cxx:136-156 | after stop, with no call under way, the worker can always go on and each of its steps lowers a measure over messages, wake-ups and place in the code |
| `SafeStop.StopEnds` | dispatch/cyan/dispatch/message.cxx:98-100 | stopping ends: the worker on its own comes to its end, whatever the serial tokens answer, with every early message processed |
| `SafeStopOnce.StepKeepsOnce` | dispatch/cyan/dispatch/handler_thread.cxx:83-97 | every step keeps: of each message posted there is one, with its poster, in the queue, in the worker's hand, processed, handed to the timer wheel or dropped |
| `SafeStopOnce.InOnePlace` | dispatch/cyan/dispatch/handler_thread.cxx:136-156 | conservation in every run, for plain, timed and serial messages: none lost, none doubled, the timed ones handed to the wheel and no others, none dropped but while stopping |
| `SafeStopOnce.KeptUntilStop` | dispatch/cyan/dispatch/handler_thread.cxx:83-91 | until stop is called a plain message posted is with its poster, or its enqueue has returned having queued it |
| `SafeStopOnce.EarlyRunsOnce` | dispatch/cyan/dispatch/handler_thread.cxx:111-117 | an untimed, token-free message whose enqueue returned before stop was called has been processed exactly once when the worker finalizes |
| `SafeStopOnce.EnqueueReturns` | dispatch/cyan/dispatch/handler_thread.cxx:83-91 | enqueue returns after at most three steps of its own, which nobody else delays |
| `SafeStopOnce.StopReturns` | dispatch/cyan/dispatch/handler_thread.cxx:65-73 | stop returns after at most five steps of its own |
| `SafeStopOnce.StopPutsIff` | dispatch/cyan/dispatch/handler_thread.cxx:65-73 | an unsafe stop of a running worker queues a stop message; a safe one just when empty() told it that the queue is empty |
| `SafeStopOnce.NeverSleepsAgain` | dispatch/cyan/dispatch/message.cxx:98-100 | a worker that has come to a stop message, or whose loop was told to stop, never sleeps again |
| `SafeStopOnce.DrainEnds` | dispatch/cyan/dispatch/handler_thread.cxx:136-151 | with no stop and no call under way the worker on its own, its tokens letting it, comes to sleep with an empty queue, every message ever posted processed, or put off, exactly once |
| `DrainQueue.SerialToken.GetNextSequence` | dispatch/cyan/dispatch/serial_token.cxx:48-50 | hands out the next number, modulo 2^64 |
| `DrainQueue.SerialToken.TryAcquire` | dispatch/cyan/dispatch/serial_token.cxx:40-42 | an equality test with the executing number |
| `DrainQueue.SerialToken.Release` | dispatch/cyan/dispatch/serial_token.cxx:44-46 | advances the executing number, modulo 2^64 |
| `DrainQueue.HandlerThread.Enqueue` | dispatch/cyan/dispatch/handler_thread.cxx:83-91 | queues the message, or drops it when the worker is stopping |
| `DrainQueue.HandlerThread.TryAcquire` | dispatch/cyan/dispatch/message.cxx:49-52 | true for a message without a token, else the token's test |
| `DrainQueue.HandlerThread.Process` | dispatch/cyan/dispatch/message.h:95-104 | runs the callable once and then releases its token |
| `DrainQueue.HandlerThread.ProcessOne` | dispatch/cyan/dispatch/handler_thread.cxx:138-150 | one round of the loop: the front message goes to the wheel, runs and releases its token, or goes to the back, as Round says |
| `DrainQueue.HandlerThread.ProcessQueue` | dispatch/cyan/dispatch/handler_thread.cxx:136-156 | ends, by messages left and place of the first runnable one, on a queue that holds the tokens' outstanding messages in any order; every untimed message ran exactly once, each token's in sequence, and the timed ones went to the timer wheel in order |
| `DrainQueue.SomeRunnable` | dispatch/cyan/dispatch/handler_thread.cxx:145-149 | in a queue that lacks no message its messages wait for, one message can run |
| `DrainQueue.RotateFirst` | dispatch/cyan/dispatch/handler_thread.cxx:148-148 | putting back a message that cannot run brings the first runnable one forward |
| `DrainQueue.RotateComplete` | dispatch/cyan/dispatch/handler_thread.cxx:148-148 | putting a message back keeps a complete queue complete |
| `DrainQueue.ReleasedComplete` | dispatch/cyan/dispatch/message.cxx:54-56 | running and releasing keeps the rest of the queue complete for the advanced counter |
| `DrainQueue.StuckStays` | dispatch/cyan/dispatch/handler_thread.cxx:136-151 | a queue in which a message waits for a number that is not there still is one after a round |
| `DrainQueue.NeverDrained` | dispatch/cyan/dispatch/handler_thread.cxx:136-151 | so after any number of rounds such a queue is not empty |
| `DrainQueue.DrainsIff` | dispatch/cyan/dispatch/handler_thread.cxx:136-151 | some number of rounds empties the queue just when no message waits for one that is not in it |
| `DrainQueue.LoneSuccessor` | dispatch/cyan/dispatch/handler_thread.cxx:136-151 | a queue that is never drained: one message numbered 1 of a token that is at 0 |
| `TimerHeap.ParentOfChild` | event/cyan/external/ev/ev.c:2582-2587 | with C's division towards zero, HPARENT inverts the child computation, moves up, and makes the root its own parent |
| `TimerHeap.RootIsEarliest` | event/cyan/external/ev/ev.c:3587-3589 | in heap order no entry is before the root |
| `TimerHeap.HoleDown` | event/cyan/external/ev/ev.c:2602-2624 | moving the smallest child up into the gap keeps the entries and all of the order but around the gap |
| `TimerHeap.HoleUp` | event/cyan/external/ev/ev.c:2675-2685 | moving the parent down into the gap does the same, and the gap's entry is then not after its new children |
| `TimerHeap.MinChild` | event/cyan/external/ev/ev.c:2602-2619 | finds the earliest of the up to four children, if any, on the fast path and on the slow one |
| `TimerHeap.Downheap` | event/cyan/external/ev/ev.c:2589-2632 | restores heap order for an entry that may be too late for its slot; the entries are rearranged, none lost, and every watcher knows its slot |
| `TimerHeap.Upheap` | event/cyan/external/ev/ev.c:2669-2689 | the same for an entry that may be too early |
| `TimerHeap.Adjustheap` | event/cyan/external/ev/ev.c:2691-2699 | the same for an entry that may be either |
| `TimerHeap.Reheap` | event/cyan/external/ev/ev.c:2701-2711 | makes a heap of any array of distinct watchers that know their slots |
| `TimerHeap.Replaced` | event/cyan/external/ev/ev.c:4425-4428 | replacing one entry of a heap disturbs the order at most around it |
| `PendingQueues.OwedIsOpen` | event/cyan/external/ev/ev.c:2317-2326 | what a watcher is owed is the or of exactly the feeds no later act has settled |
| `PendingQueues.InvokedWithFed` | event/cyan/external/ev/ev.c:3766-3769 | every invocation passes exactly the or of the events fed since the watcher was last invoked or cleared |
| `PendingQueues.FedIsSettled` | event/cyan/external/ev/ev.c:3754-3775 | a feed that is no longer open was settled by exactly one invocation or clearing, with its events |
| `PendingQueues.FeedAgrees` | event/cyan/external/ev/ev.c:2311-2329 | feeding keeps pending fields, queues and what is owed in agreement |
| `PendingQueues.ClearAgrees` | event/cyan/external/ev/ev.c:4276-4302 | clearing does, and leaves the dummy in the queue |
| `PendingQueues.InvokeAgrees` | event/cyan/external/ev/ev.c:3762-3769 | taking the last entry of the highest non-empty queue does; what it passes is what is owed, and nothing of a higher priority is owed |
| `PendingQueues.Queues.FeedEvent` | event/cyan/external/ev/ev.c:2311-2329 | adds an entry or ors into the one there, and sends the invoking loop back to the top priority |
| `PendingQueues.Queues.ClearPending` | event/cyan/external/ev/ev.c:4286-4302 | replaces the entry by the dummy and returns the events it had |
| `PendingQueues.Queues.FeedReverse` | event/cyan/external/ev/ev.c:2331-2336 | remembers one more watcher |
| `PendingQueues.Queues.FeedReverseDone` | event/cyan/external/ev/ev.c:2338-2344 | feeds the remembered watchers from the last to the first |
| `PendingQueues.Queues.TakeLast` | event/cyan/external/ev/ev.c:3764-3769 | takes the last entry of the current queue and makes its watcher not pending |
| `PendingQueues.Queues.InvokePending` | event/cyan/external/ev/ev.c:3754-3775 | ends for every finite script of callbacks that feed and clear, with nothing pending; every invocation was rightful (highest pending priority, exactly the events owed), each callback did its part, what was pending took its turn, and with idle callbacks the order is that of AllActs |
| `PendingQueues.FedBackQueue` | event/cyan/external/ev/ev.c:2338-2344 | feeding backwards appends the watchers that were not pending in reverse and leaves the pending ones in place |
| `PendingQueues.FedBackInvoked` | event/cyan/external/ev/ev.c:3754-3775 | the reversal and the last-in-first-out invocation cancel: watchers that were not pending run in their own order, before what was pending |
| `PendingQueues.FedOrderIff` | event/cyan/external/ev/ev.c:2331-2344 | of two watchers of one priority fed backwards the first in the list gets ahead just when it was not pending already, or both were and it was ahead; otherwise the other does |
| `PendingQueues.InvokedTurn` | event/cyan/external/ev/ev.c:3762-3769 | whatever callbacks have done so far, taking the last entry of a queue keeps the turns: what was pending is in its place or has been settled, and of two watchers of one priority the one behind is invoked only after the one ahead was invoked or cleared |
| `PendingQueues.AheadIsFirst` | event/cyan/external/ev/ev.c:3754-3775 | when callbacks do nothing, of two pending watchers of one priority the one ahead comes first among the invocations |
| `PendingQueues.PendingIsLate` | event/cyan/external/ev/ev.c:2317-2318 | so a watcher that was pending already is invoked only after a later one that was not, whatever callbacks do |
| `Timers.Loop.constructor` | event/cyan/external/ev/ev.c:4383-4406 | a loop with no active timer |
| `Timers.Settled` | event/cyan/external/ev/ev.c:3579-3593 | an array that is a heap again after a rearrangement meets all that verify_heap asserts |
| `Timers.Loop.NeedSize` | event/cyan/external/ev/ev.c:2276-2284 | grows the array, its entries staying as they are |
| `Timers.Loop.Start` | event/cyan/external/ev/ev.c:4383-4406 | an inactive timer becomes active with its relative time from now, an active one is left alone; what verify_heap asserts stays |
| `Timers.Loop.Stop` | event/cyan/external/ev/ev.c:4408-4437 | whatever the slot, the timer is inactive and not pending, the others and their times stay, its own time is relative again |
| `Timers.Loop.Again` | event/cyan/external/ev/ev.c:4439-4465 | a repeating timer expires its interval from now, started or not; any other is stopped |
| `Timers.Loop.Rearm` | event/cyan/external/ev/ev.c:4448-4450 | changes one expiry, also where it is cached, and restores the heap |
| `Timers.Loop.RearmRoot` | event/cyan/external/ev/ev.c:3817-3824 | the same for the root |
| `Timers.Loop.ReifyRoot` | event/cyan/external/ev/ev.c:3812-3831 | the earliest timer is put off by its interval, to now at the earliest, or stopped, and is remembered for feeding |
| `Timers.PutOffLeast` | event/cyan/external/ev/ev.c:3810-3830 | a timer that repeats is put off to the least time that is neither before now nor less than its interval after its last expiry; one that does not is gone, and the others stay |
| `Timers.Loop.ReifyExpired` | event/cyan/external/ev/ev.c:3810-3833 | ends, by the set of timers earlier than now, having dealt with each once in order of expiry |
| `Timers.Loop.TimersReify` | event/cyan/external/ev/ev.c:3802-3838 | feeds exactly the timers that expired before now, each once, fed backwards in order of expiry; repeating ones are put off, the others stopped, and no timer is then earlier than now |
| `Timers.ReifiedMore` | event/cyan/external/ev/ev.c:3810-3833 | dealing with an expired root keeps the order of expiry and makes the set of expired timers smaller |
| `Timers.FreshByExpiry` | event/cyan/external/ev/ev.c:3828-3836 | of the expired timers of one priority those not pending are invoked in order of expiry, all of them |
| `Timers.ExpiredFirst` | event/cyan/external/ev/ev.c:3836-3837 | at every priority they come before what was pending |
| `Timers.TurnsTaken` | event/cyan/external/ev/ev.c:3754-3838 | after timers_reify, whatever callbacks do: of two expired timers of one priority the later one, unless it is cleared first, is invoked only after the earlier when the earlier was not pending or does not repeat, or both repeat, were pending and the earlier was ahead; else the other way round |
| `Timers.OrderIff` | event/cyan/external/ev/ev.c:3754-3838 | when callbacks do nothing, both are invoked, and the earlier is at an earlier position among the invocations just under that condition |
| `Timers.LateTimer` | event/cyan/external/ev/ev.c:3810-3838 | a state where it is not: a repeating timer still pending is invoked after one that expired no earlier |
| `Timers.Loop.RunTimers` | event/cyan/external/ev/ev.c:3754-3838 | a round of timers_reify and ev_invoke_pending, for every script of callbacks that feed and clear: the expired timers take turns as TurnsTaken says, nothing is left pending, and with idle callbacks OrderIff holds of every two and those not pending come first by expiry |
| `Growth.NextSize` | event/cyan/external/ev/ev.c:2246-2265 | at least cnt and more than cur, through the rounding to pages too, for every element size |
| `Growth.NextSizeIs` | event/cyan/external/ev/ev.c:2249-2264 | exactly: the least doubling of cur + 1, at least one, that is at least cnt, as long as that takes no more than a chunk less four longs; otherwise as many entries as fill the fewest chunks, less four longs, that hold one more than that doubling |
| `Growth.ArrayNextsize` | event/cyan/external/ev/ev.c:2246-2265 | in the int arithmetic of the source, ends with NextSize and without overflow as long as the stated bound fits an int |
| `Periodic.EvFloor` | event/cyan/external/ev/ev.c:1901-1934 | ends for every real and is its floor, negative and larger than 2^64 included |
| `Periodic.PeriodicRecalc` | event/cyan/external/ev/ev.c:3842-3865 | ends with the first step of the interval from the start that is after now |
| `Periodic.NextPointIff` | event/cyan/external/ev/ev.c:3842-3865 | that is the least point offset + k * interval after now just when the start is such a point, which it is from MIN_INTERVAL on |
| `Periodic.ShortIntervalMisses` | event/cyan/external/ev/ev.c:3846-3847 | below MIN_INTERVAL it can miss: every 0.0001 from 0, at 0.00013 |
| `TimerWheel.Wheel.FiringIsRightful` | event/cyan/event/basic_timer_wheel.h:193-199 | in the whole history of a valid wheel a request is fired at most once, not after it was cancelled, and not before the expiry it has then |
| `TimerWheel.PostOk` | event/cyan/event/basic_timer_wheel.h:141-155 | posting keeps the invariant; requests and time_hiearchy stay matched just when the new id is not in use |
| `TimerWheel.PostCollides` | event/cyan/event/basic_timer_wheel.h:149-150 | two requests with one id: the map keeps the first, the multimap holds both |
| `TimerWheel.ResetOk` | event/cyan/event/basic_timer_wheel.h:166-173 | resetting keeps the invariant and the match |
| `TimerWheel.CancelOk` | event/cyan/event/basic_timer_wheel.h:157-164 | cancelling keeps the invariant and the match |
| `TimerWheel.MoveOk` | event/cyan/event/basic_timer_wheel.h:189-192 | re-emplacing a stale entry keeps them |
| `TimerWheel.FireOk` | event/cyan/event/basic_timer_wheel.h:193-196 | a due entry that is not stale may be fired: not fired before, not cancelled, its current expiry not after now |
| `TimerWheel.RemoveOk` | event/cyan/event/basic_timer_wheel.h:198-199 | erasing from both containers keeps them matched |
| `TimerWheel.PassFromPassed` | event/cyan/event/basic_timer_wheel.h:184-206 | a pass loses no request: each is still there, was cancelled, or was fired by it |
| `TimerWheel.PassProgress` | event/cyan/event/basic_timer_wheel.h:187-203 | a pass meets a stale entry and leaves fewer, or deals with everything due |
| `TimerWheel.FiredWithin` | event/cyan/event/basic_timer_wheel.h:141-206 | bounded lateness in every run of posts, cancels, resets and passes whose callbacks post, cancel and reset: a request that is due at every pass and neither cancelled nor reset is fired once the passes outnumber the entries stale at first and the resets since |
| `TimerWheel.ActedClean` | event/cyan/event/basic_timer_wheel.h:184-206 | a pass with whatever callbacks that reset nothing, over a wheel with no stale entry, deals with every request that is due: it is gone, and was fired at now or cancelled |
| `TimerWheel.CleanPass` | event/cyan/event/basic_timer_wheel.h:184-206 | with no stale entry a pass fires exactly the due requests not cancelled, in order of expiry, and keeps the rest |
| `TimerWheel.PostOnTime` | event/cyan/event/basic_timer_wheel.h:146-147 | posting keeps all keys at or before their requests' expiries just when the timeout is not above the request's whole milliseconds |
| `TimerWheel.WholeMilliseconds` | event/cyan/event/basic_timer_wheel.h:146-146 | which, the cast truncating towards zero, is when it is not positive or of whole milliseconds |
| `TimerWheel.ResetOnTime` | event/cyan/event/basic_timer_wheel.h:169-169 | reset keeps that as long as the clock does not go back |
| `TimerWheel.PassOnTime` | event/cyan/event/basic_timer_wheel.h:184-206 | passes keep it |
| `TimerWheel.PartMillisecond` | event/cyan/event/basic_timer_wheel.h:146-173 | half a millisecond, posted and reset, breaks it, and with it the bound of FiredWithin: a request that is due is not fired by any number of passes at that time, for it stands behind one that is not |
| `TimerWheel.Wheel.constructor` | event/cyan/event/basic_timer_wheel.h:77-80 | a new wheel is empty and inactive |
| `TimerWheel.Wheel.Start` | event/cyan/event/basic_timer_wheel.h:133-135 | activates the timer when there are requests |
| `TimerWheel.Wheel.Stop` | event/cyan/event/basic_timer_wheel.h:137-139 | deactivates it |
| `TimerWheel.Wheel.MakeRequest` | event/cyan/event/basic_timer_wheel.h:82-93 | a request with the next id, modulo 2^64, its timeout in whole milliseconds and its expiry from the exact timeout |
| `TimerWheel.Wheel.Post` | event/cyan/event/basic_timer_wheel.h:141-155 | adds the request to both containers, at the end of its key, and activates the timer; when its id is in use the map keeps the old one |
| `TimerWheel.Wheel.Cancel` | event/cyan/event/basic_timer_wheel.h:157-164 | flags the request, or reports an unknown id and changes nothing |
| `TimerWheel.Wheel.Reset` | event/cyan/event/basic_timer_wheel.h:166-173 | sets the expiry anew without moving the entry, or reports an unknown id and changes nothing |
| `TimerWheel.Wheel.MoveEntry` | event/cyan/event/basic_timer_wheel.h:189-192 | the entry moves to its expiry and the iterator with it |
| `TimerWheel.Wheel.RunCallback` | event/cyan/event/basic_timer_wheel.h:194-196 | callbacks may post, cancel and reset; the iterator stays with its element |
| `TimerWheel.Wheel.Finish` | event/cyan/event/basic_timer_wheel.h:193-199 | a due entry's callback is called just when it is not cancelled, and the entry is erased from both containers after whatever the callback did |
| `TimerWheel.Wheel.Bookkeeper` | event/cyan/event/basic_timer_wheel.h:184-206 | ends for every finite script of callbacks, by the script, the stale entries and the entries ahead; each callback did its part, all firings are rightful and, while resets put expiries off, in order of expiry; every request there at first is still there, cancelled or fired at now, and the pass met a stale entry or left nothing of them due (Acted); the containers stay matched if no id collides, with idle callbacks the pass is PassFrom, and an empty wheel stops its timer |
| `InterestSet.PollBackend.Modify` | event/cyan/external/ev/ev_poll.c:54-89 | polls and pollidxs stay mutually inverse, nothing is polled for no event, and exactly the one descriptor's events change, through allocation, change and swap-remove |
| `InterestSet.Filled` | event/cyan/external/ev/ev_poll.c:43-52 | filling pollidxs up with -1 polls nothing more |
| `InterestSet.Dropped` | event/cyan/external/ev/ev_poll.c:79-88 | the swap-remove drops one descriptor and keeps the index right |
| `InterestSet.ChainAdd` | event/cyan/external/ev/ev.c:4254-4259 | a watcher linked in front makes a list one longer |
| `InterestSet.ChainCut` | event/cyan/external/ev/ev.c:4261-4274 | relinking the predecessor, or the head, takes exactly one watcher out |
| `InterestSet.Loop.Enlist` | event/cyan/external/ev/ev.c:4254-4259 | an active watcher is first on the list of its descriptor |
| `InterestSet.Loop.Find` | event/cyan/external/ev/ev.c:4261-4274 | the walk finds the watcher and its predecessor |
| `InterestSet.Loop.Unlist` | event/cyan/external/ev/ev.c:4261-4274 | the watcher is off its list and the others stay in order |
| `InterestSet.Loop.FdChange` | event/cyan/external/ev/ev.c:2471-2484 | marks the descriptor, and lists it if it was not marked |
| `InterestSet.TouchedSound` | event/cyan/external/ev/ev.c:2471-2484 | after a change to a list and fd_change, fdchanges lists exactly the marked descriptors, once each, and every other descriptor's events are the or of its watchers' masks and what is polled |
| `InterestSet.Loop.Start` | event/cyan/external/ev/ev.c:4330-4358 | the watcher is active, on its list, its descriptor marked; what is polled does not change yet |
| `InterestSet.Loop.Deactivate` | event/cyan/external/ev/ev.c:4364-4380 | the watcher is inactive, off its list, its descriptor marked |
| `InterestSet.Loop.Stop` | event/cyan/external/ev/ev.c:4360-4381 | what is pending of the watcher is cleared, active or not; an active one becomes inactive, off its list, its descriptor marked |
| `InterestSet.Loop.Collect` | event/cyan/external/ev/ev.c:2449-2450 | the walk computes the or of the list's masks |
| `InterestSet.Loop.TellBackend` | event/cyan/external/ev/ev.c:2452-2457 | the backend polls the descriptor for its new events, told or not |
| `InterestSet.Loop.ReifyOne` | event/cyan/external/ev/ev.c:2431-2458 | the descriptor is unmarked, its events are the or of its watchers' masks, and the backend was told |
| `InterestSet.ReifiedMore` | event/cyan/external/ev/ev.c:2431-2458 | reifying the next changed descriptor leaves only the ones after it to do |
| `InterestSet.ListIsActive` | event/cyan/external/ev/ev.c:2449-2450 | what a list wants is what the active watchers of its descriptor want |
| `InterestSet.Loop.FdReify` | event/cyan/external/ev/ev.c:2392-2468 | afterwards fdchanges is empty and a descriptor is polled for in or out just when some active watcher asks to read or write it |
| `RoundRobin.StepKeepsInv` | dispatch/cyan/dispatch/thread_pool.cxx:66-70 | each access keeps: an index out of range can only be the first value of cur_idx_ |
| `RoundRobin.ReturnedInRange` | dispatch/cyan/dispatch/thread_pool.cxx:66-70 | with two workers or more every returned index is a worker's, under every interleaving and whatever cur_idx_ was at first |
| `RoundRobin.LoneCall` | dispatch/cyan/dispatch/thread_pool.cxx:66-70 | an undisturbed call swaps once, fails once because of it, and returns the value it left |
| `RoundRobin.SingleSpins` | dispatch/cyan/dispatch/thread_pool.cxx:66-70 | with one worker the swap always succeeds and the call does not return |
| `RoundRobin.TimesIs` | dispatch/cyan/dispatch/thread_pool.cxx:66-70 | how often a worker's turn comes in m undisturbed calls |
| `RoundRobin.Fair` | dispatch/cyan/dispatch/thread_pool.cxx:66-70 | in m undisturbed calls each of n workers' turn comes m / n times, rounded down or up |
| `RoundRobin.FairRun` | dispatch/cyan/dispatch/thread_pool.cxx:66-70 | in every run of calls that do not overlap, by whichever threads, the indices returned are workers', as many as calls, and each of n workers is among the m of them m / n times, rounded down or up |

## Left out

- Weak memory orders and spurious failures of the weak compare-exchange: all steps are sequentially consistent. A spurious failure in `get_next_thread_idx` would return early, even an index out of range while `cur_idx_` still has its first value.
- Recycled node addresses in the step model of the queue: an allocation gives a new node. A recycled node's next tag starts at 0 again and the pool's head has no tag, so the argument holds only while no stalled thread has the old address.
- `value = std::move(next->data)` before the exchange of head_: the step model copies the value, which is right for copyable data or a single consumer.
- `queue::clear`, `freelist::reserve`, concurrent use of the pool, and `stack.h`, a simpler case of the same argument.
- SequentialQueue.Queue.TryDequeue: does not model the memory that a free node's link shares with the queue node; the two are separate fields.
- Any equality of the numbers of async callbacks and sends, of which there is none (SendsAgain).
- ev_run outside the part from the wake-up request to the callbacks; signals, child, stat, embed, fork and idle watchers; clock reading and jump detection; nested calls of ev_invoke_pending.
- The 2-heap that libev can be compiled with, and the heap of periodic watchers, which uses the same functions.
- PendingQueues.Queues.InvokePending: callbacks only feed and clear, and a watcher's priority never changes.
- Timers.Loop.RunTimers: the same; of what stopping a timer from a callback does, the clearing is modelled and the change to the heap is not.
- LockFreeQueueLinear.RunIsSafe: does not exclude reads of nodes already handed back, which the source makes and of which nothing comes (RetiredReadsAreVain); that such a node's memory is still there, as it is unless a full pool has freed it, is not modelled.
- Growth.ArrayNextsize: is specified only below its bound, beyond which int arithmetic may overflow.
- TimerWheel.Wheel.Bookkeeper: a callback that meets an unknown id goes on, where an exception that leaves the callback would end the program; moving a wheel is not modelled.
- fd_kill and what poll reports.
- Floating-point rounding: times are exact reals or integers.
- Changing an io watcher's flags while it is active, which the loop's contract forbids.
- A worker's start-up racing with stop, where stop returns early because the worker is not running yet, and the timer wheel's part in stopping a worker.
- Exceptions thrown by callables, the timing fields of messages, message types other than callable and stop.
- Posts of a token with 2^64 of its messages outstanding, which memory does not allow.
- The net layer, the other backends (epoll, kqueue, io_uring, linuxaio, port, select, win32), UUIDs, futures, traits wrappers, the ecb helpers and build files.
