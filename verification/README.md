# A Dafny model of the osaka runtime

osaka is a single-threaded async runtime that runs in simulation time. Its hardest code is a set of
small protocols built on atomic words, intrusive lists and counters. This project models them in Dafny
and proves what they are for.

| modules | what they model |
|---|---|
| `BlockQueue`, `BlockQueueInvariant`, `BlockQueueStability`, `BlockQueueShared`, `BlockQueueSteps`, `BlockQueueReceiver`, `BlockQueueTheorems`, `BlockQueueMemory`, `BlockQueueProgress`, `BlockQueuePops`, `BlockQueueReclaim` | the lock-free block queue under the mpsc channels, with any number of senders and one receiver |
| `TaskState`, `TaskLifecycle`, `TaskTheorems`, `TaskWakes`, `TaskJoin` | the packed state word of a task, and its life from spawn to deallocation |
| `OwnedTasks`, `RunQueue`, `Scheduler`, `SchedulerWakes` | the list of owned tasks, the two run queues with the tick rule, and `poll_until_deadlock` |
| `LinkedList`, `Permits`, `PermitTheorems`, `PermitRuns`, `Semaphore` | the intrusive list, and the batch semaphore as functions, as runs, and as an object over that list |
| `RwLock`, `BoundedChannel`, `BoundedChannelTheorems`, `Channel` | two clients of the semaphore |
| `Broadcast`, `BroadcastTheorems`, `BroadcastRuns` | the broadcast ring with lag and close |
| `Notify`, `NotifyTheorems`, `NotifyCalls`, `Oneshot`, `OneshotTheorems`, `OneshotCalls`, `AtomicWaker` | three small concurrent protocols |
| `TimeDriver`, `TimerRuns`, `Interval` | the deduplicating wakeup emitter, simulation runs with it, and interval arithmetic |
| `Wrappers`, `Remainders` | an option type, and facts about remainders |

## How it is modelled

* **Concurrent code** (block queue, task life cycle, `Notify`, oneshot, atomic waker) is a transition system.
  The state is a value, every access to an atomic word or a shared cell is one step, the steps of all
  threads interleave freely, and atomics are sequentially consistent. A compare-and-swap loop that only
  retries is the one update it succeeds with; where the loop does more (`find_block`, `grow`,
  `notify_one`, `poll_notified`) every attempt is a step. What the source asserts or unwraps, and what a
  data race or a stale pointer would be, is a condition on each step; that no run violates it is proved,
  not assumed.
* **Addresses are reused.** Blocks of the queue live in a map from addresses. An epoch, which only the
  model sees, tells two uses of one address apart, so that a stale pointer and an ABA success are states
  the model can reach and has to be shown not to.
* **Code that runs on one thread** (list, semaphore and its clients, broadcast, scheduler, timer,
  interval) is written as classes and methods with the loops of the source. Each method is proved to
  compute a function on values; the theorems are about that function and about all runs of it. A call
  runs to its end before the next one starts.
* **Counters are unbounded**, except for the scheduler's tick, which wraps at 2^32. Time is a natural number.
* **Wakers** are numbers; a call that wakes returns them or marks them. User code is a parameter: what a
  poll does is one entry of a script, what tasks do to the timer during an event is a list of operations.

## What came out

Where the code does not keep what its documentation or its callers might expect, the model follows the
code, and the exact condition is proved:

* `OwnedPermit::release`, and dropping a reservation that was assigned a permit, do not wake a receiver
  that closed the channel and waits for its last permit; `Permit::drop` and `OwnedPermit::drop` do
  (`BoundedChannelTheorems.LeftBehindExactly`, with a run for either call). Such a receiver sleeps until
  the last sending handle goes.
* `RwLock::with_max_readers(_, 0)` admits two writers at once (`RwLock.ExclusiveExactly`).
* A broadcast receiver is told Closed once; the next `recv` waits (`BroadcastRuns.ClosedIsReportedOnce`).
* A registered sleep reset to the present moment may never be woken, because its wakeup looks like the
  one emitted last (`TimerRuns.LateResetExactly`, `TimerRuns.SwallowedWakeup`). Reset to the past, it keeps
  every other sleeper from being woken (`TimerRuns.PastEntryBlocks`). Runs therefore reset registered
  sleeps into the future only; a sleep that is not registered may be reset to any time.
* An idle task is never deallocated: the owned-task list keeps it alive, so the deallocating outcome of
  `transition_to_idle` does not occur (`TaskTheorems.ReleasedWithLastHandle`).

## Model

| member | source | states |
|---|---|---|
| `BlockQueueTheorems.StepInv` | osaka/src/sync/mpsc/list.rs:68-220 | every step of any sender or of the receiver, at every point of push, close, find_block, grow, pop, reclaim and reuse, keeps the invariant of the queue and raises no fault |
| `BlockQueueTheorems.RunInv` | osaka/src/sync/mpsc/list.rs:45-64 | the invariant holds in every state of every run that starts from a new channel |
| `BlockQueueTheorems.MemorySafety` | osaka/src/sync/mpsc/list.rs:68-180 | in every interleaving no access goes through a stale pointer and no published cell is overwritten; a block a sender holds is neither freed nor recycled, and if it is released its observed tail lies beyond the sender's slot, which the receiver's index has not passed |
| `BlockQueueTheorems.NoAbaInRuns` | osaka/src/sync/mpsc/list.rs:138-173 | when a compare-and-swap on `block_tail` succeeds, the word still names the very block that was loaded, although addresses are reused; the new tail is the next block |
| `BlockQueueTheorems.FindBlockProgress` | osaka/src/sync/mpsc/list.rs:96-180 | every block before `block_tail` is final, so `find_block` starts at or before its target; it never stands behind it, and stops exactly at it |
| `BlockQueueProgress.MovesOneBlock` | osaka/src/sync/mpsc/list.rs:96-180 | `find_block` goes on to the very next block, which is at most the target, whether it read it from `next` or `grow` appended it, and whether or not it advances `block_tail` on the way |
| `BlockQueueProgress.CallEnds` | osaka/src/sync/mpsc/list.rs:68-180 | a call that claimed a slot ends: until its next call a sender takes at most its budget of steps and two for every block that anybody appends meanwhile |
| `BlockQueueProgress.CallIsBounded` | osaka/src/sync/mpsc/list.rs:68-180 | in every run, from its claim on a call takes at most eleven steps, nine for each block from the tail block to that of its slot, and two for each block appended since; while it is under way it has taken fewer |
| `BlockQueueProgress.HasStep` | osaka/src/sync/mpsc/list.rs:68-180 | a sender inside a call is never stuck: whatever the others did, it has a step to take that does something |
| `BlockQueueProgress.OwnStepSpends` | osaka/src/sync/mpsc/block.rs:290-348 | every step of the sender itself uses up some of its budget, a lost race in `grow` included |
| `BlockQueueTheorems.FifoDelivery` | osaka/src/sync/mpsc/list.rs:234-253 | what was popped is exactly the values of the first claimed slots, each once, in claim order |
| `BlockQueueTheorems.ClosedComesLast` | osaka/src/sync/mpsc/block.rs:116-141 | `Closed` is reported only after every value ever claimed has been handed out |
| `BlockQueueTheorems.DrainedStays` | osaka/src/sync/mpsc/list.rs:86-94 | once the close marker was read no slot is claimed and nothing is popped any more |
| `BlockQueueTheorems.TryPopReports` | osaka/src/sync/mpsc/list.rs:263-273 | a `try_pop` that finds nothing says Empty only if everything claimed when it loaded the tail position was handed out, and Busy only if the slot at the index was claimed by then |
| `BlockQueuePops.PopAnswers` | osaka/src/sync/mpsc/block.rs:116-141 | what a `pop` answers, in every run: a value exactly if one more was handed out, and that value; if the slot at the index was finished when the pop began, the argument of the call that claimed it; if it was the slot of a `close` that had returned, Closed |
| `BlockQueuePops.ClaimsAreCalls` | osaka/src/sync/mpsc/list.rs:68-94 | slot k belongs to the k-th call of `push` or `close` and holds its argument |
| `BlockQueuePops.PopsAreCalls` | osaka/src/sync/mpsc/list.rs:234-253 | what was popped are the arguments of the first calls of `push`, in the order of their claims |
| `BlockQueuePops.RunFlag` | osaka/src/sync/mpsc/block.rs:157-168 | a `close` that has returned has set the flag, in a block that is still linked |
| `BlockQueuePops.PopIsBounded` | osaka/src/sync/mpsc/list.rs:234-339 | `pop` is wait-free: it ends within seven steps of the receiver, two for each block from the head to that of the index, and fourteen for each block linked before that, whatever senders do |
| `BlockQueuePops.PopHasStep` | osaka/src/sync/mpsc/list.rs:234-339 | a receiver inside a `pop` is never stuck |
| `BlockQueueReclaim.HelpsExactly` | osaka/src/sync/mpsc/list.rs:96-135 | a sender tries to advance the tail exactly if its slot is more blocks ahead than its offset into its own; the wrapping distance is that number of blocks |
| `BlockQueueReclaim.PassesAlone` | osaka/src/sync/mpsc/list.rs:138-175 | a sender at the tail block that finds it full, left alone, makes the next block the tail and releases the old one with the tail position of that moment |
| `BlockQueueReclaim.PassedIsReleased` | osaka/src/sync/mpsc/list.rs:138-175 | in every run, once no sender is inside a call, every block that the tail has passed is released |
| `BlockQueueReclaim.PopReclaims` | osaka/src/sync/mpsc/list.rs:305-339 | a pop that comes to read has first detached every block, oldest first, that was released and passed by the index when it began |
| `BlockQueueReclaim.ReusedExactly` | osaka/src/sync/mpsc/list.rs:181-220 | a reclaimed block, with nobody else about, is appended exactly if at most two blocks lie behind the tail, and freed otherwise |
| `BlockQueueSteps.FindInv` | osaka/src/sync/mpsc/list.rs:96-135 | loading `block_tail`, comparing start indices and following `next` keep the invariant |
| `BlockQueueSteps.GrowInv` | osaka/src/sync/mpsc/block.rs:290-348 | allocating a block and hanging it at the first free `next`, with any number of lost races, keeps the invariant; no block is linked twice |
| `BlockQueueSteps.AdvanceInv` | osaka/src/sync/mpsc/list.rs:138-175 | advancing `block_tail`, storing the observed tail position and setting RELEASED keep the invariant |
| `BlockQueueSteps.PublishInv` | osaka/src/sync/mpsc/block.rs:143-168 | writing a value, setting its ready bit, and setting the close flag keep the invariant |
| `BlockQueueReceiver.AdvanceHeadInv` | osaka/src/sync/mpsc/list.rs:278-303 | moving the head to the block of the index keeps the invariant |
| `BlockQueueReceiver.ReclaimInv` | osaka/src/sync/mpsc/list.rs:305-339 | detaching a released block once the index has reached its observed tail position keeps the invariant |
| `BlockQueueReceiver.ReuseInv` | osaka/src/sync/mpsc/list.rs:181-220 | resetting a detached block and trying three times to append it, or freeing it, keeps the invariant |
| `BlockQueueReceiver.ReadInv` | osaka/src/sync/mpsc/block.rs:116-141 | reading a ready slot exactly once, or finding nothing or the close flag, keeps the invariant |
| `BlockQueueMemory.NoLeak` | osaka/src/sync/mpsc/list.rs:181-220 | when no call is running the allocated blocks are exactly the linked ones |
| `BlockQueueMemory.FreeBlocks` | osaka/src/sync/mpsc/list.rs:343-360 | the loop over the links frees every allocated block exactly once and leaves none |
| `TaskState.UnpackPack` | osaka/src/runtime/task/state.rs:16-64 | the packed word determines the six flags and the reference count, for every count |
| `TaskState.PackUnpack` | osaka/src/runtime/task/state.rs:16-64 | every word is the packing of its flags and its count |
| `TaskState.State.constructor` | osaka/src/runtime/task/state.rs:99-105 | a new word unpacks to NOTIFIED, JOIN_INTEREST and three references |
| `TaskState.State.TransitionToRunning` | osaka/src/runtime/task/state.rs:114-143 | an idle task takes RUNNING and clears NOTIFIED, Cancelled if the flag is set; otherwise one reference goes |
| `TaskState.State.TransitionToIdle` | osaka/src/runtime/task/state.rs:149-179 | fails if cancelled; otherwise clears RUNNING, and either drops a reference or, if notified, adds one |
| `TaskState.State.TransitionToComplete` | osaka/src/runtime/task/state.rs:182-190 | the exclusive-or of both lifecycle bits turns RUNNING into COMPLETE and changes nothing else |
| `TaskState.State.TransitionToTerminal` | osaka/src/runtime/task/state.rs:196-205 | `count` references go; true exactly if none is left |
| `TaskState.State.TransitionToNotifiedByVal` | osaka/src/runtime/task/state.rs:213-248 | running: mark and drop a reference; complete or notified: drop one; idle: mark, add one and submit |
| `TaskState.State.TransitionToNotifiedByRef` | osaka/src/runtime/task/state.rs:251-270 | the same without a reference to consume |
| `TaskState.State.TransitionToNotifiedAndCancel` | osaka/src/runtime/task/state.rs:276-306 | sets CANCELLED unless set or complete, and submits only an idle task that was not notified |
| `TaskState.State.TransitionToShutdown` | osaka/src/runtime/task/state.rs:311-329 | sets CANCELLED and takes RUNNING exactly if the task was idle |
| `TaskState.State.DropJoinHandleFast` | osaka/src/runtime/task/state.rs:333-352 | succeeds exactly on the initial word and leaves two references without JOIN_INTEREST |
| `TaskState.State.UnsetJoinInterested` | osaka/src/runtime/task/state.rs:358-371 | clears the bit unless the task is complete |
| `TaskState.State.SetJoinWakerBit` | osaka/src/runtime/task/state.rs:377-391 | sets the bit unless the task is complete |
| `TaskState.State.UnsetJoinWakerBit` | osaka/src/runtime/task/state.rs:397-411 | clears the bit unless the task is complete |
| `TaskState.State.RefIncrement` | osaka/src/runtime/task/state.rs:413-435 | adds one reference and leaves the flags |
| `TaskState.State.RefDecrement` | osaka/src/runtime/task/state.rs:437-442 | drops one reference and leaves the flags; true exactly for the last |
| `TaskState.FastDropIsSlowDrop` | osaka/src/runtime/task/harness.rs:185-205 | from the initial word the fast drop of the join handle leaves what the slow drop leaves |
| `TaskTheorems.StepInv` | osaka/src/runtime/task/harness.rs:53-340 | every step of every handle meets the assertions on its way, touches live memory, races on no cell, and keeps: the packed count is the number of live handles, the lifecycle bits say where the holder of RUNNING is, NOTIFIED matches the notifications in flight, the join-waker bit covers a filled cell, and the output is stored once |
| `TaskTheorems.RunsAreSound` | osaka/src/runtime/task/harness.rs:53-155 | in every run no assertion of the state transitions, no `unwrap`, no `unreachable!` and no "waker missing" panic is hit, and no released memory is touched |
| `TaskTheorems.ReleasedWithLastHandle` | osaka/src/runtime/task/harness.rs:157-167 | in every run the packed count is the number of live handles; the task is released exactly when the last one goes, and then it is complete, its completion is over and its join handle is gone: an idle task is kept alive by the owned-task list |
| `TaskTheorems.LastReference` | osaka/src/runtime/task/state.rs:437-442 | whoever drops the last reference knows that the task completed and its list entry and join handle are gone |
| `TaskTheorems.OnlyDeallocationRemains` | osaka/src/runtime/task/harness.rs:282-286 | with no reference left, deallocation is the only step any handle can take |
| `TaskTheorems.FreedOnce` | osaka/src/runtime/task/harness.rs:157-167 | the memory is freed at most once, and it is free exactly when that happened |
| `TaskTheorems.OutputMovesOnce` | osaka/src/runtime/task/harness.rs:291-316 | the output is stored at most once, and handed to the join handle or dropped at most once; by deallocation exactly once |
| `TaskWakes.WakeMarks` | osaka/src/runtime/task/state.rs:213-270 | every wake of an incomplete task leaves NOTIFIED set |
| `TaskWakes.NoLostWake` | osaka/src/runtime/task/harness.rs:215-280 | after a wake of an incomplete task NOTIFIED stays set until the next poll or cancellation starts; while the task is idle and the runtime is not shutting down exactly one notification is in flight, with which it can be run |
| `TaskWakes.MarkedIsRunnable` | osaka/src/runtime/task/state.rs:114-143 | an idle marked task can be run, which starts a poll, or a cancellation if it is cancelled |
| `TaskWakes.AbortIsHonoured` | osaka/src/runtime/task/harness.rs:214-229 | after an abort of an incomplete task it stays cancelled, no poll starts any more, and a poll under way ends in completion or cancellation |
| `TaskWakes.ParkedJoinIsWoken` | osaka/src/runtime/task/harness.rs:350-398 | a join handle that returned Pending has its waker stored, and the completion wakes it |
| `TaskJoin.OutputReachesHandle` | osaka/src/runtime/task/harness.rs:350-398 | in every run, a poll of the join handle that begins when the task is complete returns the output |
| `TaskJoin.PollReturns` | osaka/src/runtime/task/harness.rs:350-398 | a poll of the join handle returns the output, or Pending with its waker stored, and Pending only if the task was not complete when it began |
| `TaskJoin.PollIsShort` | osaka/src/runtime/task/harness.rs:350-426 | such a poll is over after at most six more steps, and until then it can always take one that meets its assertions |
| `TaskWakes.CellHasOneOwner` | osaka/src/runtime/task/harness.rs:400-426 | while the completer may read the waker cell the join handle does not write it; whoever the completion's snapshot makes responsible for the output has it alone |
| `OwnedTasks.OwnedTasks.Bind` | osaka/src/runtime/task/list.rs:72-100 | an open list takes the task in front and hands out its notification; a closed one shuts it down at once |
| `OwnedTasks.OwnedTasks.Remove` | osaka/src/runtime/task/list.rs:141-153 | removes the task if it is listed; for one popped before it answers no and changes nothing |
| `OwnedTasks.OwnedTasks.CloseAndShutdownAll` | osaka/src/runtime/task/list.rs:118-139 | closes the list, empties it, and shuts down every task that was in it exactly once, oldest first |
| `RunQueue.OpsAppend` | osaka/src/runtime/spawner.rs:282-308 | wakes, aborts and spawns only append to the queues and neither start nor end a poll |
| `RunQueue.PerformOk` | osaka/src/runtime/spawner.rs:282-308 | they keep: a task has a queue entry exactly if it is idle and notified, and then one |
| `RunQueue.RunTaskOk` | osaka/src/runtime/spawner.rs:461-470 | taking a task and running it, whatever it does, keeps that, and the task taken is idle and notified |
| `SchedulerWakes.WakeDoes` | osaka/src/runtime/task/state.rs:251-270 | what a wake does to the flags, the references and the queues: an idle task is marked, gains a reference and one entry at the back of the local or the shared queue; a running one is marked; a complete or marked one is left alone |
| `SchedulerWakes.AbortDoes` | osaka/src/runtime/task/state.rs:276-306 | an abort marks an incomplete task cancelled and notified, with an entry in the queue if it was idle and had none |
| `SchedulerWakes.SpawnDoes` | osaka/src/runtime/spawner.rs:218-230 | a spawned task is idle and notified, with three references and one entry in the queue |
| `SchedulerWakes.RunEnds` | osaka/src/runtime/task/harness.rs:93-136 | a task whose poll was ready, or that was cancelled before or during it, is complete; any other is idle, and at the back of the local queue if it was woken meanwhile |
| `SchedulerWakes.WokenIsPicked` | osaka/src/runtime/spawner.rs:282-308 | a task that a pass wakes or spawns is complete after it, or is picked before five passes for each task of the shared queue, or three for each of the local one, are over |
| `Scheduler.Core.NextTask` | osaka/src/runtime/spawner.rs:434-443 | reads and increments the tick with wrap-around at 2^32, and prefers the shared queue at multiples of five |
| `Scheduler.Core.PerformOps` | osaka/src/runtime/spawner.rs:282-308 | the loop over wakes, aborts and spawns reaches the state the specification function says |
| `Scheduler.Core.Run` | osaka/src/runtime/task/harness.rs:93-136 | polls one task: start, effects, then idling, a push to the back of the local queue, or the end, where the future is dropped while the task still holds RUNNING and the join handle is woken after COMPLETE |
| `Scheduler.Core.constructor` | osaka/src/runtime/spawner.rs:37-61 | a runtime without tasks, its tick at 0, satisfies the invariant of the queues |
| `Scheduler.Core.PollUntilDeadlock` | osaka/src/runtime/spawner.rs:419-480 | terminates for every finite script; on return, unless a panic was flagged, both queues are empty and every incomplete task is idle and not notified; the state is the one reached by that many passes |
| `Scheduler.Quiescence` | osaka/src/runtime/spawner.rs:445-459 | nothing to pick means no incomplete task is running or notified |
| `Scheduler.SharedWait` | osaka/src/runtime/spawner.rs:438-443 | the task at position j of the shared queue is picked within 5 (j + 1) passes, across the wrap of the tick and whatever is pushed meanwhile |
| `Scheduler.LocalWait` | osaka/src/runtime/spawner.rs:438-443 | the task at position j of the local queue is picked within 3 (j + 1) passes; only the wrap gives the shared queue two turns in a row |
| `LinkedList.LinkedList.PushFront` | osaka/src/util/linked_list.rs:124-143 | the node becomes the first of the sequence; the links of all others still spell it |
| `LinkedList.LinkedList.PopBack` | osaka/src/util/linked_list.rs:147-163 | returns and unlinks the last node, or nothing from an empty list |
| `LinkedList.LinkedList.Remove` | osaka/src/util/linked_list.rs:181-213 | removes a linked node wherever it is; for an unlinked node it returns nothing and changes nothing |
| `LinkedList.LinkedList.IsEmpty` | osaka/src/util/linked_list.rs:166-173 | true exactly for the empty list; the assertion on the tail holds |
| `LinkedList.LinkedList.Last` | osaka/src/util/linked_list.rs:226-229 | the last node, without removing it |
| `LinkedList.Unspliced` | osaka/src/util/linked_list.rs:181-213 | giving the neighbours of a node each other's address leaves a well-linked list of all others in order |
| `Semaphore.Semaphore.NewAcquire` | osaka/src/sync/batch_semaphore.rs:323-330 | a future that lacks all its permits and is not queued |
| `Semaphore.Semaphore.AssignTo` | osaka/src/sync/batch_semaphore.rs:412-426 | a waiter receives what it lacks, at most what there is; true exactly if it lacks nothing after |
| `Semaphore.Semaphore.AddPermitsLocked` | osaka/src/sync/batch_semaphore.rs:112-153 | the nested loops over the wait list compute the specification: oldest first, each satisfied waiter unlinked and its waker returned in order, the rest made available |
| `Semaphore.Semaphore.Release` | osaka/src/sync/batch_semaphore.rs:59-65 | releasing nothing changes nothing; otherwise the same |
| `Semaphore.Semaphore.TryAcquire` | osaka/src/sync/batch_semaphore.rs:84-106 | closed, too few, or taken |
| `Semaphore.Semaphore.PollAcquire` | osaka/src/sync/batch_semaphore.rs:155-254 | first and later polls, with `assert_eq!(acquired, 0)` and the choice to queue proved to hold |
| `Semaphore.Semaphore.DropAcquire` | osaka/src/sync/batch_semaphore.rs:376-393 | a queued future leaves the list if it is still there and hands on what it was assigned |
| `Semaphore.Semaphore.Close` | osaka/src/sync/batch_semaphore.rs:67-78 | the loop empties the list, oldest first, and returns the wakers in that order |
| `PermitTheorems.PollResults` | osaka/src/sync/batch_semaphore.rs:155-254 | a queued future is done exactly when it has been unlinked, a new one when enough is available, and a closed semaphore fails both |
| `PermitTheorems.PollCases` | osaka/src/sync/batch_semaphore.rs:155-254 | the five ways a poll can go, with the whole new state of each |
| `PermitRuns.StepOk` | osaka/src/sync/batch_semaphore.rs:59-254 | every operation keeps: if anybody is linked nothing is available, the semaphore is open, everybody linked lacks at least one permit and has a waker, and only the oldest may have been served in part |
| `PermitRuns.Conservation` | osaka/src/sync/batch_semaphore.rs:112-153 | in every run, permits available, permits assigned to queued futures (those evicted by close included) and permits granted are the initial ones and those released |
| `PermitRuns.NoBarging` | osaka/src/sync/batch_semaphore.rs:84-106 | while a waiter is linked `try_acquire` fails and a new acquire queues up with nothing |
| `PermitRuns.FirstComeFirstServed` | osaka/src/sync/batch_semaphore.rs:112-153 | as long as an older waiter waits, a younger one, unless dropped, waits behind it and has been assigned nothing |
| `PermitRuns.AssignServes` | osaka/src/sync/batch_semaphore.rs:112-153 | the waiters woken are the oldest ones, oldest first, and nothing stays available while somebody waits |
| `PermitRuns.ReleaseWakes` | osaka/src/sync/batch_semaphore.rs:112-153 | a release returns the wakers of those it satisfies, oldest first |
| `PermitRuns.DropWakes` | osaka/src/sync/batch_semaphore.rs:376-393 | a dropped future hands on what it was assigned, and the wakers returned are of the oldest of the others |
| `PermitRuns.AssignSatisfies` | osaka/src/sync/batch_semaphore.rs:112-153 | who is unlinked lacks nothing, and of the others only the oldest may have gained |
| `PermitRuns.CloseWakes` | osaka/src/sync/batch_semaphore.rs:67-78 | close wakes every waiter, oldest first |
| `PermitRuns.ClosedStays` | osaka/src/sync/batch_semaphore.rs:67-78 | after close nobody is linked and nothing is granted ever again |
| `PermitRuns.EvictedReturns` | osaka/src/sync/batch_semaphore.rs:376-393 | a waiter evicted by close gives back what it was assigned when it is dropped |
| `RwLock.RwLock.WithMaxReaders` | osaka/src/sync/rwlock/mod.rs:224-244 | an unlocked lock with that many permits |
| `RwLock.RwLock.NewLock` | osaka/src/sync/rwlock/mod.rs:288-302 | a future for one permit to read, for all of them to write |
| `RwLock.RwLock.PollLock` | osaka/src/sync/rwlock/mod.rs:549-564 | hands out the guard exactly if the semaphore grants the permits; the `unreachable!` on a closed semaphore is never reached |
| `RwLock.RwLock.TryLock` | osaka/src/sync/rwlock/mod.rs:696-712 | succeeds exactly if enough permits are available |
| `RwLock.RwLock.Unlock` | osaka/src/sync/rwlock/write_guard.rs:238-242 | returns exactly what the guard held |
| `RwLock.RwLock.Downgrade` | osaka/src/sync/rwlock/write_guard.rs:189-204 | releases all permits but one and leaves a read guard |
| `RwLock.Exclusion` | osaka/src/sync/rwlock/mod.rs:549-564 | with at least one reader allowed, a writer is alone and readers never exceed the limit |
| `RwLock.WriterComesAlone` | osaka/src/sync/rwlock/mod.rs:696-712 | nobody is granted the write guard while any guard is alive |
| `RwLock.DowngradeAdmitsNoWriter` | osaka/src/sync/rwlock/write_guard.rs:189-204 | no writer is admitted by a downgrade, nor while its read guard is alive |
| `RwLock.RunOk` | osaka/src/sync/rwlock/mod.rs:549-564 | in every run of locking, unlocking, downgrading and cancelling, permits available, assigned and held by guards are the limit, and the semaphore is never closed |
| `RwLock.TwoWritersWithoutReaders` | osaka/src/sync/rwlock/mod.rs:224-244 | a run in which a lock made for no readers grants two write guards at once |
| `RwLock.ExclusiveExactly` | osaka/src/sync/rwlock/mod.rs:224-244 | exclusion holds throughout all runs of a lock exactly if it allows at least one reader |
| `Channel.Channel.constructor` | osaka/src/sync/mpsc/bounded.rs:106-118 | an open channel with its whole capacity available |
| `Channel.Channel.PollReserve` | osaka/src/sync/mpsc/bounded.rs:814-819 | one permit is reserved exactly if the semaphore grants it |
| `Channel.Channel.DropReserve` | osaka/src/sync/batch_semaphore.rs:376-393 | a reservation dropped before it was used hands its permit on |
| `Channel.Channel.TryReserve` | osaka/src/sync/mpsc/bounded.rs:864-872 | full, closed, or one permit reserved |
| `Channel.Channel.TrySend` | osaka/src/sync/mpsc/bounded.rs:534-545 | the message goes out exactly if a permit was available |
| `Channel.Channel.SendPermit` | osaka/src/sync/mpsc/bounded.rs:1042-1049 | the permit passes to the message; the receiver is woken |
| `Channel.Channel.ReleasePermit` | osaka/src/sync/mpsc/bounded.rs:1153-1163 | the permit goes back and nobody is woken |
| `Channel.Channel.DropPermit` | osaka/src/sync/mpsc/bounded.rs:1052-1067 | the permit goes back, and the receiver of a closed channel that is now idle is woken |
| `Channel.Channel.CloneSender` | osaka/src/sync/mpsc/chan.rs:171-179 | one sending handle more |
| `Channel.Channel.DropSender` | osaka/src/sync/mpsc/chan.rs:182-195 | the last sending handle pushes the close marker and wakes the receiver |
| `Channel.Channel.Recv` | osaka/src/sync/mpsc/chan.rs:219-268 | a message and its permit back, or None, or wait; the assertion `is_idle` on the close marker holds |
| `Channel.Channel.CloseReceiver` | osaka/src/sync/mpsc/chan.rs:203-216 | closes the semaphore once |
| `Channel.Channel.DropReceiver` | osaka/src/sync/mpsc/chan.rs:320-334 | closes and gives back the permit of every unread message |
| `BoundedChannelTheorems.CapacityAccounted` | osaka/src/sync/mpsc/chan.rs:365-380 | in every run, permits available, assigned to reservations, reserved, and held by unread messages are exactly the capacity |
| `BoundedChannelTheorems.FirstInFirstOut` | osaka/src/sync/mpsc/chan.rs:219-268 | in every run, the messages received, or drained by the drop of the receiver, followed by those unread are exactly those sent, in order |
| `BoundedChannelTheorems.RecvTakesNext` | osaka/src/sync/mpsc/chan.rs:219-268 | `recv` returns a message exactly if one sent has not been received, and then the oldest of them |
| `BoundedChannelTheorems.ClosingStops` | osaka/src/sync/mpsc/chan.rs:203-216 | closing fails every reservation, keeps what was sent and what is reserved |
| `BoundedChannelTheorems.MarkerMeansIdle` | osaka/src/sync/mpsc/chan.rs:230-242 | when the close marker is reached every permit is back |
| `BoundedChannelTheorems.FinishedMeansDrained` | osaka/src/sync/mpsc/chan.rs:258-264 | `recv` returns None exactly if nothing is unread and nobody is able to send |
| `BoundedChannelTheorems.DrainedStays` | osaka/src/sync/mpsc/chan.rs:219-268 | no step of any handle makes a drained channel receive again |
| `BoundedChannelTheorems.NoneIsFinal` | osaka/src/sync/mpsc/chan.rs:219-268 | after a None every later `recv` returns None |
| `BoundedChannelTheorems.LeftBehindExactly` | osaka/src/sync/mpsc/bounded.rs:1153-1163 | a receiver that waits is left behind exactly if it closed the channel, all permits but one are back, and the call is the `OwnedPermit::release` of the last one or the drop of a reservation that was assigned it |
| `BoundedChannelTheorems.NeverLeftBehind` | osaka/src/sync/mpsc/bounded.rs:1052-1067 | runs without those two calls never leave a receiver waiting that could receive |
| `BoundedChannelTheorems.ReleaseLeavesReceiverWaiting` | osaka/src/sync/mpsc/bounded.rs:1153-1163 | a run in which it happens: the receiver closes, waits for one permit, and its release does not wake it, while its drop would |
| `BoundedChannelTheorems.DroppedReservationRun` | osaka/src/sync/batch_semaphore.rs:376-393 | a run in which it happens with a reservation: it is assigned the last permit, the receiver closes and waits, and the drop of the reservation leaves it waiting for what `recv` would report at once |
| `BroadcastRuns.Shared.constructor` | osaka/src/sync/broadcast.rs:433-471 | a ring of the next power of two, each slot one capacity behind its first position, and one receiver at 0 |
| `BroadcastRuns.Shared.Send2` | osaka/src/sync/broadcast.rs:604-647 | fails without receivers; otherwise fills the slot at the tail, or marks it closed and leaves its value, and wakes all that wait |
| `BroadcastRuns.Shared.NotifyRx` | osaka/src/sync/broadcast.rs:668-679 | nobody waits afterwards and nothing else changes |
| `BroadcastRuns.Shared.DropSender` | osaka/src/sync/broadcast.rs:691-696 | the last sending handle sends the close marker |
| `BroadcastRuns.Shared.Subscribe` | osaka/src/sync/broadcast.rs:651-665 | a receiver at the tail |
| `BroadcastRuns.Shared.RecvRef` | osaka/src/sync/broadcast.rs:768-881 | what the branches on the slot position, the close adjustment and the missed count find |
| `BroadcastRuns.Shared.Recv` | osaka/src/sync/broadcast.rs:1090-1101 | one receive that runs to its end, the guard included; the new state is the specified one |
| `BroadcastRuns.Shared.DropReceiver` | osaka/src/sync/broadcast.rs:1036-1055 | the drain loop terminates, never meets Empty, and leaves the specified state |
| `Broadcast.NextPowerOfTwo` | osaka/src/sync/broadcast.rs:437-438 | a power of two, at least the capacity asked for and less than twice it |
| `BroadcastTheorems.SendOk` | osaka/src/sync/broadcast.rs:604-647 | sending appends its argument to what was sent, wakes all and reports the number of receivers alive; without receivers it changes nothing |
| `BroadcastTheorems.RecvExactly` | osaka/src/sync/broadcast.rs:768-881 | what `recv` returns, exactly: the value sent at the cursor while it is retained, the number skipped when it is not, Closed at the marker, Empty at the tail |
| `BroadcastTheorems.ReadsItsValue` | osaka/src/sync/broadcast.rs:837-866 | the value read is the one sent at the cursor, also when the close marker has taken its slot, and the slot counts the reader |
| `BroadcastTheorems.RecvOk` | osaka/src/sync/broadcast.rs:1168-1176 | receiving keeps the invariant, the count of the slot read going down by one |
| `BroadcastRuns.DrainKeeps` | osaka/src/sync/broadcast.rs:1036-1055 | the drain loop keeps the invariant, reaches the tail and touches no other receiver |
| `BroadcastRuns.LogIsSent` | osaka/src/sync/broadcast.rs:604-647 | in every run, position p holds the argument of the p-th `send` that succeeded, and the close marker comes after the last of them |
| `BroadcastRuns.LastSenderCloses` | osaka/src/sync/broadcast.rs:691-696 | dropping the last sender closes the channel, appends the marker and wakes everybody who listens; dropping another does not |
| `BroadcastRuns.DeliveryAccounted` | osaka/src/sync/broadcast.rs:768-881 | in every run, the position subscribed at, the values received, the lag reported and Closed account for the cursor; without lag exactly what was sent since was received, in order; who waits has nothing to read |
| `BroadcastRuns.DeliveryExact` | osaka/src/sync/broadcast.rs:768-881 | the exact result of a receive in every reachable state, in terms of what was passed to `send` |
| `BroadcastRuns.HeldWhileNeeded` | osaka/src/sync/broadcast.rs:1168-1176 | while the channel is open every slot counts the receivers alive that have not read it, and holds its value exactly while there are any |
| `BroadcastRuns.ClosedIsReportedOnce` | osaka/src/sync/broadcast.rs:874-878 | a receive after Closed finds nothing and waits |
| `NotifyTheorems.StepInv` | osaka/src/sync/notify.rs:427-606 | every step of every thread meets the assertions and keeps the invariant |
| `NotifyTheorems.WaitingExactly` | osaka/src/sync/notify.rs:561-606 | WAITING holds exactly while a waiter is linked; no `unwrap` or assertion fails in any run |
| `NotifyTheorems.Accounting` | osaka/src/sync/notify.rs:427-459 | every `notify_one` is under way, stored as the one permit, coalesced with it, given to a future that has not used it, or used by one |
| `NotifyTheorems.NotifyWaitersReaches` | osaka/src/sync/notify.rs:493-552 | futures older than the latest `notify_waiters` are not linked, and those that waited were notified and their wakers taken; younger ones were not notified by it |
| `NotifyTheorems.DropReissues` | osaka/src/sync/notify.rs:892-933 | dropping a future that has an unused `notify_one` puts that under way again, and only then |
| `NotifyCalls.GivenPollReturns` | osaka/src/sync/notify.rs:836-880 | in every run, the next poll of a future that was notified ends with the future done |
| `NotifyCalls.NotifyWaitersReturns` | osaka/src/sync/notify.rs:493-552 | in every run, after a `notify_waiters` has returned every future made before it is unlinked, and notified with its waker taken if it waited |
| `NotifyCalls.NotifyOneAlone` | osaka/src/sync/notify.rs:427-459 | with nobody else about, `notify_one` notifies and wakes the oldest waiter, or stores the permit if there is none |
| `NotifyCalls.PollTakesPermit` | osaka/src/sync/notify.rs:743-764 | a first poll that finds the permit stored takes it and is done |
| `NotifyCalls.PollWithoutPermit` | osaka/src/sync/notify.rs:743-834 | a first poll without a permit is done exactly if `notify_waiters` was called since the future was made, and otherwise links it as the newest waiter |
| `NotifyTheorems.NotifyOneGives` | osaka/src/sync/notify.rs:577-602 | notifying the oldest waiter keeps the invariant, the last one taking WAITING away |
| `NotifyTheorems.NotifyWaitersGives` | osaka/src/sync/notify.rs:510-547 | notifying all of them keeps it |
| `NotifyTheorems.PollEnqueues` | osaka/src/sync/notify.rs:775-834 | linking a future keeps it |
| `NotifyTheorems.DropRemovesQueued` | osaka/src/sync/notify.rs:902-915 | unlinking a dropped future keeps it |
| `OneshotTheorems.StepInv` | osaka/src/sync/oneshot.rs:512-539 | every step of either side keeps the invariant on bits, cells and places of the value |
| `OneshotTheorems.RunsAreSound` | osaka/src/sync/oneshot.rs:971-1065 | in every interleaving no cell is touched by both sides at once, no waker is read or dropped that is not there, none is overwritten, and the end drops exactly those still stored |
| `OneshotTheorems.ValueMovesOnce` | osaka/src/sync/oneshot.rs:1076-1078 | the value is always in exactly one place, and at the end delivered, returned by `send`, or dropped with the channel, exactly one of them |
| `OneshotTheorems.ReturnedExactly` | osaka/src/sync/oneshot.rs:512-539 | `send` returns the value exactly if the receiver had closed first, and then it is never delivered |
| `OneshotTheorems.ReceivesWhatWasSent` | osaka/src/sync/oneshot.rs:988-1054 | a receiver that finds the channel complete finds the value sent, or nothing exactly if none was |
| `OneshotTheorems.NobodyLeftParked` | osaka/src/sync/oneshot.rs:971-986 | a parked receiver is woken by a completed sender, a parked sender by a close |
| `OneshotCalls.ReadReturns` | osaka/src/sync/oneshot.rs:988-1054 | in every run, a poll of the receiver that begins when the channel is complete and holds the value returns it; Pending means that it was neither complete nor closed, an error that it was closed or nothing was sent |
| `OneshotCalls.TryRecvOfIncomplete` | osaka/src/sync/oneshot.rs:881-905 | `try_recv` of a channel that is not complete fails if it is closed, and else says Empty and changes nothing |
| `OneshotCalls.CloseReturns` | osaka/src/sync/oneshot.rs:1057-1067 | a close, or the drop of the receiver, leaves the channel closed and a parked sender woken |
| `OneshotCalls.PollClosedReturns` | osaka/src/sync/oneshot.rs:691-737 | `poll_closed` says Ready only if the channel is closed, always if it was when it began, and else parks the sender |
| `OneshotCalls.SendReturns` | osaka/src/sync/oneshot.rs:512-539 | `send` completes the channel if it is not closed by then, and returns its argument if it was closed before |
| `OneshotCalls.SenderGoneWakes` | osaka/src/sync/oneshot.rs:741-747 | a sender that came and went, with or without a value, leaves no receiver parked and asleep |
| `OneshotCalls.CallsAreShort` | osaka/src/sync/oneshot.rs:971-1067 | every step inside a call brings its end nearer, and no step of the other side puts it off |
| `AtomicWaker.StepInv` | osaka/src/sync/atomic_waker.rs:181-295 | every step of any number of registering and waking threads keeps the invariant and meets the assertion on the state |
| `AtomicWaker.MutualExclusion` | osaka/src/sync/atomic_waker.rs:181-295 | at most one thread is in the critical section of the cell |
| `AtomicWaker.WakeCovers` | osaka/src/sync/atomic_waker.rs:311-339 | a wake that finds a stored waker, or meets a registration that holds the lock, even one that has not stored its waker yet, wakes that waker or leaves that to the registering thread |
| `AtomicWaker.NoLostWake` | osaka/src/sync/atomic_waker.rs:311-339 | in every run, from such a wake on the waker is woken or some thread is on its way to wake it, whatever registers or wakes meanwhile; once no call is under way it was woken |
| `AtomicWaker.CoveredStays` | osaka/src/sync/atomic_waker.rs:214-264 | no step lets go of a waker that is to be woken |
| `AtomicWaker.RegistrationKept` | osaka/src/sync/atomic_waker.rs:181-295 | with one registering thread at a time, in every run, from a registration to the next one its waker is about to be stored, stored, or woken; with no call under way it is stored or was woken |
| `AtomicWaker.RegisterAlone` | osaka/src/sync/atomic_waker.rs:181-295 | a registration that meets nobody stores its waker and wakes nobody |
| `AtomicWaker.WakeAlone` | osaka/src/sync/atomic_waker.rs:301-339 | a wake that meets nobody takes the stored waker and wakes it |
| `TimeDriver.Earliest` | osaka/src/time/driver/mod.rs:145-152 | the entry the heap gives first has a least deadline |
| `TimeDriver.TimeDriver.PollSleep` | osaka/src/time/driver/sleep.rs:94-105 | ready exactly from the deadline on; registered otherwise |
| `TimeDriver.TimeDriver.WakeSleeper` | osaka/src/time/driver/mod.rs:46-58 | adds an entry unless the sleep is registered, whose first waker is kept |
| `TimeDriver.TimeDriver.ResetSleeper` | osaka/src/time/driver/mod.rs:60-74 | the entry gets the new deadline, others and unknown sleeps are left alone |
| `TimeDriver.TimeDriver.NextWakeup` | osaka/src/time/driver/mod.rs:89-107 | the least deadline unless it was emitted last |
| `TimeDriver.TimeDriver.TakeTimestep` | osaka/src/time/driver/mod.rs:109-121 | the loop takes the entries due, earliest first, until one is not due |
| `TimerRuns.TakesExactlyDue` | osaka/src/time/driver/mod.rs:109-121 | if no deadline is past, what is taken is exactly what is due now and what remains lies ahead |
| `TimerRuns.EmitOk` | osaka/src/time/driver/mod.rs:89-107 | leaving out a wakeup is safe: it is pending already |
| `TimerRuns.LeastDeadlineCovered` | osaka/src/time/driver/mod.rs:89-107 | in every run the least deadline is a pending event |
| `TimerRuns.WokenAtDeadline` | osaka/src/time/driver/mod.rs:109-121 | every sleeper is registered until its deadline, and is woken by an event at that very time |
| `TimerRuns.SleeperIsWoken` | osaka/src/time/driver/sleep.rs:79-101 | from the call to the wake: a task that goes to sleep, or whose sleep is reset to a later time, and is not reset again, is woken by its own waker by an event at exactly that time |
| `TimerRuns.NeverEarly` | osaka/src/time/driver/mod.rs:109-121 | whoever is woken is woken at its deadline |
| `TimerRuns.LateResetExactly` | osaka/src/time/driver/mod.rs:62-107 | a registered sleep reset to the present or the past is the next one due, and gets an event exactly if its new deadline is pending anyway or is not what was emitted last |
| `TimerRuns.SwallowedWakeup` | osaka/src/time/driver/mod.rs:89-107 | a run in which it gets none: two sleeps, the second reset to the moment at which the first was woken; it is due and nothing is pending |
| `TimerRuns.LateResetServed` | osaka/src/time/driver/mod.rs:109-122 | with an event, a sleep reset to the present moment is woken at it |
| `TimerRuns.PastEntryBlocks` | osaka/src/time/driver/mod.rs:109-122 | an entry whose deadline has passed blocks the driver: no later event wakes anybody, and the entry stays |
| `Interval.Interval.PollTick` | osaka/src/time/driver/interval.rs:421-448 | pending before the deadline; after it the tick due, with the next one scheduled as the lateness and the behavior say |
| `Interval.Interval.Reset` | osaka/src/time/driver/interval.rs:476-478 | the next tick is one period from now |
| `Interval.SkipLandsAhead` | osaka/src/time/driver/interval.rs:316-338 | Skip goes to the first point of the grid after now, at most one period ahead |
| `Interval.NextTickAdvances` | osaka/src/time/driver/interval.rs:421-448 | the next tick is later, and on the grid except under Delay |
| `Interval.TicksOnGrid` | osaka/src/time/driver/interval.rs:421-448 | under Burst and Skip every tick of every run lies on start plus a whole number of periods |
| `Interval.TicksIncrease` | osaka/src/time/driver/interval.rs:421-448 | ticks increase strictly under every behavior |
| `Interval.NoTickIsSkipped` | osaka/src/time/driver/interval.rs:316-338 | if every tick is taken on time or under Burst, the k-th tick is the one due k periods after the first |
| `Interval.CaughtUpExactly` | osaka/src/time/driver/interval.rs:316-338 | after a missed tick the next one lies ahead exactly if the behavior is not Burst or the period has not passed |
| `Interval.DelayOnGridExactly` | osaka/src/time/driver/interval.rs:316-338 | under Delay the tick after a late one is on the grid exactly if the late one was late by whole periods |

## Left out

* Weak memory orderings: atomics are sequentially consistent. Overflow of positions, reference counts and permits, and the limits the source asserts against it.
* The concurrent protocols are step systems on values rather than classes, because an object method runs to its end and could not be interleaved; what this loses is the layout of the shared objects, not any interleaving.
* The 64-bit word of ready bits is a set of offsets and two flags, and index masks are division and remainder by the block size or the capacity; that the masks compute these for powers of two is not proved.
* `block_on` (it reaches an unimplemented `park_yield`), `try_recv` after Busy (`todo!`), `send_timeout`, `spawn_blocking` and unowned tasks, `LocalSet`, `LocalOwnedTasks` (the same code as `OwnedTasks` without the lock), and the undeclared inject queue.
* The unbounded channel's counter semaphore, `closed()` on senders, and the wakers of the bounded channel's queue beyond the semaphore itself.
* Panics and unwinding: a panicking poll is a poll that stores an error, a panicking waker clone or drop is not modelled. `mem::forget` of guards and permits, vtables, pinning and Send/Sync.
* The owner id checks of `OwnedTasks`; a node in the model belongs to one list or to none.
* `Notified::enable`, which polls without a waker.
* The mutex and the slot locks of the broadcast channel: a send or receive is one step, so the second look at a slot after taking the tail lock finds what the first one found.
* Mutex, OnceCell, Barrier and watch follow from the semaphore and `Notify` results; TCP, the reactor, the old executor, proc macros, logging and `f64` time conversions are plumbing.
- Scheduler.Core.PollUntilDeadlock: covers runs in which only finitely many polls have an effect; a runtime whose tasks wake each other for ever does not return from the source's loop either.
- TimerRuns.WokenAtDeadline: assumes that the simulation moves time to the earliest pending event and resets registered sleeps into the future, as the panicking assertion and the equality test of the driver demand.
- AtomicWaker.RegistrationKept: assumes one registering thread at a time, which the source asks of its callers; with several, all but one registration are dropped.
- Interval.TicksOnGrid: runs without `Interval::reset`, which starts a new grid one period from now.
- TaskWakes.NoLostWake: says nothing about notifications in flight once the runtime shuts down, when the source drops them.
- Channel.Channel.TryReserve: `try_reserve_owned`, which consumes the handle and differs in nothing else, has no method of its own.
- OwnedTasks.OwnedTasks.ShutDown: completes the task at once, which is what shutting down an idle task does; one that is being polled completes later, in the task life cycle modules.
