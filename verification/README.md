# libcoro's synchronisation primitives, modelled and proved in Dafny

libcoro's coroutine primitives are small pieces of code whose correctness is a statement about
every interleaving: intrusive waiter lists, one-word lock-free states, hand-over protocols and
shutdown state machines. This project models them and proves what they promise.

Concurrent code is a step machine: a state, one step per atomic access, critical section or
resume, and any number of tasks moved in any order. Weak compare-exchanges may fail spuriously,
condition variables of the operating system may wake spuriously. Each theorem is about every run
from the initial state, usually through a per-step invariant or a simulation of a sequential
specification. Where a machine's `Legal` mentions its invariant, `InitInv` proves that every initial
state has it. Where code runs in one piece, under a lock or with no other thread about, it also has
its own imperative form: classes with linked nodes, arrays and loops, each method proved to compute
the function the theorems are about.

Safety of every run does not say that a call does its job, so each machine has two more sets of
theorems. *Answers*: over every run, and for every task, each answer a call gives is counted against
the reasons for it, read off the states before and after a step and not off the code's own branches.
*Alone*: from any state a run can reach in which nobody holds the component's internal lock, a call
(or a turn of a loop, or a worker) that is left alone ends, and the whole state after it is given.

| file | component |
|---|---|
| `MutexMachine.dfy`, `MutexAnswers.dfy` | `coro::mutex` and its waiter list, one step per load and compare-exchange |
| `AwaiterList.dfy` | the intrusive list in place, with the pointer-reversing loop |
| `EventMachine.dfy`, `EventAnswers.dfy` | `coro::event`: set, reset, await, the reversal one write at a time |
| `RingStorage.dfy` | slots and wrapping counters of `coro::ring_buffer`; `RingSlots` is the array form |
| `RingProtocol.dfy` | the coroutines around the buffer: suspension, hand-over, wake-up passes |
| `RingShutdown.dfy` | notify, drain and stop, and the books of each task |
| `RingAnswers.dfy`, `RingAlone.dfy` | why each answer of produce and consume is given; the waking calls left alone |
| `SharedMutex.dfy` | `coro::shared_mutex`; `SharedMutexList` is the linked form |
| `SchedulerLoop.dfy`, `SchedulerLoopAnswers.dfy` | wake-up protocol, live-task count and order of the inline scheduler |
| `SchedulerTimers.dfy` | polls, timers and event batches as values; `SchedulerBatch` is the in-place form |
| `SchedulerRaces.dfy` | the same with other threads registering between any two steps of the loop |
| `ConditionVariable.dfy` | `coro::condition_variable`, all wait kinds, timeouts included |
| `ConditionVariableAnswers.dfy`, `ConditionVariableAlone.dfy` | what a notification brings about; waits, timeouts and notifications left alone |
| `Semaphore.dfy` | `coro::semaphore` with lock-free `try_acquire` between any two accesses |
| `SemaphoreAnswers.dfy`, `SemaphoreAlone.dfy` | how each call is decided; calls left alone |
| `Queue.dfy`, `QueueAnswers.dfy` | `coro::queue` with direct hand-off, drain and stop |
| `ThreadPool.dfy` | `coro::thread_pool`: workers, callers, shutdown and drain |
| `ThreadPoolAnswers.dfy`, `ThreadPoolAlone.dfy` | which handles callers get queued; calls and workers left alone |
| `Prelude.dfy`, `Rosters.dfy` | sequences, sums, and who is on which list |

Assumptions: sequential consistency; callers keep the rules (only holders unlock, once each; an
operation is awaited once at a time); executors accept the handles given to them; pipe writes
succeed. Clocks, the order of events in a batch, what predicates return and which sleeper a
notification wakes are inputs of a step. Counters are unbounded except the ring buffer's
`size_t` positions, which wrap at 2^64.

Where code and documentation differ, the code is modelled. The README of libcoro (README.md:515)
says that the holder of a `coro::mutex` takes over the whole waiter list; `unlock` pops one waiter,
the newest, per call (src/mutex.cpp:104-110), so grants are newest first and
`AllGrantedWithinK` says no more than that.

Five promises that do not hold in general come with the exact condition:
- the ring buffer is first-in-first-out over all histories exactly when its capacity divides 2^64
  (`FifoIffCapacityDivides`); for any capacity it is so until 2^64 elements have been stored
  (`EveryRunIsFifo`);
- `produce` returns `produced` exactly for the elements stored and, besides, for the suspended
  producers a drain woke (`EveryTaskIsServed`, with a run in `DrainedProducerIsTold`);
- the scheduler's list is empty after its dedicated loop has exited exactly when nothing is
  scheduled after that exit (`DoneIffOnTime`, with a run in `LateOpHappens`);
- the scheduler's timer is set to the earliest deadline after a timer event exactly when no
  earlier deadline is registered between the unlocked look at the first entry and the setting of
  the timer (`RearmIsRightIff`, with a run in `LateTimerHappens`);
- the thread pool leaves an empty queue when the last worker exits exactly when nothing is queued
  after that exit (`DrainedIffOnTime`, with a run in `LateHandleHappens`).

## Model

| member | source | states |
|---|---|---|
| `MutexMachine.StepSimulates` | src/mutex.cpp:13-45 | every atomic access keeps the invariant tying word, links and places to one abstract lock, and acts on that lock as a legal event or not at all |
| `MutexMachine.RunsAreLockHistories` | src/mutex.cpp:64-113 | every interleaving is a history of the sequential lock with newest-first waiters; unlock frees the lock only with nobody enlisted |
| `MutexMachine.MutualExclusion` | include/coro/mutex.hpp:155-163 | in every reachable state at most one owner, the word says unlocked iff nobody owns, nobody throws or follows a bad pointer, and the links form one finite list of exactly the suspended tasks |
| `MutexMachine.OwnershipPasses` | src/mutex.cpp:101-110 | ownership changes exactly at the acquiring, popping and releasing exchanges and at no other access |
| `MutexMachine.ChainUnique` | include/coro/detail/awaiter_list.hpp:10-35 | head and links determine the list |
| `MutexMachine.ListMoves` | include/coro/detail/awaiter_list.hpp:20-35 | with nodes reused under other successors, a successful pop still installs the true successor and a push links to the true head: each access pushes its own node, pops the front, or leaves the list |
| `MutexMachine.GrantedExactlyOnce` | src/mutex.cpp:34-43 | over every run a task is handed the lock once per enlistment, less the one pending |
| `MutexMachine.WaitersDrain` | src/mutex.cpp:70-113 | with no arrivals, hand-overs followed by those still waiting are the waiters in list order |
| `MutexMachine.AllGrantedWithinK` | src/mutex.cpp:101-110 | k waiting and none arriving, k completed unlocks hand the lock to all of them once each, newest first |
| `MutexAnswers.CallMeans` | src/mutex.cpp:64-68 | `try_lock` gets the lock exactly if it is free and otherwise changes nothing; a `lock` takes a free lock at once and goes on trying on a held one |
| `MutexAnswers.LockEnds` | src/mutex.cpp:13-45 | over every run a `lock` that goes on trying ends only on its own move, by taking the free lock or by becoming the newest waiter of a held one |
| `MutexAnswers.LockAlone` | src/mutex.cpp:34-43 | left alone, a `lock` on a held lock becomes its newest waiter, linked to the old head, and nothing else changes |
| `MutexAnswers.LockAfterRelease` | src/mutex.cpp:24-33 | left alone, a `lock` whose lock is given back before it enlists takes it |
| `MutexAnswers.UnlockAlone` | src/mutex.cpp:81-93 | left alone, `unlock` with nobody waiting frees the lock |
| `MutexAnswers.UnlockHandsOver` | src/mutex.cpp:101-111 | left alone, `unlock` makes the newest waiter the owner and leaves the others enlisted |
| `MutexAnswers.UnlockOfUnlocked` | src/mutex.cpp:75-79 | `unlock` of an unlocked mutex throws |
| `AwaiterList.ChainUnique` | include/coro/detail/awaiter_list.hpp:10-35 | a chain of linked objects is determined by its head |
| `AwaiterList.List.Push` | include/coro/detail/awaiter_list.hpp:10-18 | the entry becomes the head in front of the same nodes |
| `AwaiterList.List.Pop` | include/coro/detail/awaiter_list.hpp:21-35 | returns the head, or null when empty, and leaves the rest |
| `AwaiterList.List.PopAll` | include/coro/detail/awaiter_list.hpp:38-53 | empties the list and returns the chain of all its nodes |
| `AwaiterList.Reverse` | include/coro/detail/awaiter_list.hpp:55-74 | the loop over the links leaves a well-formed chain of the same nodes in reverse order |
| `EventMachine.PathTurn` | include/coro/detail/awaiter_list.hpp:55-74 | one turn of the reversing loop moves the front of the remaining list onto the reversed one and keeps both well formed |
| `EventMachine.StepSimulates` | src/event.cpp:11-67 | every access of set, reset and await keeps the invariant and is a legal event of the sequential event |
| `EventMachine.RunsAreEventHistories` | src/event.cpp:11-67 | every interleaving is a history of the sequential event; no waiter is dropped |
| `EventMachine.NobodyEnlistsOnSetEvent` | src/event.cpp:40-67 | no task enlists on a set event, a set event has nobody waiting, reset changes only the set flag |
| `EventMachine.SetResumesExactly` | src/event.cpp:11-38 | a set that takes the list resumes exactly those enlisted since it was last taken, once each, in arrival order under fifo and newest first under lifo |
| `EventMachine.ResumedExactlyOnce` | src/event.cpp:11-60 | over every run a task is resumed once per suspension, less the one pending |
| `EventAnswers.SetTurnsOn` | src/event.cpp:11-38 | in every state that a run can reach a `set`, whether or not anyone waits, turns the event on, and only a `reset` turns it off |
| `EventAnswers.OnSinceSet` | src/event.cpp:7-67 | after every run the event is on exactly if a `set`, or having been created on, is more recent than every `reset` |
| `EventAnswers.AwaitAlone` | src/event.cpp:40-61 | left alone, an await on a set event goes on at once, on another it becomes the newest awaiter |
| `EventAnswers.AwaitAfterSet` | src/event.cpp:50-54 | an await that finds the event set while getting ready to suspend goes on |
| `EventAnswers.SetAlone` | src/event.cpp:11-38 | left alone, a `set` under either policy and with a list of any length resumes everyone on it and returns |
| `EventAnswers.SetReturns` | src/event.cpp:11-38 | the same from every state a run can reach: the event is on and nobody enlisted in it is still suspended |
| `RingStorage.StoreAppends` | include/coro/ring_buffer.hpp:94-102 | for every capacity a store that does not wrap the counter, and for a capacity that divides 2^64 any store, keeps the representation and appends to the contents |
| `RingStorage.TakeRemovesOldest` | include/coro/ring_buffer.hpp:158-166 | under the same condition on its counter a take returns the oldest element, empties its slot and drops the front of the contents |
| `RingStorage.HistoriesAreFifo` | include/coro/ring_buffer.hpp:403-409 | for every capacity, every history that stores fewer elements than would wrap the counter yields what a queue yields; for a capacity that divides 2^64 every history does |
| `RingStorage.WrapLosesElement` | include/coro/ring_buffer.hpp:97-97 | for every other capacity a history across the wrap yields something else |
| `RingStorage.FifoIffCapacityDivides` | include/coro/ring_buffer.hpp:94-102 | first-in-first-out over all histories if and only if the capacity divides 2^64 |
| `RingSlots.Slots.constructor` | include/coro/ring_buffer.hpp:403-409 | the array form starts as the empty buffer |
| `RingSlots.Slots.TryStore` | include/coro/ring_buffer.hpp:94-102 | in place: refuses iff full, else is the store of the value form and appends to the contents |
| `RingSlots.Slots.TryTake` | include/coro/ring_buffer.hpp:158-166 | in place: nothing iff empty, else takes the oldest element and clears its slot |
| `RingProtocol.NextKeepsInv` | include/coro/ring_buffer.hpp:82-234 | every step of every task keeps both waiter lists, the lists taken from them and every task's place consistent: each suspended task is on exactly one list |
| `RingProtocol.NoLostWakeUp` | include/coro/ring_buffer.hpp:418-463 | in every reachable state, elements with suspended consumers, or free slots with suspended producers, leave some task owing the pass that matches them; at rest neither mismatch exists |
| `RingProtocol.NextIsFifo` | include/coro/ring_buffer.hpp:423-458 | each step's store or take, through all four sites and for every capacity as long as no counter wraps harmfully, moves the contents as a queue does |
| `RingProtocol.EveryRunIsFifo` | include/coro/ring_buffer.hpp:403-458 | over every run that stores fewer than 2^64 elements, and over every run if the capacity divides 2^64, all elements stored are, in order, those taken followed by the contents |
| `RingShutdown.ClosedForever` | include/coro/ring_buffer.hpp:82-113 | once closed to producers, nothing enters, no producer waits and the buffer never grows |
| `RingShutdown.StateMovesForward` | include/coro/ring_buffer.hpp:320-389 | the run state only moves running, draining, stopped; exactly one call moves it to stopped; nobody enlists after that |
| `RingShutdown.DrainingIsClosed` | include/coro/ring_buffer.hpp:361-389 | from draining on no element is stored, the producer list is empty and the used count never grows |
| `RingShutdown.DrainDeliversEverything` | include/coro/ring_buffer.hpp:361-389 | in those runs a drain loop that ends on an empty buffer has seen every stored element taken, in order, and nothing is stored or taken after |
| `RingShutdown.TakerResumesExactly` | include/coro/ring_buffer.hpp:266-389 | a notify, drain or stop that took a list has, after one move for each task on it and whatever happens in between, resumed exactly those, once each, in list order |
| `RingShutdown.SweptForGood` | include/coro/ring_buffer.hpp:335-357 | after the second section of the stopping call both waiter lists are empty for good |
| `RingShutdown.EveryTaskIsServed` | include/coro/ring_buffer.hpp:107-206 | per task over every run: resumed once per suspension less the pending one, `produced` returned exactly for stores and drain wake-ups, consume returns exactly what was taken for it in order; the answers without an element are in `EveryAnswerHasItsReason` |
| `RingShutdown.DrainedProducerIsTold` | include/coro/ring_buffer.hpp:375-380 | a run in which a producer woken by drain returns produced though its element was never stored |
| `RingAnswers.EveryAnswerHasItsReason` | include/coro/ring_buffer.hpp:107-206 | per task over every run without a harmful wrap, produce and consume separately: answers `notified` are as many as wake-ups of that side by a notify, answers `stopped` as many as calls that found the buffer closed to them plus wake-ups by a stop, but for one about to be given |
| `RingAnswers.CallMeans` | include/coro/ring_buffer.hpp:82-206 | produce stores on a running buffer with room, suspends on a full one and is refused otherwise; consume takes the oldest element of a buffer not stopped, suspends on an empty one and is refused on a stopped one |
| `RingAlone.NotifyProducersAlone` | include/coro/ring_buffer.hpp:266-287 | left alone, wakes every waiting producer with the answer notified, and nothing else; on a stopped buffer nothing |
| `RingAlone.NotifyConsumersAlone` | include/coro/ring_buffer.hpp:293-314 | the same for consumers |
| `RingAlone.ShutdownAlone` | include/coro/ring_buffer.hpp:320-359 | left alone, stops the buffer and wakes everyone waiting on either side with the answer stopped; what is stored stays; a second one does nothing |
| `RingAlone.ShutdownOvertaken` | include/coro/ring_buffer.hpp:329-334 | a shutdown overtaken before its exchange returns having done nothing |
| `RingAlone.DrainBegins` | include/coro/ring_buffer.hpp:361-380 | left alone, a drain of a running buffer closes it and wakes every waiting producer; on another it does nothing |
| `RingAlone.DrainWaits` | include/coro/ring_buffer.hpp:382-385 | while draining with elements left the drain loop changes nothing |
| `RingAlone.DrainEnds` | include/coro/ring_buffer.hpp:382-388 | once the buffer is empty, or stopped by another, the drain ends as a shutdown does |
| `SharedMutex.NextKeepsInv` | include/coro/shared_mutex.hpp:211-253 | every operation keeps state, users, exclusive-waiter count and queue consistent with each other and with the owners |
| `SharedMutex.NoBarging` | include/coro/shared_mutex.hpp:294-327 | no request, try or not, is granted while another is queued |
| `SharedMutex.StepIsFifo` | include/coro/shared_mutex.hpp:329-387 | queue plus admitted equals granted plus queue, at every step, and a final release grants exactly the front group |
| `SharedMutex.GrantedInOrder` | include/coro/shared_mutex.hpp:173-253 | over every run the invariant holds and requests are granted exactly in the order they were admitted |
| `SharedMutex.WaiterIsGranted` | include/coro/shared_mutex.hpp:329-387 | a request at position p is granted by the (p+1)-th release that leaves the lock without holders |
| `SharedMutex.AttemptMeans` | include/coro/shared_mutex.hpp:294-327 | a reader gets in exactly if no writer is in and nobody queues, a writer exactly if nobody is in; the fields still agree, and a refused attempt changes nothing |
| `SharedMutex.OperationMeans` | include/coro/shared_mutex.hpp:173-253 | for holders and waiters: a request holds at once exactly if nobody queues and no holder keeps it out, else it is queued last or, for a try, turned away with nothing changed; a release drops that hold only, and lets the front of the queue in only if it was the last |
| `SharedMutexList.QueuedLock.TryLockSharedLocked` | include/coro/shared_mutex.hpp:294-317 | in place, on consistent fields: granted exactly if the list has no head and no writer is in, adds one user when granted, changes nothing when refused, and keeps the fields consistent and the list as it was |
| `SharedMutexList.QueuedLock.TryLockLocked` | include/coro/shared_mutex.hpp:319-327 | in place, on consistent fields: granted exactly if the list has no head, there are no users and no writer is in; changes nothing when refused, and keeps the fields consistent and the list as it was |
| `SharedMutexList.QueuedLock.Suspend` | include/coro/shared_mutex.hpp:52-80 | head, tail and links describe the old list with the operation appended |
| `SharedMutexList.QueuedLock.AdvanceHead` | include/coro/shared_mutex.hpp:336-346 | unlinks exactly the head, tail included when it was the last |
| `SharedMutexList.QueuedLock.WakeReaders` | include/coro/shared_mutex.hpp:358-380 | the scan resumes exactly the readers before the first writer, in order, and counts each as a user |
| `SharedMutexList.QueuedLock.Wake` | include/coro/shared_mutex.hpp:329-387 | in place: the wake-up of the value form, resumed nodes plus remaining nodes are the old list |
| `SharedMutexList.QueuedLock.ReleaseShared` | include/coro/shared_mutex.hpp:211-231 | in place: the shared release of the value form |
| `SharedMutexList.QueuedLock.ReleaseExclusive` | include/coro/shared_mutex.hpp:239-253 | in place: the exclusive release of the value form |
| `SchedulerLoop.NextKeeps` | include/coro/scheduler.hpp:147-169 | every access of producers and loop keeps the flag a token: while it is up exactly one producer is before its pipe write, or a write is unreported, or a report is unhandled, or the loop is draining; a report always finds bytes in the pipe; a listed operation has a producer before its flag exchange, the flag up, or the loop about to take the list |
| `SchedulerLoop.NextCounts` | src/scheduler.cpp:85-184 | every step keeps the size equal to everything outstanding plus what refused spawns left behind |
| `SchedulerLoop.NoLostWakeUp` | src/scheduler.cpp:327-364 | over every run a non-empty list means a producer before its flag exchange or pipe write, data in the pipe, or the loop between draining the pipe and taking the list; data in the pipe is unreported, reported or being read; with none of these the list is empty and the flag down |
| `SchedulerLoop.DoneIffOnTime` | src/scheduler.cpp:246-265 | once the dedicated loop has exited the list is empty exactly if no operation was pushed after the exit |
| `SchedulerLoop.LateOpHappens` | include/coro/scheduler.hpp:147-169 | a run in which an operation scheduled after the exit stays listed with every thread idle |
| `SchedulerLoop.ExitMeansDone` | src/scheduler.cpp:246-265 | over every run the size is exact up to refused spawns, so the dedicated loop exits only with nothing outstanding |
| `SchedulerLoop.ScheduledInOrder` | src/scheduler.cpp:327-364 | over every run the loop collects scheduled operations once each, oldest first |
| `SchedulerLoopAnswers.ExitMeansShutdown` | src/scheduler.cpp:255-258 | over every run the dedicated loop has exited only if shutdown was requested |
| `SchedulerLoopAnswers.ExitsExactlyIf` | src/scheduler.cpp:255-258 | at its head the loop exits exactly if shutdown was requested and nothing is live, else it fetches a batch |
| `SchedulerLoopAnswers.ScheduleAlone` | include/coro/scheduler.hpp:147-169 | left alone, `schedule` counts and lists its operation, and signals the pipe unless that is done already |
| `SchedulerLoopAnswers.SpawnAlone` | src/scheduler.cpp:85-91 | left alone before shutdown, a spawn adds a live task and lists its operation, counting both |
| `SchedulerLoopAnswers.SpawnRefused` | src/scheduler.cpp:161-171 | after shutdown it is refused and its count stays behind |
| `SchedulerLoopAnswers.PollAlone` | src/scheduler.cpp:126-159 | a poll or timed yield is counted and registered |
| `SchedulerLoopAnswers.WakeUpServed` | src/scheduler.cpp:267-364 | a loop left alone whose pipe was written drains any amount from it, lowers the flag and resumes every listed operation in that turn |
| `SchedulerLoopAnswers.PollServed` | src/scheduler.cpp:289-324 | a poll whose event comes up is resumed in the same turn and uncounted |
| `SchedulerTimers.EventKeepsInv` | src/scheduler.cpp:385-415 | a descriptor event keeps timer map, watches, queued handles and, if nothing else intervenes, the armed deadline consistent |
| `SchedulerTimers.TakeKeepsMap` | src/scheduler.cpp:422-439 | the locked section of a timer event takes exactly the due entries out of the map |
| `SchedulerTimers.TimeoutKeepsInv` | src/scheduler.cpp:417-468 | a timer event that no registration interrupts keeps map, watches, queued handles and armed deadline consistent, for any number of due entries |
| `SchedulerTimers.EventAppends` | src/scheduler.cpp:267-294 | what the handler of each event appends to the handles, given without it: the poll if it was unfinished, the due polls in order, or the scheduled operations in order |
| `SchedulerTimers.ExecuteResumesInOrder` | src/scheduler.cpp:267-325 | a batch resumes every operation it brought, once each and in the order brought, behind all resumed before |
| `SchedulerRaces.NextKeepsInv` | src/scheduler.cpp:385-519 | with other threads registering between any two steps, every step of a batch and every registration keeps the map exactly the unfinished polls with deadlines, less those taken out, each poll queued once iff finished, and the timer set to the first deadline or known to be late |
| `SchedulerRaces.BatchServesEach` | src/scheduler.cpp:267-325 | for any batch in any order, with registrations at any point of it: each poll found unfinished is queued exactly once if an event concerns it, with the status of the first such event, else not at all, and no handle is resumed before the batch has been handled |
| `SchedulerRaces.EveryPollResumedOnce` | src/scheduler.cpp:385-468 | over every run a poll has been queued once iff finished, is in the timer map, or taken out to be finished, exactly while unfinished with a deadline, and is watched exactly while unfinished with a descriptor |
| `SchedulerRaces.ScheduledResumedInOrder` | src/scheduler.cpp:267-325 | over every run the operations resumed, queued or still in the batch are those fetched, once each and in order; between batches all are resumed |
| `SchedulerRaces.ArmedIffNotLate` | src/scheduler.cpp:465-519 | over every run, outside a timer event, the timer is set to the least deadline exactly if it is not late, that is unless the last re-arm was overtaken and nothing has set the timer since; if late it is set past the first deadline or not at all |
| `SchedulerRaces.RearmIsRightIff` | src/scheduler.cpp:467-467 | between the unlocked look at the first entry and the setting of the timer any registrations may come: the timer is right afterwards exactly if none has a deadline before the one seen |
| `SchedulerRaces.LateTimerHappens` | src/scheduler.cpp:502-519 | a run that leaves the timer set to 30 with a deadline 20 in the map |
| `SchedulerRaces.BatchAlone` | src/scheduler.cpp:267-325 | without registrations in between, the steps of a batch end where the value form of the batch does |
| `SchedulerBatch.EventLoop.UpdateTimeout` | src/scheduler.cpp:502-519 | the timer is off iff the map is empty, else set to a deadline in the map that no entry undercuts |
| `SchedulerBatch.EventLoop.AddTimerToken` | src/scheduler.cpp:470-482 | in place: inserts in key order behind equal keys and rearms iff the new entry is first |
| `SchedulerBatch.EventLoop.RemoveTimerToken` | src/scheduler.cpp:484-500 | exactly one entry is gone, the map stays sorted and the timer stays on its first deadline |
| `SchedulerBatch.EventLoop.ProcessEventExecute` | src/scheduler.cpp:385-415 | in place: the event handler of the value form |
| `SchedulerBatch.EventLoop.TakeDue` | src/scheduler.cpp:422-439 | the loop takes off the front of the map exactly the entries due |
| `SchedulerBatch.EventLoop.ProcessTimeoutExecute` | src/scheduler.cpp:417-468 | in place and uninterrupted: finishes exactly the due entries and keeps the invariant |
| `SchedulerBatch.EventLoop.ProcessEventsExecute` | src/scheduler.cpp:267-325 | in place and uninterrupted: scans the whole batch, then resumes everything queued, behind all resumed before, among it every operation the batch brought, once each and in order; keeps the invariant |
| `ConditionVariable.NextKeepsInv` | src/condition_variable.cpp:25-251 | every step of waiters, notifiers, timers and callbacks keeps: each node in one place, the user's mutex with whom it should be, one party at a time deciding a timed wait |
| `ConditionVariable.OnlyResumesResume` | src/condition_variable.cpp:38-124 | no other step brings a wait back |
| `ConditionVariable.ClaimIsFirst` | src/condition_variable.cpp:155-195 | a notification or a timeout claims a timed wait only if neither has, and the completed flag changes at claims only |
| `ConditionVariable.ClaimedAndResumedOnce` | include/coro/condition_variable.hpp:223-287 | over every run a timed wait is claimed at most once, by notify or timeout and never both, and a wait of any kind is resumed at most once |
| `ConditionVariable.ResumedForItsCause` | src/condition_variable.cpp:38-124 | over every run whoever resumes a wait holds the mutex for it; an earlier step of a notifier asked and found no predicate, the predicate true, or it false and a stop requested, and the mutex has been held for this wait ever since; or the timeout claimed the wait and the predicate is asked at the resume; the result is what the predicate said |
| `ConditionVariable.DecidedByAsking` | src/condition_variable.cpp:155-195 | nothing but a step that asks, with that answer, makes a wait ready; `AskedReadyDecides` is the converse |
| `ConditionVariable.ThroughMeansTrue` | src/condition_variable.cpp:55-58 | a wait that goes through without suspending found its predicate true, and the mutex has been its user's since before that |
| `ConditionVariableAnswers.AskedReadyDecides` | src/condition_variable.cpp:155-195 | the converse of `DecidedByAsking`: a wait that is asked and ready is decided, for that cause |
| `ConditionVariableAnswers.AskedNotReady` | src/condition_variable.cpp:68-79 | one that is asked and ready for no cause is not decided and is on its way back to the list |
| `ConditionVariableAnswers.ReadyIsResumed` | src/condition_variable.cpp:38-195 | over every run a wait told ready is back exactly when the at most three moves of its notifier and callback have been made, and no other move delays it |
| `ConditionVariableAnswers.TimeoutIsResumed` | include/coro/condition_variable.hpp:245-266 | the same for a wait its timeout claimed, once that has the mutex |
| `ConditionVariableAnswers.NotReadyGoesBack` | src/condition_variable.cpp:193-218 | a wait told not ready is put at the head of the list by the second move of its notifier, the third if it is timed, whatever happens in between |
| `ConditionVariableAnswers.NotifyOneReturns` | src/condition_variable.cpp:199-224 | returns only when nobody waited, or a wait is settled to come back, or one was put back; a wait that timed out does not use the notification up |
| `ConditionVariableAnswers.NotifyAllReturns` | src/condition_variable.cpp:226-251 | begins with the whole list and returns only when it has dealt with all of it |
| `ConditionVariableAlone.WaitAlone` | src/condition_variable.cpp:25-66 | left alone, a wait whose predicate holds goes through, any other suspends as the newest waiter with the mutex free |
| `ConditionVariableAlone.WaitReturns` | src/condition_variable.cpp:38-44 | a resumed wait returns holding the mutex, which its caller lets go |
| `ConditionVariableAlone.TimeoutAlone` | include/coro/condition_variable.hpp:245-262 | left alone, the timeout of an uncompleted wait claims it and resumes it as timed out, with what its predicate says |
| `ConditionVariableAlone.LateTimeout` | include/coro/condition_variable.hpp:264-265 | a timeout after completion only ends |
| `ConditionVariableAlone.PlainReady` | src/condition_variable.cpp:38-124 | left alone, a notifier at a ready wait without time limit resumes it with the mutex, for its cause |
| `ConditionVariableAlone.TimedReady` | src/condition_variable.cpp:155-191 | at a ready timed wait it completes it, for its cause, and signals its callback with the mutex held |
| `ConditionVariableAlone.CallbackAlone` | include/coro/condition_variable.hpp:223-237 | the callback resumes a wait that was not timed out for that cause, and does nothing for one that was |
| `ConditionVariableAlone.NotReadyAlone` | src/condition_variable.cpp:193-218 | timed or not, a wait that is not ready is put back at the head and all else is as before |
| `ConditionVariableAlone.CompletedAlone` | src/condition_variable.cpp:159-166 | a timed-out wait is dropped and a notify_one turns to the next |
| `ConditionVariableAlone.NotifyOneOfNone` | src/condition_variable.cpp:204-208 | notify_one with nobody waiting changes nothing |
| `ConditionVariableAlone.NotifyOneTakes` | src/condition_variable.cpp:204-210 | it takes the newest waiter |
| `ConditionVariableAlone.NotifyAllTakes` | src/condition_variable.cpp:226-235 | notify_all takes the whole list and begins with the newest |
| `ConditionVariableAlone.NotifyAllOfNoneReady` | src/condition_variable.cpp:226-251 | with nobody ready it puts everybody back in the opposite order, for lists of any length |
| `Semaphore.NextKeepsInv` | include/coro/semaphore.hpp:42-191 | every access keeps the counter in range and zero while anyone waits, the internal mutex with one task, and each waiter on one list |
| `Semaphore.TokensAreConserved` | include/coro/semaphore.hpp:114-155 | over every run, with try_acquire between any two accesses: 0 <= counter <= max, waiters imply counter 0, and start plus accepted releases equals counter plus tokens reported, carried, and, only after shutdown, lost; which releases are accepted is in `GivenMeansGave` and `EveryCallIsAnswered` |
| `Semaphore.AcquiredMeansToken` | include/coro/semaphore.hpp:68-75 | until shutdown an acquire about to return has its token |
| `Semaphore.WaiterResumedOnce` | include/coro/semaphore.hpp:171-191 | whoever resumes a waiter holds it alone, finds it suspended, and lets it go on with a token exactly if a release passed one |
| `Semaphore.ShutdownResumesExactly` | include/coro/semaphore.hpp:171-191 | the shutdown that wins has, after its unlock and one move for each waiter it took, woken exactly those, once each, newest first |
| `SemaphoreAnswers.EveryCallIsAnswered` | include/coro/semaphore.hpp:42-155 | per task and kind of call over every run: calls begun are those that took or gave a token, saw none, the flag or the maximum, or joined the list, plus the one under way; and each of these has returned or is about to |
| `SemaphoreAnswers.GivenMeansGave` | include/coro/semaphore.hpp:114-137 | the releases counted as accepted are exactly the steps that add one to the counter or pass one to the newest waiter |
| `SemaphoreAnswers.SaysWhatItGot` | include/coro/semaphore.hpp:68-75 | try_acquire says true exactly if it took a token; acquire says acquired exactly before shutdown |
| `SemaphoreAnswers.PassWakes` | include/coro/semaphore.hpp:124-130 | a release that passed a token on wakes that waiter, token in hand, by its second move |
| `SemaphoreAnswers.NobodyWaitsAfterShutdown` | include/coro/semaphore.hpp:171-191 | after shutdown somebody waits only while a shutdown is about to take the list |
| `SemaphoreAlone.TryAlone` | include/coro/semaphore.hpp:143-155 | left alone, takes a token exactly if there is one, and says so |
| `SemaphoreAlone.AcquireShut` | include/coro/semaphore.hpp:42-52 | left alone after shutdown, acquire returns without a token |
| `SemaphoreAlone.AcquireTakes` | include/coro/semaphore.hpp:42-52 | with a token there it takes it and says acquired |
| `SemaphoreAlone.AcquireWaits` | include/coro/semaphore.hpp:54-66 | with none there it becomes the newest waiter |
| `SemaphoreAlone.ReleaseAlone` | include/coro/semaphore.hpp:114-137 | left alone with nobody waiting, adds a token; at the maximum changes nothing |
| `SemaphoreAlone.ReleasePasses` | include/coro/semaphore.hpp:124-130 | with tasks waiting the newest runs again with the token |
| `SemaphoreAlone.ShutdownAlone` | include/coro/semaphore.hpp:171-191 | left alone, raises the flag and wakes every waiter without a token; a second one changes nothing |
| `SemaphoreAlone.ShutdownOvertaken` | include/coro/semaphore.hpp:178-181 | a shutdown that loses the exchange lets the internal mutex go and returns |
| `Queue.NextKeepsInv` | include/coro/queue.hpp:69-107 | every step keeps poppers and elements from waiting at once, first-in-first-out books, and each suspended popper on one list |
| `Queue.EveryRunIsFifo` | include/coro/queue.hpp:174-268 | over every run accepted pushes equal delivered elements followed by stored ones, and each task returns exactly what was delivered to it, in order |
| `Queue.ProducedMeansAccepted` | include/coro/queue.hpp:174-201 | accepted elements are as many as the pushes that returned or will return produced |
| `Queue.PopperResumedOnce` | include/coro/queue.hpp:186-194 | whoever resumes a popper holds it alone and makes it return its element, or stopped when shutdown does |
| `Queue.ShutdownTakesAll` | include/coro/queue.hpp:334-359 | the shutdown that wins takes every suspended popper and nobody is suspended on the queue again |
| `Queue.ShutdownResumesExactly` | include/coro/queue.hpp:350-358 | after one move for each popper it took, that shutdown has woken exactly those, once each, newest first |
| `Queue.DrainDeliversAll` | include/coro/queue.hpp:371-388 | a drain loop that finds no elements has seen every accepted element delivered, for good |
| `QueueAnswers.PushSection` | include/coro/queue.hpp:174-201 | a push is accepted exactly if the queue is running at its section; it goes to the newest suspended popper and is stored only if there is none |
| `QueueAnswers.TryPopSection` | include/coro/queue.hpp:293-327 | fails to lock, says stopped, says empty or takes the front element, each exactly in its case |
| `QueueAnswers.PopSection` | include/coro/queue.hpp:69-107 | says stopped, takes the front element or suspends as the newest popper, each exactly in its case |
| `QueueAnswers.PushAlone` | include/coro/queue.hpp:174-201 | left alone with no popper waiting: refused with nothing changed, or stored last and told produced |
| `QueueAnswers.PushHands` | include/coro/queue.hpp:186-194 | left alone with poppers waiting: the newest runs again with the element and the push is told produced |
| `QueueAnswers.PopAlone` | include/coro/queue.hpp:276-327 | left alone with elements there, pop and try_pop return the front one, also during a drain |
| `QueueAnswers.NothingToPop` | include/coro/queue.hpp:276-327 | on a stopped queue, or for try_pop an empty one, they return and change nothing |
| `QueueAnswers.ShutdownAlone` | include/coro/queue.hpp:334-359 | left alone, stops the queue and wakes every suspended popper with the answer stopped; elements stay |
| `QueueAnswers.DrainAlone` | include/coro/queue.hpp:371-388 | left alone on an empty running queue, a drain does the same; on one not running nothing |
| `QueueAnswers.DrainWaits` | include/coro/queue.hpp:382-387 | with elements left the drain loop changes nothing until somebody stops the queue |
| `ThreadPool.NextKeepsInv` | src/thread_pool.cpp:51-184 | every step keeps size, lock, sleepers and tickets consistent |
| `ThreadPool.SizeCoversWork` | src/thread_pool.cpp:79-95 | queued, executing and live detached work is within the size in every reachable state |
| `ThreadPool.HandlesAreFifo` | src/thread_pool.cpp:119-184 | handles leave in the order they entered, which is that of `HandlesAskedAreQueued`; each one taken has been resumed exactly once or its taker is about to |
| `ThreadPool.NoLostWakeUp` | src/thread_pool.cpp:97-184 | while a worker sleeps, queued handles are no more than the workers awake and not executing plus the notifications still due; once shutdown has notified nobody sleeps |
| `ThreadPool.DrainedIffOnTime` | src/thread_pool.cpp:146-164 | when the last worker has exited the queue is empty iff nothing was queued after that, and then every handle was resumed exactly once |
| `ThreadPool.DrainedAtExit` | src/thread_pool.cpp:97-164 | so it is empty if only workers queue handles once shutdown is requested |
| `ThreadPool.LateHandleHappens` | src/thread_pool.cpp:79-95 | a run in which a handle queued by an outside thread after the last exit is stranded |
| `ThreadPoolAnswers.PresentAdd` | include/coro/thread_pool.hpp:185-198 | the handles taken from a range are those of its parts, in order |
| `ThreadPoolAnswers.PresentAt` | include/coro/thread_pool.hpp:185-198 | each handle of a range that is not null is taken, at the place given by those before it |
| `ThreadPoolAnswers.HandlesAskedAreQueued` | include/coro/thread_pool.hpp:178-219 | over every run the handles that entered are those put behind the queue, in order, and every handle a task asked for was put there or turned away by the shutdown flag, in the order asked, but for those of the call it is in |
| `ThreadPoolAnswers.ShutdownReturns` | src/thread_pool.cpp:97-117 | shutdown returns exactly when every worker has exited; a second call at once |
| `ThreadPoolAlone.ScheduleAlone` | src/thread_pool.cpp:51-95 | left alone, `schedule` and `resume` are refused after shutdown with nothing changed, else the handle is counted, queued last and a sleeper woken |
| `ThreadPoolAlone.NothingToDo` | src/thread_pool.cpp:79-84 | `resume` of nothing and a second shutdown change nothing |
| `ThreadPoolAlone.SpawnAlone` | src/thread_pool.cpp:65-71 | a spawn before shutdown counts the task and its handle and queues the handle |
| `ThreadPoolAlone.SpawnRefusedAlone` | src/thread_pool.cpp:65-90 | after shutdown it is refused and leaves one count behind |
| `ThreadPoolAlone.RangeAlone` | include/coro/thread_pool.hpp:178-205 | the handles of a range that are not null, and only they, are queued in order and counted |
| `ThreadPoolAlone.NotifiesEach` | include/coro/thread_pool.hpp:210-216 | a range smaller than the pool wakes as many sleepers as it has handles, or all there are |
| `ThreadPoolAlone.NotifiesAll` | include/coro/thread_pool.hpp:206-209 | a range at least as big wakes all of them |
| `ThreadPoolAlone.ShutdownAlone` | src/thread_pool.cpp:97-107 | left alone, raises the flag and wakes every sleeper |
| `ThreadPoolAlone.WorkerServes` | src/thread_pool.cpp:127-144 | left alone before shutdown, a worker takes the front handle, resumes it once and uncounts it |
| `ThreadPoolAlone.WorkerSleeps` | src/thread_pool.cpp:129-135 | with nothing queued it goes to sleep and changes nothing |
| `ThreadPoolAlone.WorkerNotices` | src/thread_pool.cpp:130-135 | woken by shutdown with nothing queued it goes on to see the flag |
| `ThreadPoolAlone.WorkerDrains` | src/thread_pool.cpp:146-164 | after shutdown it runs what is queued, handle by handle |
| `ThreadPoolAlone.WorkerLeaves` | src/thread_pool.cpp:146-156 | and exits when nothing is counted or nothing queued |

## Left out

- Networking, TLS, DNS and sockets: input and output and foreign libraries.
- epoll and kqueue: a set of watched polls, one armed deadline and an edge-triggered byte count stand for them.
- Cancel tokens of `poll`, and the window between adding a timer and watching the descriptor: registration is one step.
- SchedulerBatch.EventLoop.ProcessTimeoutExecute: the in-place form runs without interruption; the gap between its locked section and the re-arm is in `SchedulerRaces`.
- Weak memory orders, allocation, coroutine frame lifetimes, exceptions thrown by user code.
- `task`, `generator`, `sync_wait`, `when_all`, `when_any`, `latch`, concepts: would only add easy members.
- `task_group`, `default_executor`, `spawn_joinable`: not part of this model.
- `condition_variable::notify_all` on an executor: the notifications of one call run in turn, not spread over tasks.
- Condition-variable list operations are single steps: notifiers do not exclude each other, so recycled nodes are outside the model.
- The scheduler's thread-pool execution strategy: only inline execution is modelled; its pool is `ThreadPool.dfy`.
- Fairness: retry loops are shown to end when their task is left alone, not under every schedule.
- The uint64_t counts of users, waiters and live tasks do not wrap in the model.
- AwaiterList.List.Push: runs without interruption; its interleavings are in the mutex and event machines.
- AwaiterList.List.Pop: the same.
- AwaiterList.List.PopAll: the same.
- ThreadPool.SizeCoversWork: an inequality, because a refused spawn leaves the size too high for good.
- Semaphore.TokensAreConserved: after shutdown an acquire may report shutdown though it took a token; those tokens are counted as lost.
