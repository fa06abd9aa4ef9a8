# Synchronisation primitives, thread pool and fibers: a verified model

The repository is a concurrency course whose solved directories hold small, complete primitives: a
futex mutex and condition variable, a semaphore and a bounded queue built from semaphores, a cyclic
barrier, a thread pool over a closeable queue, stackful coroutines with fibers on top of them, a
ticket lock and the dining philosophers. This project models each of them as an interleaving of any
number of threads, one step per atomic operation, kernel operation or critical section, and proves
what holds in every reachable state or over every run.

Every module has the same layout. `Next(s, a)` is what one action does to the state, or `None`
where the action is not possible; `Exec` (module `Runs`) strings actions together; `Reachable` is
what some run of `Next` from the initial state leads to; an inductive invariant is preserved by
every step; the theorems about reachable states follow from it. Ghost history (values appended and
removed, tasks submitted and done, the counter without wrap-around) is part of the state only to
say what is kept. At the end of each module the object of the source appears as a class whose
methods are its atomic operations: each method's new state equals `Next` of the old one, so whatever
is proved about `Next` is proved about the object. Atomics are sequentially consistent; machine
integers wrap at the width the source uses (32 bits for futex words and the pool's counter, 64 bits
for `size_t`).

Files: `Runs`, `Counting` and `Calls` (runs; counting and summing over threads; overlapping calls,
their effects and linearizability), `FutexMutex`, `CondVar`, `WaitSet` (the monitor abstraction, and
`CondVar` as one), `MutexAndCondVar` (the two together), `Semaphores`, `BoundedQueue` (uses
`Semaphores`), `QueueHistory` (the calls of `BoundedQueue`), `Barrier`, `Rotation` (a client of
`Barrier`), `CloseableQueue`, `ThreadPool` (uses `CloseableQueue`), `JoinHang` (when `Join` returns),
`Coroutine`, `Fibers`, `Forks` (a client of `Fibers`), `TicketLock`, `Dining`.

How waiting is modelled. A thread in `FutexWait` takes the kernel lock, compares the word, and
parks; a store may fall between the comparison and the parking, a wake may not
(tasks/mutex/mutex/readme.md:27-31). In the modules that use a mutex and a condition variable, the
latter is a set of waiting threads: waiting releases the mutex and joins the set at once, a notified
or spuriously woken thread competes for the mutex again and re-tests its condition. That the
repository's own mutex and condition variable together are such a monitor is proved in `WaitSet` and
`MutexAndCondVar`. Which thread a notification picks is open, except in `CondVar`, where the kernel
queue is first-in first-out.

## Where code and documentation disagree

- `TicketLock::TryLock`: tasks/mutex/try-lock/readme.md:7-14 asks that it never waits and never calls
  `Lock`; the code calls `Lock` (ticket_lock.hpp:29). `TryLockCanWait` reaches a state in which it has
  been overtaken. `TryLockEntersAfterUnlocks` says, for every schedule, when its tests succeed: once
  as many unlocks have happened as tickets were outstanding at its `fetch_add`; so it is sure not to
  wait exactly if there were none (`TryLockWaitsExactlyWhenOvertaken`).
- `StaticThreadPool::Join`: tasks/condvar/thread-pool/readme.md:82-84 promises that it waits for the
  work and returns. The code calls `FutexWait(0)` (static_thread_pool.cpp:35), which parks only when
  the counter has already reached zero. `JoinMayHangExactlyWhenWorkIsOutstanding`: while no new call
  comes from outside, some schedule puts `Join` to sleep for ever exactly if work is outstanding when
  it begins; if none is, it returns under every schedule (`JoinReturnsWhenNothingIsOutstanding`).
  Once asleep, it is lost exactly if no worker is about to notify
  (`SleepIsForGoodExactlyWithoutNotifier`).
  When `Join` does return, `JoinIsComplete` holds.
- `CondVar` counts signals in 32 bits. tasks/condvar/condvar/readme.md:57-65 admits the A-B-A
  problem. `NotifyAllIsMissedExactlyOnWrap`: a waiter sleeps through a completed `NotifyAll` exactly
  if a check of its own meets the counter a positive multiple of 2^32 increments after its sample;
  `WrapMakesNotifyAllMissed` is the run in which that happens.

## Model

| member | source | states |
|---|---|---|
| FutexMutex.MutualExclusion | tasks/mutex/mutex/mutex.hpp:11-37 | In every reachable state, for any number of threads, at most one thread is between acquiring and the releasing write; the word is 0 exactly while nobody is; fetch_sub never underflows |
| FutexMutex.SleeperIsCovered | tasks/mutex/mutex/mutex.hpp:25-36 | No lost wakeup: while somebody is parked or about to park, a notifier or an awake slow-path thread is on its way, or the owner's coming fetch_sub will take the slow branch |
| FutexMutex.NobodyIsLeftBehind | tasks/mutex/mutex/mutex.hpp:32-37 | When every thread is idle or parked, all are idle and the word is 0 |
| FutexMutex.Progress | tasks/mutex/mutex/mutex.hpp:11-37 | Deadlock freedom: unless all are idle, a thread already inside can step, without new Lock calls or spurious wakeups |
| FutexMutex.UncontendedStaysInUserSpace | tasks/mutex/mutex/readme.md:69 | From any quiet reachable state, one compare_exchange and one fetch_sub are a whole Lock and Unlock and restore the state: no kernel call |
| FutexMutex.UnlockHandsOver | tasks/mutex/mutex/mutex.hpp:25-36 | From every state with one owner and sleepers only, Unlock followed by the woken thread's own steps puts that sleeper into the critical section |
| FutexMutex.UnlockReturns | tasks/mutex/mutex/mutex.hpp:32-37 | From every state of its owner, Unlock ends within its own one or three steps, whatever the others are doing, with the word at 0 and one sleeper woken if there is one |
| FutexMutex.ContendedLockSleeps | tasks/mutex/mutex/mutex.hpp:20-27 | From every place of a Lock that finds the mutex taken, its own steps lead to the parked state with the word at 2 and nothing else changed |
| FutexMutex.NobodySpins | tasks/mutex/mutex/readme.md:71 | While the mutex stays taken and nobody is woken, every thread takes at most six more steps, whatever the others do, and then sleeps |
| FutexMutex.ChangedWordEndsTheWait | tasks/mutex/mutex/readme.md:40-47 | A thread in wait(2) that meets another word, at the load, in the kernel or after sleeping, leaves the wait and tries exchange(2): it enters iff the word is 0 |
| FutexMutex.ExchangesAfterAChange | tasks/mutex/mutex/mutex.hpp:20-28 | exchange(2) is tried only by a Lock that found a 1, and again only when wait(2) has loaded another word than 2 |
| FutexMutex.EachNotifyWakesOne | tasks/mutex/mutex/mutex.hpp:32-37 | The number of parked threads falls by exactly one at a notify_one if anybody is parked, by one at a spurious wakeup, rises by one at a park, and changes at no other step |
| CondVar.NotifyAllIsNeverMissed | tasks/condvar/condvar/condvar.hpp:14-29 | From any reachable state: once a NotifyAll has completed, a thread whose own later checks do not meet a counter wrapped by a multiple of 2^32 never sleeps in a Wait that had sampled before the increment, whatever other threads do or have met |
| CondVar.NotifyAllIsMissedExactlyOnWrap | tasks/condvar/condvar/condvar.hpp:14-29 | Over whole runs: some time after the NotifyAll the thread sleeps in such a Wait if and only if one of its own later checks meets a counter wrapped by a positive multiple of 2^32 |
| CondVar.OversleepsExactlyOnWrap | tasks/condvar/condvar/condvar.hpp:14-18 | Over any run, a thread comes to sleep on an old sample exactly if one of its own checks is a wrapped one |
| CondVar.MissesSignalsExactlyOnWrap | tasks/condvar/condvar/condvar.hpp:15-17 | In any run at all, a futex check puts a thread to sleep despite signals since its sample iff their number is a positive multiple of 2^32 |
| CondVar.WrapMakesNotifyAllMissed | tasks/condvar/condvar/readme.md:57-65 | A reachable state in which a waiter sleeps after 2^32 completed NotifyAll calls made since its sample |
| CondVar.NotifyOneWakesEnough | tasks/condvar/condvar/condvar.hpp:14-24 | From any reachable state, with w threads in Wait past the sample at the first increment: after k completed wakes at least min(k, w) of them are no longer asleep in that Wait, provided no check of a thread that had sampled by then meets a wrapped counter; later waiters and their checks do not matter |
| CondVar.WakeOneWakesExactlyOne | tasks/condvar/condvar/condvar.hpp:23 | A NotifyOne takes exactly one thread out of the parked ones, the one that has slept longest, if there is one |
| CondVar.NotifyOneEndsAWait | tasks/condvar/condvar/condvar.hpp:14-24 | Alone with its notifier a thread in Wait sleeps, is woken by one NotifyOne and has the mutex back; only the counter has changed |
| CondVar.WakeAllWakesExactlyTheSleepers | tasks/condvar/condvar/condvar.hpp:28 | A NotifyAll sends every parked thread back to the mutex and touches nobody else |
| CondVar.NotifyOneWakesNoMore | tasks/condvar/condvar/condvar.hpp:21-24 | Over runs without NotifyAll: k NotifyOne calls and j spurious wakeups wake at most k + j threads |
| CondVar.WaitSleepsExactlyUnlessNotified | tasks/condvar/condvar/condvar.hpp:14-19 | From the read of the counter to the futex check, whatever happens in between: the check puts the thread to sleep iff the number of notifications since the read is a multiple of 2^32 |
| MutexAndCondVar.MutexAndCondVarAreAMonitor | tasks/condvar/condvar/condvar.hpp:13-29 | Every run of the futex mutex and the condition variable together, Wait running the mutex operation by operation, is to its clients a run of the monitor: same locks, unlocks, waits, returns and notifications in the same order, the owner of the mutex being its holder |
| MutexAndCondVar.NobodyIsLost | tasks/condvar/condvar/condvar.hpp:13-29 | Deadlock freedom of the two together: if no client holds the mutex and nothing inside can move, every thread is outside or waits un-notified in the monitor, and the word of the mutex is 0 |
| WaitSet.CondVarIsAMonitor | tasks/condvar/condvar/condvar.hpp:14-29 | Every run of the condition variable, whatever wraps, is to its clients a run of a monitor whose waiting is atomic release-and-enqueue and whose notifications take waiters out of a set: same locks, unlocks, waits, returns, notifications, same order; and without a wrapped check everybody notified is on the way out or has a waker on the way |
| Semaphores.PermitsAreConserved | tasks/condvar/semaphore/semaphore.hpp:20-40 | In every run the Acquires that took effect never exceed initial + Releases, even when the counter has wrapped, and the counter is the balance iff that fits a size_t |
| Semaphores.Linearizable | tasks/condvar/semaphore/semaphore.hpp:26-40 | For calls that overlap, sleep and are overtaken: their effects, in order, are a history of an atomic counter equal to the real one modulo 2^64; every call takes effect at most once after its beginning, every returned call exactly once before its return, and a waiting Acquire has taken nothing |
| Semaphores.NoPermitIsStranded | tasks/condvar/semaphore/semaphore.hpp:26-40 | While a thread waits, permits <= woken threads; and if a permit is free, a woken thread takes it with its next section, in spite of barging and spurious wakeups |
| Semaphores.AcquireSleepsExactlyWithoutPermit | tasks/condvar/semaphore/semaphore.hpp:26-32 | An Acquire that is awake takes a permit at once if there is one, and otherwise sleeps; it neither spins nor returns without one |
| Semaphores.ReleaseWakesNoMore | tasks/condvar/semaphore/semaphore.hpp:35-40 | Over runs: waiting threads are woken one at most by each Release and each spurious wakeup, by nothing else |
| BoundedQueue.EverySlotIsAccountedFor | tasks/condvar/semaphore/blocking_queue.hpp:24-47 | Free permits + producers holding a slot + buffer length + consumers not yet returning theirs = capacity; item permits + consumers owed an item + producers not yet signalling = buffer length; so length <= capacity |
| BoundedQueue.FirstInFirstOut | tasks/condvar/semaphore/blocking_queue.hpp:24-47 | Values removed followed by the buffer are the values appended, in order; front() is never called on an empty buffer |
| BoundedQueue.BufferIsExclusive | tasks/condvar/semaphore/blocking_queue.hpp:27-42 | At most one thread is in the section guarded by the binary semaphore |
| BoundedQueue.StuckOnlyWhenEmptyOrFull | tasks/condvar/semaphore/blocking_queue.hpp:14-47 | Deadlock freedom for capacity > 0: if no thread can step, all blocked threads are consumers and the buffer is empty, or all are producers and it is full |
| BoundedQueue.PutRunsThrough | tasks/condvar/semaphore/blocking_queue.hpp:24-32 | A Put that meets nobody and finds room appends the value, moves one permit from slots to items and changes nothing else, without waiting |
| BoundedQueue.TakeRunsThrough | tasks/condvar/semaphore/blocking_queue.hpp:36-47 | A Take that meets nobody and finds an item removes the front, moves one permit from items to slots and changes nothing else, without waiting |
| BoundedQueue.WaitsExactlyWhenFullOrEmpty | tasks/condvar/semaphore/blocking_queue.hpp:24-37 | A Put sleeps exactly if no slot is free when it asks, a Take exactly if no item is |
| QueueHistory.Linearizable | tasks/condvar/semaphore/blocking_queue.hpp:24-47 | For Put and Take calls interleaved section by section: their effects, in order, are a history of a bounded sequential FIFO that holds the buffer; every call takes effect at most once after its beginning, every returned call exactly once before its return, a Take with the value it returns; a call waiting for a slot, an item or the mutex has changed nothing |
| QueueHistory.EveryRunIsRecorded | tasks/condvar/semaphore/blocking_queue.hpp:24-47 | Every run of the queue has such a history, step by step |
| QueueHistory.RoomAndItem | tasks/condvar/semaphore/blocking_queue.hpp:24-41 | There is room whenever a Put appends and an item whenever a Take pops, without any condition being tested |
| Barrier.NobodyPassesAlone | tasks/condvar/barrier/cyclic_barrier.hpp:27-56 | Whoever has completed its k-th Arrive, everybody has entered its k-th; completed counts differ by at most one; counter_ is the number of threads that incremented and have not decremented |
| Barrier.FlagWaitsForItsWaiters | tasks/condvar/barrier/cyclic_barrier.hpp:34-56 | The open flag changes only when every waiter of the phase it ends has left it |
| Barrier.TwoNotificationsPerRound | tasks/condvar/barrier/readme.md:17 | Exactly two notify_all calls per completed round, one more while the barrier is open |
| Barrier.NobodyStaysBehind | tasks/condvar/barrier/cyclic_barrier.hpp:34-56 | Nobody is in a wait set whose predicate is true, and every unfinished state has a possible non-spurious step |
| Barrier.RunsEnd | tasks/condvar/barrier/cyclic_barrier.hpp:28-56 | The length of every run is bounded by the measure at its start plus twice its spurious wakeups |
| Barrier.EveryScheduleTakesAsLong | tasks/condvar/barrier/cyclic_barrier.hpp:28-56 | Without spurious wakeups n threads take exactly 4n - 2 critical sections for each round, under every schedule |
| Barrier.RunsTakeExactly | tasks/condvar/barrier/cyclic_barrier.hpp:28-56 | Without spurious wakeups every critical section, of whichever thread, uses up exactly one of the steps left |
| Rotation.VectorIsRotated | tasks/condvar/barrier/tests/stress.cpp:65-92 | For every number of threads and iterations and every schedule, when thread t has left its last Arrive, slot t holds (t + iterations) mod threads |
| Rotation.NoDataRace | tasks/condvar/barrier/tests/stress.cpp:75-90 | Two threads that may access the vector at once are in the same phase, and in a writing phase touch different slots |
| Rotation.TouchedInjective | tasks/condvar/barrier/tests/stress.cpp:82-88 | In any phase different threads touch different slots |
| Rotation.EverySlotIsWritten | tasks/condvar/barrier/tests/stress.cpp:82-88 | Every slot has its writer in every writing phase |
| CloseableQueue.AcceptedValuesComeOutInOrder | tasks/condvar/thread-pool/tp/blocking_queue.hpp:16-62 | Values of accepted Puts = values taken ++ dropped ++ queued, in order of effect; values are dropped only by Cancel, which leaves the queue closed and empty |
| CloseableQueue.NobodySleepsThrough | tasks/condvar/thread-pool/tp/blocking_queue.hpp:16-62 | A non-empty wait set implies not closed and queue length <= woken takers, one of whom gets a value with its next section if there is one |
| CloseableQueue.TakeSleepsExactlyWhenOpenAndEmpty | tasks/condvar/thread-pool/tp/blocking_queue.hpp:28-42 | A Take that is awake sleeps exactly if the queue is open and empty; otherwise it takes effect at once |
| CloseableQueue.PutWakesNoMore | tasks/condvar/thread-pool/tp/blocking_queue.hpp:16-26 | Over runs without closing: takers are woken one at most by each Put and each spurious wakeup |
| CloseableQueue.Linearizable | tasks/condvar/thread-pool/tp/blocking_queue.hpp:16-62 | For calls that overlap, sleep and re-test: their effects, in order, are a history of a sequential FIFO with a closed flag that holds the same items; every call takes effect at most once after its beginning, every returned call exactly once before its return and with its result; a sleeping Take has no effect |
| CloseableQueue.PutFailsExactlyAfterClosing | tasks/condvar/thread-pool/tp/blocking_queue.hpp:16-42 | A returned Put was refused iff some Close or Cancel took effect before it did; a returned Take is nullopt only then |
| Calls.RealTime | tasks/condvar/thread-pool/tp/blocking_queue.hpp:16-62 | The order of effects respects real time: a call that returned before another began took effect before it |
| ThreadPool.JoinIsComplete | tasks/condvar/thread-pool/tp/static_thread_pool.cpp:28-64 | If Join returned, no outside Submit began after it saw zero, and that zero was not a wrap, then the tasks that ran are, as a multiset, all tasks submitted with all they submit; none was rejected; the counter is 0; all workers exited |
| ThreadPool.NoTaskVanishes | tasks/condvar/thread-pool/tp/static_thread_pool.cpp:28-64 | In any run that ends with the workers joined: submitted = ran + rejected + thrown away + still inside a Submit, task by task, descendants included |
| ThreadPool.ZeroIsFalseOnlyOnWrap | tasks/condvar/thread-pool/tp/static_thread_pool.cpp:34 | Join sees zero wrongly iff a positive multiple of 2^32 tasks is outstanding |
| ThreadPool.JoinIsStuckExactlyWhenParkedAtRest | tasks/condvar/thread-pool/tp/static_thread_pool.cpp:33-41 | What the hung state is: while Join runs, nothing can move iff it is parked and everything else is at rest, and then all work is done |
| JoinHang.JoinMayHangExactlyWhenWorkIsOutstanding | tasks/condvar/thread-pool/tp/static_thread_pool.cpp:33-41 | When a call hangs: some schedule without new outside calls puts Join to sleep for good if and only if the number of outstanding tasks is positive when it begins |
| JoinHang.JoinReturnsWhenNothingIsOutstanding | tasks/condvar/thread-pool/tp/static_thread_pool.cpp:33-41 | Otherwise it returns: the steps of every schedule are bounded, and before Join has returned there is always one |
| JoinHang.NotifiedJoinReturns | tasks/condvar/thread-pool/tp/static_thread_pool.cpp:33-62 | A Join parked at zero with a worker about to notify has returned at the end of every schedule |
| JoinHang.SleepIsForGoodExactlyWithoutNotifier | tasks/condvar/thread-pool/tp/static_thread_pool.cpp:33-62 | A Join parked at zero may sleep for good if and only if no worker is about to notify |
| JoinHang.ForsakenJoinSleeps | tasks/condvar/thread-pool/tp/static_thread_pool.cpp:33-41 | Parked at zero without a notifier, Join stays asleep under every schedule, and within as many steps as there are workers nothing moves |
| JoinHang.JoinMayReturn | tasks/condvar/thread-pool/tp/static_thread_pool.cpp:33-41 | From the beginning of every Join there is also a schedule, without new outside calls, on which it returns |
| JoinHang.RunToRest | tasks/condvar/thread-pool/tp/static_thread_pool.cpp:51-64 | From every state before the sleep, the pool has a schedule of its own steps to rest |
| ThreadPool.JoinCanHang | tasks/condvar/thread-pool/tp/static_thread_pool.cpp:34-36 | A reachable state in which Join is parked and nothing can wake it |
| ThreadPool.NothingAtZero | tasks/condvar/thread-pool/tp/static_thread_pool.cpp:28-64 | Unbounded counter 0 means nothing mid-submit, queued, executing, rejected or dropped |
| ThreadPool.NotifiesExactlyAtZero | tasks/condvar/thread-pool/tp/static_thread_pool.cpp:60-62 | A worker notifies exactly if its decrement leaves a multiple of 2^32 tasks |
| ThreadPool.JoinParksExactlyAtZero | tasks/condvar/thread-pool/tp/static_thread_pool.cpp:34-36 | At the kernel's comparison Join parks exactly if the outstanding work is a multiple of 2^32; with work left it goes round its loop and never sleeps |
| ThreadPool.JoinClosesExactlyAtZero | tasks/condvar/thread-pool/tp/static_thread_pool.cpp:34-37 | Join leaves its loop exactly if the counter it loads is a multiple of 2^32 |
| ThreadPool.ChildrenInOrder | tasks/condvar/thread-pool/tp/static_thread_pool.cpp:28-31 | A task submits its children in their order, each once: those still to come are always the last of its list |
| ThreadPool.ShutdownStopsThePool | tasks/condvar/thread-pool/tp/static_thread_pool.cpp:43-47 | Once Shutdown has begun nothing is queued and every worker that takes exits; all have exited before the counter is reset |
| ThreadPool.ShutdownLeavesZero | tasks/condvar/thread-pool/tp/static_thread_pool.cpp:43-49 | After Shutdown the workers have exited and the counter is the number of outside Submits begun since, modulo 2^32: zero if there were none |
| Coroutine.PointersAreACallStack | tasks/coroutine/mtf/coroutine/impl.cpp:4-43 | For every program over any number of threads and coroutines, the machine of current, saved contexts and exception slots can perform it iff a plain call stack can, follows no bad pointer, and shows its client the same events |
| Coroutine.ResumeReturnsToItsCaller | tasks/coroutine/mtf/coroutine/impl.cpp:15-23 | Whatever runs in between, back at the height of the call the same code runs on the thread with the same current |
| Coroutine.LeavingEndsTheInnermostCall | tasks/coroutine/mtf/coroutine/impl.cpp:25-43 | Suspend and completion stop exactly the innermost coroutine of the thread; an uncaught exception, and only that, surfaces at the matching Resume; completed iff the routine ended |
| Coroutine.RunSimulates | tasks/coroutine/mtf/coroutine/impl.cpp:15-43 | The simulation holds along every run, in both directions |
| Fibers.EveryFiberHasOneToken | tasks/coroutine/mtf/fibers/fiber.cpp:24-49 | In every reachable state a live fiber has exactly one of: a queued dispatch, a running dispatch, a continuation of a task about to end, a creator about to schedule it; a destroyed one has none; a deferred continuation is of a live fiber, the only one of its thread, which is running that fiber or has just done so; no step ever touched a destroyed fiber |
| Fibers.NobodySharesAFiber | tasks/coroutine/mtf/fibers/fiber.cpp:30-44 | A fiber being run by one worker is run by no other, is not queued and is no other worker's continuation |
| Fibers.CurrentFiberIsRight | tasks/coroutine/mtf/fibers/fiber.cpp:30-33 | In a fiber's code current_fiber is that fiber, between tasks it is null |
| Fibers.NotQuietMeansProgress | tasks/coroutine/mtf/fibers/fiber.cpp:30-63 | With a worker, every state with a queued, running or half-spawned fiber has a possible step |
| Fibers.QuietMeansAllDestroyed | tasks/coroutine/mtf/fibers/fiber.cpp:30-49 | With no queued or running dispatch every fiber has been destroyed |
| Fibers.QuietMeansAllDone | tasks/coroutine/mtf/fibers/fiber.cpp:30-63 | Then the leaves counted are those of the routines spawned from outside, and every stack ever allocated is in a pool |
| Fibers.EveryScheduleTakesAsLong | tasks/coroutine/mtf/fibers/fiber.cpp:24-63 | Without further spawning from outside, every schedule of every program lowers the measure by one per step: all schedules have the same total length |
| Fibers.StacksAreNotShared | tasks/coroutine/mtf/fibers/stacks.cpp:16-50 | No two live fibers share a stack, and no live fiber's stack is in any pool |
| Fibers.StacksAreConserved | tasks/coroutine/mtf/fibers/stacks.cpp:18-50 | Stacks ever allocated = live fibers + stacks in all pools |
| Fibers.MapsOnlyWhenPoolIsEmpty | tasks/coroutine/mtf/fibers/stacks.cpp:18-29 | A stack is mapped exactly for a new fiber of a thread whose pool is empty |
| Fibers.LastStackIsReused | tasks/coroutine/mtf/fibers/stacks.cpp:18-34 | The stack of the last fiber destroyed on a thread is the stack of the next fiber made there, whatever happens in between, and making it maps nothing |
| Fibers.RoutinesRunInOrder | tasks/coroutine/mtf/fibers/fiber.cpp:30-44 | Over any run, the operations a fiber is seen to perform, followed by those it has left, are those it had left before |
| Fibers.GetUndoesRelease | tasks/coroutine/mtf/fibers/stacks.cpp:18-34 | Get undoes Release, and nothing else that a Release could have done |
| Forks.ForkerHasFibLeaves | tasks/coroutine/tests/fibers.cpp:140-148 | The program MakeForker(d) has Fib(d) leaves, d >= 1 |
| Forks.ExplodeCountsFib | tasks/coroutine/tests/fibers.cpp:133-148 | For every d >= 1, pool and schedule, a fork run at rest has counted Fib(d) |
| Forks.ExplodeTwenty | tasks/coroutine/tests/fibers.cpp:160 | For d = 20 that is 6765 |
| Forks.ExplodeEnds | tasks/coroutine/tests/fibers.cpp:133-148 | Every schedule comes to rest within the measure, and until then some step is possible |
| TicketLock.MutualExclusion | tasks/mutex/try-lock/ticket_lock.hpp:15-37 | At most one thread is in the critical section, for up to 2^64 threads with wrapping tickets |
| TicketLock.OutstandingTickets | tasks/mutex/try-lock/ticket_lock.hpp:15-37 | Outstanding tickets are exactly the residues from owner up to next, one per thread, in order of arrival |
| TicketLock.EntersAfterItsTurn | tasks/mutex/try-lock/ticket_lock.hpp:15-22 | A waiter's test succeeds, and it is inside, exactly after (ticket - owner) mod 2^64 unlocks |
| TicketLock.UncontendedLockAndUnlock | tasks/mutex/try-lock/ticket_lock.hpp:15-37 | With no ticket outstanding, Lock and Unlock take three steps and move both counters on by one and nothing else |
| TicketLock.TryLockFailsOnlyWhenBusy | tasks/mutex/try-lock/ticket_lock.hpp:24-28 | TryLock returns false only if some ticket was outstanding between its two loads, whichever comes first |
| TicketLock.TryLockAnswers | tasks/mutex/try-lock/ticket_lock.hpp:24-28 | The exact answer, for either order of the loads and any steps in between, in terms of the tickets outstanding and the unlocks or tickets since, modulo 2^64 |
| TicketLock.TryLockFailsWhenTaken | tasks/mutex/try-lock/ticket_lock.hpp:24-28 | TryLock returns false whenever a ticket is outstanding at its first load and nobody unlocks up to the second |
| TicketLock.TryLockSeesFree | tasks/mutex/try-lock/ticket_lock.hpp:24-31 | TryLock goes on to lock whenever no ticket is outstanding at its first load and none is taken up to the second |
| TicketLock.TryLockEntersAfterUnlocks | tasks/mutex/try-lock/ticket_lock.hpp:24-31 | After a successful comparison and the fetch_add, under every schedule: a test of the loop succeeds iff as many unlocks have happened since the fetch_add as tickets were outstanding at it |
| TicketLock.TryLockWaitsExactlyWhenOvertaken | tasks/mutex/try-lock/ticket_lock.hpp:24-31 | Every schedule lets the first test succeed if and only if no ticket is outstanding at the fetch_add |
| TicketLock.TryLockCanWait | tasks/mutex/try-lock/readme.md:7-14 | A reachable state in which TryLock has seen the lock free and another thread has taken a ticket since |
| Dining.NoWaitCycle | tasks/intro/dining/philosopher.cpp:22-30 | For every n >= 2 no reachable state has a cycle of philosophers each waiting for the next |
| Dining.NoDeadlock | tasks/intro/dining/philosopher.cpp:14-43 | While somebody is past thinking, somebody past thinking can step |
| Dining.ForksAreTakenUpwards | tasks/intro/dining/table.hpp:26-36 | Every seat takes its first fork before its second in the rank 0 < n-1 < n-2 < ... < 1 |
| Dining.PlatesAreExclusive | tasks/intro/dining/philosopher.cpp:32-37 | No two philosophers are ever about to access the same plate |
| Dining.MealsComeToAnEnd | tasks/intro/dining/philosopher.cpp:14-43 | Every step but the start of a meal lowers the number of steps left, which is zero iff all think |
| Dining.ForksInHand | tasks/intro/dining/philosopher.cpp:22-43 | In every reachable state each philosopher holds exactly the forks of its place: none, the first, both, or the left one |
| Dining.MealsAreCounted | tasks/intro/dining/philosopher.cpp:32-37 | Over any run, the meals counted for a philosopher are the times it picked up its first fork, less a meal not yet past the second plate |
| Dining.MealAlone | tasks/intro/dining/philosopher.cpp:14-43 | A meal with all others thinking takes six steps and changes nothing but the count of meals |
| FutexMutex.InvStep | tasks/mutex/mutex/mutex.hpp:11-37 | Every atomic step keeps exclusivity, the no-lost-wakeup condition and the kernel lock |
| CondVar.SleepersStep | tasks/condvar/condvar/condvar.hpp:14-24 | No step but a wrapped check adds to the sleepers with an old sample, and every NotifyOne wake removes one while there are any |
| CondVar.BasicStep | tasks/condvar/condvar/condvar.hpp:14-29 | Every step keeps the word equal to the unbounded count mod 2^32, the samples consistent with it, the kernel queue equal to the parked threads |
| CondVar.InFrontStep | tasks/condvar/condvar/condvar.hpp:14-24 | Every step but a wrapped check keeps the sleepers with an old sample at the front of the kernel queue |
| WaitSet.JointStep | tasks/condvar/condvar/condvar.hpp:14-29 | Every step keeps, for the notified threads still asleep: they come first in the kernel queue and at least as many wakes are under way |
| MutexAndCondVar.InvStep | tasks/condvar/condvar/condvar.hpp:13-29 | Every step of either keeps owner and holder the same and the two places of every thread compatible |
| Semaphores.InvStep | tasks/condvar/semaphore/semaphore.hpp:26-40 | Every call, section, return and spurious wakeup keeps the history legal and: waiters imply permits <= woken threads |
| BoundedQueue.InvStep | tasks/condvar/semaphore/blocking_queue.hpp:24-47 | Every critical section keeps the accounts, the order of values, the membership of the three wait sets and that no permit is stranded |
| Barrier.StepsGetSomewhere | tasks/condvar/barrier/cyclic_barrier.hpp:28-56 | Every non-spurious step lowers a natural-number measure |
| Barrier.InvStep | tasks/condvar/barrier/cyclic_barrier.hpp:34-56 | Every critical section keeps the phase invariant |
| Rotation.RoundStep | tasks/condvar/barrier/tests/stress.cpp:80-90 | When all have done their access of a phase, the vector and the values in hand are what the next phase starts from |
| JoinHang.PoolStepWorks | tasks/condvar/thread-pool/tp/static_thread_pool.cpp:28-64 | Every step of a worker or a submitting client lowers a natural-number measure of the work left, with everything tasks will submit |
| ThreadPool.LedgerStep | tasks/condvar/thread-pool/tp/static_thread_pool.cpp:28-64 | Every step conserves every task of every submitted tree |
| ThreadPool.CounterStep | tasks/condvar/thread-pool/tp/static_thread_pool.cpp:28-64 | Every step keeps counter = mid-submit + queued + executing + rejected + dropped (mod 2^32 in the word) |
| Coroutine.StepSimulates | tasks/coroutine/mtf/coroutine/impl.cpp:15-43 | Every call-stack step is matched by the pointer machine |
| Coroutine.OnlyCalls | tasks/coroutine/mtf/coroutine/impl.cpp:15-43 | The pointer machine has no step beyond those of the call stack |
| Coroutine.ResumeEffect | tasks/coroutine/mtf/coroutine/impl.cpp:15-18 | What Resume saves and switches |
| Coroutine.LeaveEffect | tasks/coroutine/mtf/coroutine/impl.cpp:18-43 | What Suspend and the end of a routine restore |
| Fibers.TokenStep | tasks/coroutine/mtf/fibers/fiber.cpp:24-49 | Every step keeps one token per live fiber |
| TicketLock.InvStep | tasks/mutex/try-lock/ticket_lock.hpp:15-37 | Every atomic step keeps the ticket queue invariant |
| Dining.InvStep | tasks/intro/dining/philosopher.cpp:22-43 | Every step keeps forks and holders in agreement |
| FutexMutex.Mutex.constructor | tasks/mutex/mutex/mutex.hpp:40 | A new mutex is the initial state |
| FutexMutex.Mutex.CompareExchange | tasks/mutex/mutex/mutex.hpp:12-20 | The first operation of Lock is the step Cas and returns the word it saw |
| FutexMutex.Mutex.ExchangeTwo | tasks/mutex/mutex/mutex.hpp:21-28 | exchange(2) is the step Exchange: the thread enters if the old word was 0 |
| FutexMutex.Mutex.LoadInWait | tasks/mutex/mutex/readme.md:40-47 | The load of wait(2): again iff the word is 2 |
| FutexMutex.Mutex.FutexWaitCheck | tasks/mutex/mutex/readme.md:27-31 | The kernel's comparison under its lock: parks iff the word is 2 |
| FutexMutex.Mutex.FetchSubOne | tasks/mutex/mutex/mutex.hpp:33 | The first write of Unlock; the slow path follows iff the old word was not 1 |
| FutexMutex.Mutex.StoreFree | tasks/mutex/mutex/mutex.hpp:34 | store(0) is the step StoreZero |
| FutexMutex.Mutex.Notify | tasks/mutex/mutex/mutex.hpp:35 | notify_one wakes a parked thread if there is one |
| CondVar.CondVar.WaitSample | tasks/condvar/condvar/condvar.hpp:15 | The sample is the word |
| CondVar.CondVar.WaitUnlock | tasks/condvar/condvar/condvar.hpp:16 | The unlock comes after the sample and before the futex check |
| CondVar.CondVar.WaitCompare | tasks/condvar/condvar/condvar.hpp:17 | FutexWait compares under the kernel lock and parks iff the word equals the sample |
| CondVar.CondVar.WaitRelock | tasks/condvar/condvar/condvar.hpp:18 | Wait returns holding the mutex |
| CondVar.CondVar.NotifyOneAdd | tasks/condvar/condvar/condvar.hpp:22 | The increment wraps at 2^32 |
| CondVar.CondVar.NotifyAllAdd | tasks/condvar/condvar/condvar.hpp:27 | The increment wraps at 2^32 |
| CondVar.CondVar.NotifyOneWake | tasks/condvar/condvar/condvar.hpp:23 | Wakes the longest sleeper, if any |
| CondVar.CondVar.NotifyAllWake | tasks/condvar/condvar/condvar.hpp:28 | Wakes every sleeper |
| Semaphores.Semaphore.TryAcquire | tasks/condvar/semaphore/semaphore.hpp:26-32 | One critical section of Acquire: takes a permit, or waits exactly when there is none |
| Semaphores.Semaphore.ReleaseOne | tasks/condvar/semaphore/semaphore.hpp:35-40 | Adds a permit modulo 2^64 and notifies one waiter unless the counter wrapped to 0 |
| BoundedQueue.BlockingQueue.constructor | tasks/condvar/semaphore/blocking_queue.hpp:14-20 | mutex 1, items 0, slots capacity |
| BoundedQueue.BlockingQueue.PutAcquireSlot | tasks/condvar/semaphore/blocking_queue.hpp:25 | Is the step PutSlot of the protocol |
| BoundedQueue.BlockingQueue.PutAcquireMutex | tasks/condvar/semaphore/blocking_queue.hpp:27 | Is the step PutLock |
| BoundedQueue.BlockingQueue.PutAppend | tasks/condvar/semaphore/blocking_queue.hpp:28 | Appends the value at the back |
| BoundedQueue.BlockingQueue.PutReleaseMutex | tasks/condvar/semaphore/blocking_queue.hpp:29 | Is the step PutUnlock |
| BoundedQueue.BlockingQueue.PutSignalItem | tasks/condvar/semaphore/blocking_queue.hpp:31 | Is the step PutSignal |
| BoundedQueue.BlockingQueue.TakeAcquireItem | tasks/condvar/semaphore/blocking_queue.hpp:37 | Is the step TakeItem |
| BoundedQueue.BlockingQueue.TakeAcquireMutex | tasks/condvar/semaphore/blocking_queue.hpp:39 | Is the step TakeLock |
| BoundedQueue.BlockingQueue.TakeFront | tasks/condvar/semaphore/blocking_queue.hpp:40-41 | In any reachable state the buffer is the result followed by what remains |
| BoundedQueue.BlockingQueue.TakeReleaseMutex | tasks/condvar/semaphore/blocking_queue.hpp:42 | Is the step TakeUnlock |
| BoundedQueue.BlockingQueue.TakeReturnSlot | tasks/condvar/semaphore/blocking_queue.hpp:44-46 | Gives the slot back and returns the value taken |
| Barrier.CyclicBarrier.constructor | tasks/condvar/barrier/cyclic_barrier.hpp:22-25 | A new barrier is the initial state |
| Barrier.CyclicBarrier.DerivedPhase | tasks/condvar/barrier/cyclic_barrier.hpp:34-44 | First critical section of the entering phase; passed iff last |
| Barrier.CyclicBarrier.DerivedRetest | tasks/condvar/barrier/cyclic_barrier.hpp:40-42 | A woken thread re-tests the open flag |
| Barrier.CyclicBarrier.DepartedPhase | tasks/condvar/barrier/cyclic_barrier.hpp:46-56 | First critical section of the leaving phase; passed iff last |
| Barrier.CyclicBarrier.DepartedRetest | tasks/condvar/barrier/cyclic_barrier.hpp:52-54 | A woken thread re-tests the closed flag |
| CloseableQueue.UnboundedBlockingQueue.constructor | tasks/condvar/thread-pool/tp/blocking_queue.hpp:65-68 | New queues are open and empty |
| CloseableQueue.UnboundedBlockingQueue.TryPut | tasks/condvar/thread-pool/tp/blocking_queue.hpp:16-26 | Put as one critical section; true iff not closed |
| CloseableQueue.UnboundedBlockingQueue.TryTake | tasks/condvar/thread-pool/tp/blocking_queue.hpp:28-42 | One pass of Take: value, nothing, or asleep, as the specification says |
| CloseableQueue.UnboundedBlockingQueue.CloseImpl | tasks/condvar/thread-pool/tp/blocking_queue.hpp:44-62 | Closes, clears on demand, wakes everybody |
| ThreadPool.StaticThreadPool.SubmitPlan | tasks/condvar/thread-pool/tp/static_thread_pool.cpp:29 | The increment of an outside Submit |
| ThreadPool.StaticThreadPool.SubmitEnqueue | tasks/condvar/thread-pool/tp/static_thread_pool.cpp:30 | The Put of an outside Submit, whose refusal goes unnoticed |
| ThreadPool.StaticThreadPool.ChildPlan | tasks/condvar/thread-pool/tp/static_thread_pool.cpp:29 | The increment of a Submit made by a running task |
| ThreadPool.StaticThreadPool.ChildEnqueue | tasks/condvar/thread-pool/tp/static_thread_pool.cpp:30 | The Put of a Submit made by a running task |
| ThreadPool.StaticThreadPool.WorkTake | tasks/condvar/thread-pool/tp/static_thread_pool.cpp:54-59 | One pass of Take by a worker: a task to execute, sleep, or exit |
| ThreadPool.StaticThreadPool.WorkDone | tasks/condvar/thread-pool/tp/static_thread_pool.cpp:60-61 | The decrement, which notifies iff it reaches 0 |
| ThreadPool.StaticThreadPool.JoinTest | tasks/condvar/thread-pool/tp/static_thread_pool.cpp:34 | The loop condition of Join |
| ThreadPool.StaticThreadPool.JoinFutexWait | tasks/condvar/thread-pool/tp/static_thread_pool.cpp:35 | The futex check parks exactly when the counter is 0 |
| ThreadPool.StaticThreadPool.JoinCloseQueue | tasks/condvar/thread-pool/tp/static_thread_pool.cpp:37 | Closes the queue and keeps its tasks |
| ThreadPool.StaticThreadPool.ShutdownCancel | tasks/condvar/thread-pool/tp/static_thread_pool.cpp:44 | Closes the queue and drops its tasks |
| ThreadPool.StaticThreadPool.ShutdownReset | tasks/condvar/thread-pool/tp/static_thread_pool.cpp:48 | Resets the counter after the workers have been joined |
| Coroutine.Runtime.constructor | tasks/coroutine/mtf/coroutine/impl.cpp:6-13 | New coroutines and threads are in step with empty call stacks |
| Coroutine.Runtime.Resume | tasks/coroutine/mtf/coroutine/impl.cpp:15-18 | Resume up to the switch pushes a call |
| Coroutine.Runtime.EndResume | tasks/coroutine/mtf/coroutine/impl.cpp:18-23 | The rest of Resume restores current and rethrows what the coroutine left |
| Coroutine.Runtime.Suspend | tasks/coroutine/mtf/coroutine/impl.cpp:25-27 | Pops a call without exception |
| Coroutine.Runtime.Trampoline | tasks/coroutine/mtf/coroutine/impl.cpp:33-43 | Pops a call, and the Resume below throws exactly what the routine threw |
| Fibers.Runtime.AcquireStack | tasks/coroutine/mtf/fibers/stacks.cpp:18-29 | The stack on top of this thread's pool, or a new one |
| Fibers.Runtime.ReleaseStack | tasks/coroutine/mtf/fibers/stacks.cpp:31-34 | The next Get of this thread returns this very stack and leaves everything as it was before the Release: no other pool, no fiber, no count changes |
| Fibers.Runtime.NewFiberOn | tasks/coroutine/mtf/fibers/fiber.cpp:18-22 | A fiber with its own stack |
| Fibers.Runtime.SpawnFromOutside | tasks/coroutine/mtf/fibers/fiber.cpp:59-60 | Spawn from a thread outside the pool, up to Schedule |
| Fibers.Runtime.ScheduleFromOutside | tasks/coroutine/mtf/fibers/fiber.cpp:62 | Schedule from a thread outside the pool |
| Fibers.Runtime.DispatchBegin | tasks/coroutine/mtf/fibers/fiber.cpp:30-32 | A worker starts a queued dispatch and sets current_fiber |
| Fibers.Runtime.RoutineStep | tasks/coroutine/mtf/fibers/fiber.cpp:39-44 | The next operation of the routine: Yield defers the current fiber's dispatch, Spawn makes a fiber, the end completes the coroutine |
| Fibers.Runtime.ScheduleChild | tasks/coroutine/mtf/fibers/fiber.cpp:24-28 | Schedule of a spawned fiber |
| Fibers.Runtime.DispatchEnd | tasks/coroutine/mtf/fibers/fiber.cpp:33-37 | current_fiber is restored and a completed fiber destroyed |
| Fibers.Runtime.TaskEnd | tasks/coroutine/readme.md:109-113 | Continuations become runnable when the submitting task ends |
| TicketLock.TicketLock.constructor | tasks/mutex/try-lock/ticket_lock.hpp:40-41 | Both counters start at 0 |
| TicketLock.TicketLock.LockTakeTicket | tasks/mutex/try-lock/ticket_lock.hpp:16 | Takes the next ticket, modulo 2^64 |
| TicketLock.TicketLock.LockTest | tasks/mutex/try-lock/ticket_lock.hpp:19 | One test of the spin loop |
| TicketLock.TicketLock.TryLockLoadNext | tasks/mutex/try-lock/ticket_lock.hpp:25 | One of the two loads of TryLock |
| TicketLock.TicketLock.TryLockCompare | tasks/mutex/try-lock/ticket_lock.hpp:25-28 | The other load and the comparison |
| TicketLock.TicketLock.UnlockNext | tasks/mutex/try-lock/ticket_lock.hpp:34-37 | Serves the next ticket, modulo 2^64 |
| Dining.Table.constructor | tasks/intro/dining/table.hpp:22-24 | All forks free, all thinking |
| Dining.Table.AcquireFirst | tasks/intro/dining/philosopher.cpp:22-30 | Seat 0 locks its left fork, every other seat its right one |
| Dining.Table.AcquireSecond | tasks/intro/dining/philosopher.cpp:22-30 | Then the other one |
| Dining.Table.EatFromRight | tasks/intro/dining/philosopher.cpp:35-36 | The second plate, and the meal is counted |
| Dining.Table.ReleaseRight | tasks/intro/dining/philosopher.cpp:41 | Unlocks the right fork |
| Dining.Table.ReleaseLeft | tasks/intro/dining/philosopher.cpp:42 | Unlocks the left fork |

## Left out

- JoinIsComplete: does not promise that `Join` returns, because it need not (`JoinCanHang`); outside submissions that begin after `Join` saw zero are excluded, because their increment may precede a refused `Put`.
- EntersAfterItsTurn: counts unlocks, not tests; that a spinning thread is ever scheduled is not claimed.
- RunsEnd: bounds runs with finitely many spurious wakeups; nothing bounds how many of those the system may cause.
- NotifyOneWakesEnough: assumes the first-in first-out kernel queue, and that no check of a thread that had sampled by the first increment meets a wrapped counter: such a thread would queue behind younger ones and a later wake would go to them.
- NobodyIsLost: assumes that no futex check of the run meets a wrapped counter; one that does can use up a wake that another thread was notified for.
- OutstandingTickets: for at most 2^64 threads, since with more the 64-bit tickets cannot be distinct.
- ExplodeCountsFib: d = 0 is outside it, where the program counts one leaf and Fib(0) is 0.
- The waiting loops of the source (`Lock`, `Acquire`, `Arrive`, `Take`, `Join`, the spin loop) are not methods with a loop: their iterations are interleaved with other threads and need not end, so each method is one atomic operation or critical section and the thread's place in its loop is part of the state.
- Fairness and starvation: which thread runs, which waiter a notification picks and which queued dispatch a worker takes are all open.
- Hardware memory models and the assembly under tasks/mm/atomic and tasks/mutex/spinlock: sequential consistency is assumed.
- In the modules over mutex and condition variable a critical section is one step. `MutexAndCondVar` proves that the repository's mutex and condition variable are a monitor with exclusive sections; that a section, being exclusive, may be taken as one step is the usual reading of a monitor and not proved.
- Element types: the values of the two queues are integers (the closeable queue's object is generic), moves and destructors are not modelled.
- The pool: worker threads are present from the start, joining them is one step that needs all to have exited, and one thread calls `Join` or `Shutdown`; `Current`, the destructor's assertion and tasks that throw are left out.
- Coroutines: context switching, stack memory and `AfterStart`; a resumed completed or active coroutine, which the source leaves undefined.
- Fibers: routines are finite lists of yields, spawns and leaf increments; routines that throw, nested coroutines that call the fiber `Yield`, several pools, the destruction of thread-local stack pools, and the spinlock inside `StackPool` (its operations are one step each).
- The scheduler under the fibers is asio; only its contract is used (a submitted task runs once, a continuation becomes runnable when its submitting task has ended).
- Dining: the first plate access changes nothing in the model's state beyond the philosopher's place, so it has a step but no method; what an access does to a plate is not modelled.
- Stubs (channels, select, fiber mutex and condition variable), the unfinished copy under tasks/fibers/coroutine, and small members that would add easy contracts only: `Mutexed`, the spinlocks, `TaggedSemaphore`, `CountingTasks`, `WaitQueue`, `DeepThought`, the leader test of the barrier.
