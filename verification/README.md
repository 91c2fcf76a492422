# LibUThread: a Dafny model

This project models two parts of LibUThread, a userspace threading library, and proves what they
are for.

**The CFS run queue.** `src/sched_cfs.c` keeps runnable threads in a red-black tree with parent
links, rewired in place. `CfsRunQueue.CfsState` is that tree on the heap: the same rotations, both
fixups with their explicit parent of a NULL child, the cached leftmost thread and the counter. It
is proved that every insertion and removal restores the red-black rules and all links, and that
the queue behaves as a stable sorted sequence (`CfsSpec`) over any run of operations. `RbTrees`
holds trees and one-hole contexts as values and relates them to links, `RbBalance` the steps of
the fixups on such values, `RbPaths` the textbook definition by root-to-leaf paths, and `Vruntime`
the arithmetic.

**The blocking protocol.** `Scheduling`, `Sync`, `Mutexes`, `Semaphores` and `RwLocks` describe one
step of the running thread, from one `scheduler_schedule` to the next, as a function on the state
of the whole library. `Runs` puts them together: a run is any sequence of such steps by any number
of threads, over any number of mutexes, condition variables, semaphores and read-write locks, with
any choice by the run queue. `Guarantees`, `Waking` and `Joining` prove what holds in every run.
Waking does not hand anything over: a woken thread checks its condition again and may be
overtaken, so the invariants count the woken threads that have not yet come back. `Accounts`,
`MutexAccounts` and `RwAccounts` say what every event does to the value of a semaphore and to the
holders of a mutex and a read-write lock, and balance them over runs by counting events; `Wakeups`
says whom every event puts to sleep and whom it wakes; `Fairness` how often a waiter can be overtaken.
`Library` and
`Primitives` are the same operations as code that updates fields in place, proved to do exactly
what the step functions do. `Policies` says what the three run queues pick. `Witnesses` and
`Scenarios` hold concrete reachable states and runs: what happens outside the discipline below, and
inputs that the results about runs apply to.

**The lists.** `WaitQueues`, `RoundRobin` and `PriorityQueues` are the intrusive doubly linked
lists on the heap, proved to behave as sequences. `HeapQueues` puts the run queue and all wait queues
together, sharing the links of the threads. `HeapScheduling` says when these lists stand for a scheduler
state, and each of its methods carries out one operation on the heap and keeps that. `HeapRuns` shows
that every step of a run under round robin is one of these operations, and follows a whole run on the
heap: at its end the lists stand for the state reached, so that "one place per thread" holds of the
links (`HeapScheduling.PlacesOnHeap`). `ThreadTable` is the table of all threads.
`Basics`, `Threads` and `Links` hold what the others share.

## Discipline

A run is *legal* when a thread inside a blocked call only goes on with that call, and a thread in
user code makes calls that keep to these rules. For the first five the exact extent is proved: the
step keeps the invariant if and only if the rule holds. For each of them a reachable state outside
the rule is shown.

- Unlock: the caller owns the mutex, or the mutex is ERRORCHECK, or it is free
  (`Mutexes.UnlockInvIff`, `Witnesses.StrayUnlockReachable`). The code releases NORMAL and RECURSIVE
  mutexes for anyone.
- `cond_wait`: the caller owns the mutex, or it is free (`Mutexes.CondWaitInvIff`,
  `Witnesses.StrayWaitReachable`). The code does not check.
- `rwlock_unlock` on the reader's branch: the caller holds the lock for reading
  (`RwLocks.RwUnlockInvIff`, `Witnesses.StrayReadUnlockReachable`).
- A yield or preempting tick: the run queue does not pick the caller again
  (`Scheduling.YieldLiveIff`). What that means is resolved for each policy from what the queue holds:
  some thread is ready (`Policies.YieldRoundRobin`), some level from the caller's up holds a thread
  (`Policies.YieldPriorities`), the first thread's vruntime is at most the caller's
  (`Policies.YieldCfs`). A tick that preempts keeps to the rule by itself under round robin and, for
  a priority in range, under priorities (`Policies.TickRoundRobin`, `Policies.TickPriorities`); under
  CFS it does so if and only if the first thread's vruntime is at most min_vruntime
  (`Policies.TickCfsIff`). The code returns from such a yield with the state READY, and the next yield
  drops the thread (`Scheduling.YieldTwiceDrops`, `Witnesses.LoneYieldReachable`).
- `sem_post`: the value is below the largest int (`Semaphores.PostInvIff`,
  `Witnesses.OverflowReachable`).
- Threads are joinable, ticks happen in user code only, objects come from the init functions.

Further departures of the code from its intent are proved as such:

- `cond_wait` forgets the recursion count: it returns with a count of 1, so it restores the count if
  and only if the mutex had been locked once (`Waking.WaitRestoresDepthIff`); a mutex locked twice is
  free after the wait and one unlock (`Scenarios.WaitForgetsDepth`).
- The search of `cfs_remove` misses a queued thread if and only if a node above it, having it in its
  left subtree, carries the same vruntime (`CfsRunQueue.ReachesExactly`,
  `CfsRunQueue.ThreeEqualMissed`).
- A queued thread whose vruntime `min_vruntime` has not reached can be bypassed without bound
  (`CfsSpec.UnboundedBypass`).
- `cfs_should_preempt` subtracts in unsigned arithmetic: it answers as meant if and only if the slice is
  used up, the queue is empty, the running thread is not behind the first one, or it is behind by
  almost 2^64 (`CfsPreemption.PreemptsAsMeantIff`). A thread at 5 with one at 6 waiting is preempted,
  and is then the next to run (`CfsPreemption.BehindIsPreempted`).
- Every tick charges the whole time since the thread was switched to, and so does a yield after it: the
  durations of `Vruntime` are what is charged, not time used. The sum is the time used if and only if
  there is at most one charge (`Vruntime.TicksOvercharge`); n evenly spaced ticks charge (n + 1) / 2
  times the time used (`Vruntime.EvenTicksCharge`).
- A thread that waits for a mutex can be overtaken without bound, under round robin too
  (`Fairness.MutexBypassed`, `Fairness.ContendedReachable`).
- The products of the CFS slice formula fit the code's int if and only if the weight is at most 107
  (`Vruntime.SliceFitsExactly`), and charging is exact if and only if no product and no sum wraps
  (`Vruntime.RangeExact`).

## Model

| member | source | states |
|---|---|---|
| `CfsRunQueue.CfsState.RotateLeft` | src/sched_cfs.c:26-47 | the heap holds the left rotation of the subtree in its context, all parent and child links mutual, nothing else changed |
| `CfsRunQueue.CfsState.RotateRight` | src/sched_cfs.c:49-70 | the same for the right rotation |
| `RbTrees.RotLPlug` | src/sched_cfs.c:26-47 | the six link writes of a left rotation turn the links of one tree into the links of the rotated tree, for every node |
| `RbTrees.RotRPlug` | src/sched_cfs.c:49-70 | the same for the right rotation |
| `RbBalance.RotOrder` | src/sched_cfs.c:26-70 | rotations keep the in-order sequence |
| `RbBalance.InsertStepOk` | src/sched_cfs.c:74-108 | each round of the insert fixup keeps "only the focus may clash with its parent", the order of the threads, and moves up or ends |
| `RbBalance.FreshLeaf` | src/sched_cfs.c:128-139 | a red leaf hung into a red-black tree satisfies the invariant the fixup starts from |
| `RbBalance.InsertDone` | src/sched_cfs.c:110-110 | when the loop ends, blackening the root gives a red-black tree |
| `CfsRunQueue.CfsState.InsertStepLeft` | src/sched_cfs.c:75-90 | one round on the left side computes that step on the heap; the grandparent exists |
| `CfsRunQueue.CfsState.InsertStepRight` | src/sched_cfs.c:91-107 | the same on the right side |
| `CfsRunQueue.CfsState.InsertFixup` | src/sched_cfs.c:72-111 | ends, never follows NULL, and leaves a red-black tree with the same in-order sequence; takes at most one round for every two levels |
| `CfsRunQueue.CfsState.FindSlot` | src/sched_cfs.c:115-126 | finds the place after all keys that are at most the new one and before all larger ones, in at most 2 log2(n + 1) steps |
| `CfsRunQueue.CfsState.Insert` | src/sched_cfs.c:113-149 | the queue becomes the old sequence with the thread inserted behind all keys at most its own; tree, links, leftmost and counter are valid again |
| `RbTrees.SplicePlug` | src/sched_cfs.c:151-164 | a transplant turns the links of the tree into those of the tree with the subtree replaced |
| `CfsRunQueue.CfsState.SpliceOut` | src/sched_cfs.c:248-255 | a node with at most one child is replaced by that child |
| `CfsRunQueue.CfsState.Minimum` | src/sched_cfs.c:166-172 | ends at the first thread in order of the subtree, in fewer steps than it is high |
| `RbBalance.RemoveStepOk` | src/sched_cfs.c:176-234 | each round of the remove fixup keeps "one black missing at the focus" and the order, and either moves up or ends with no black missing, although a red sibling first pushes the focus down |
| `RbBalance.BlackSiblingOk` | src/sched_cfs.c:178-184 | a node with one black missing has a sibling, and after the rotation about a red sibling a black one |
| `RbBalance.SettledOk` | src/sched_cfs.c:192-203 | the last rotations restore the missing black |
| `RbBalance.RemoveDone` | src/sched_cfs.c:236-236 | when the loop ends, blackening the focus gives a red-black tree |
| `RbBalance.OneChildOk` | src/sched_cfs.c:248-255 | cutting out a node with a missing child leaves at most one black missing at the stated place |
| `RbBalance.SuccessorOk` | src/sched_cfs.c:256-274 | so does replacing a node by its successor, which takes over its colour |
| `RbBalance.SuccessorOrder` | src/sched_cfs.c:256-274 | and it removes exactly that node from the order |
| `CfsRunQueue.CfsState.RemoveStepLeft` | src/sched_cfs.c:177-204 | one round on the left side on the heap; the sibling is never NULL |
| `CfsRunQueue.CfsState.RemoveStepRight` | src/sched_cfs.c:205-233 | the same on the right side |
| `CfsRunQueue.CfsState.RemoveStepEither` | src/sched_cfs.c:177-177 | the left/right test on a possibly NULL child is unambiguous |
| `CfsRunQueue.CfsState.RemoveFixup` | src/sched_cfs.c:174-237 | ends, never follows NULL, and leaves a red-black tree with the same in-order sequence; takes at most one round for every level |
| `CfsRunQueue.CfsState.UnlinkTwo` | src/sched_cfs.c:256-274 | the successor takes the place, children and colour of the removed node, whether or not it is its child |
| `CfsRunQueue.CfsState.RefreshLeftmost` | src/sched_cfs.c:276-280 | the cache is again the first thread in order |
| `CfsRunQueue.CfsState.Remove` | src/sched_cfs.c:239-292 | the queue becomes the old sequence without exactly that thread; tree, links, leftmost and counter are valid again |
| `RbPaths.RedBlackByPaths` | src/sched_cfs.c:72-292 | the invariant kept by all of the above is equivalent to: black root, no two reds in a row and equally many blacks on every root-to-leaf path |
| `RbPaths.LogarithmicHeight` | src/sched_cfs.c:72-292 | a tree with n threads has height at most 2 log2(n + 1) |
| `RbPaths.ShortWalk` | src/sched_cfs.c:119-126 | a walk no longer than the tree is high takes at most 2 log2(n + 1) steps |
| `RbPaths.InsertStepDepth` | src/sched_cfs.c:74-108 | a round of the insert fixup that is not the last moves up two levels |
| `RbPaths.RemoveStepDepth` | src/sched_cfs.c:176-234 | a round of the remove fixup that is not the last moves up one level, red sibling or not |
| `CfsRunQueue.CfsState.Enqueue` | src/sched_cfs.c:314-341 | raises the vruntime to min_vruntime, performs the enqueue of the sorted sequence, and sets the slice: the formula's value wherever its products fit an int, and never below the granularity |
| `CfsRunQueue.CfsState.Dequeue` | src/sched_cfs.c:343-350 | hands out the first thread of the sorted sequence, or NULL exactly when it is empty |
| `CfsRunQueue.CfsState.OnTick` | src/sched_cfs.c:391-411 | charges the running thread, raises min_vruntime to the larger of itself and that thread's vruntime, and uses up its slice; the queue is the same |
| `CfsRunQueue.CfsState.OnYield` | src/sched_cfs.c:378-389 | charges the running thread for the time since it started, if it has |
| `CfsRunQueue.CfsState.ShouldPreempt` | src/sched_cfs.c:413-433 | the answer of the code, with the difference taken in unsigned 64-bit arithmetic |
| `CfsPreemption.PreemptsAsMeantIff` | src/sched_cfs.c:413-433 | the answer is the one meant if and only if the slice is used up, nobody waits, the running thread is not behind the first one, or it is behind by at least 2^64 less the granularity |
| `CfsPreemption.BehindIsPreempted` | src/sched_cfs.c:413-433 | a reachable queue in which a thread that is behind is preempted with its slice unused, and is then the first to leave the queue |
| `CfsRunQueue.CfsState.RemoveQueued` | src/sched_cfs.c:352-376 | removes the thread exactly when the key-directed search meets it, otherwise changes nothing |
| `CfsRunQueue.CfsState.Search` | src/sched_cfs.c:356-371 | finds the thread exactly when the key-directed search meets it, in at most 2 log2(n + 1) steps |
| `CfsRunQueue.ReachesExactly` | src/sched_cfs.c:361-371 | the search meets a queued thread if and only if no node above it, with it in the left subtree, has the same vruntime |
| `CfsRunQueue.ReachesOnlyQueued` | src/sched_cfs.c:361-371 | a thread that is not queued is never met |
| `CfsRunQueue.ThreeEqualMissed` | src/sched_cfs.c:314-376 | three threads of equal vruntime enqueued into an empty queue: cfs_remove of the first finds nothing and leaves all three queued |
| `CfsRunQueue.FirstOfThreeMissed` | src/sched_cfs.c:361-371 | in every red-black tree of three threads of equal vruntime the search misses the first |
| `CfsSpec.PlaceSplits` | src/sched_cfs.c:119-126 | an entry is placed behind all keys at most its own and before all larger ones |
| `CfsSpec.RunSorted` | src/sched_cfs.c:314-403 | over every run the sequence stays sorted and min_vruntime never decreases |
| `CfsSpec.FloorIsLargest` | src/sched_cfs.c:399-403 | after every run min_vruntime is the largest of its initial value and the vruntimes ticked |
| `CfsSpec.ArrivesNoEarlier` | src/sched_cfs.c:318-328 | so a thread that arrives after a tick at v enters the queue with a key of at least v |
| `CfsSpec.EqualKeysFifo` | src/sched_cfs.c:121-125 | an entry with the key of a queued one leaves after it |
| `CfsSpec.StableOrder` | src/sched_cfs.c:314-350 | over every run, of two queued entries the one ahead leaves first and stays ahead while both are queued |
| `CfsSpec.StepKeepsPlace` | src/sched_cfs.c:318-328 | once min_vruntime has reached an entry's key, no operation moves it back |
| `CfsSpec.BoundedBypass` | src/sched_cfs.c:318-350 | once min_vruntime has reached the key of the entry at position k, it leaves after exactly k other dequeues, in every run |
| `CfsSpec.TickBoundsBypass` | src/sched_cfs.c:391-403 | after a tick at v every thread queued with a key of at most v leaves after exactly the dequeues ahead of it, in every run |
| `CfsSpec.UnboundedBypass` | src/sched_cfs.c:318-350 | otherwise a run of any length keeps it waiting |
| `CfsSpec.NextIsNewcomer` | src/sched_cfs.c:343-350 | a thread that enters is next to leave if and only if the queue is empty or its key is below the first one |
| `Vruntime.ChargeTotal` | src/sched_cfs.c:387-396 | over n charges in which no product and no sum wraps, weight times the total added is at most 1024 times the durations charged and falls short by less than n weights |
| `Vruntime.ChargeRounding` | src/sched_cfs.c:387-396 | hence the total added is at most sum * 1024 / weight and less than n below it |
| `Vruntime.RangeExact` | src/sched_cfs.c:387-396 | the code adds exactly the sum of the rounded quotients if and only if no product and no sum of the charges reaches 64 bits |
| `Vruntime.ChargeWraps` | src/sched_cfs.c:387-396 | a charge whose sum leaves 64 bits puts the thread behind where it was, by 2^64 |
| `Vruntime.ProductWraps` | src/sched_cfs.c:387-396 | and 2^54 nanoseconds more charge nothing more |
| `Vruntime.TicksOvercharge` | src/scheduler.c:262-275 | the durations charged at the ticks of one stay on the processor, and at a yield that ends it, sum up to the time used if and only if there is at most one |
| `Vruntime.TicksOverchargeNormal` | src/scheduler.c:262-275 | so at nice 0 the vruntime grows by the time used if and only if there is one charge |
| `Vruntime.EvenTicksCharge` | src/scheduler.c:262-275 | n evenly spaced ticks charge (n + 1) / 2 times the time used |
| `Vruntime.SliceFitsExactly` | src/sched_cfs.c:330-340 | for up to 1024 threads the slice formula stays within int if and only if the weight is at most 107; at nice 0 it does not |
| `Vruntime.SliceIsShare` | src/sched_cfs.c:336-340 | the slice is the thread's share by weight of the latency, rounded down, or the granularity where that is longer |
| `Vruntime.SliceGrows` | src/sched_cfs.c:336-340 | heavier threads never get a shorter slice, and with more threads nobody gets a longer one |
| `Vruntime.WeightsFall` | src/context.c:130-152 | a higher nice value never has a larger weight, for all values including clamped ones |
| `Vruntime.NiceScale` | src/context.c:132-141 | nice 0 has the normal weight, and each nice level changes the weight by a factor between 1.20 and 1.28 |
| `Vruntime.LowerNiceAccruesLess` | src/context.c:130-152 | for the same durations, in range for the higher nice, a thread with lower nice never accrues more vruntime |
| `Library.Scheduler.constructor` | src/uthread.c:63-91 | the main thread runs and nothing else exists |
| `Library.Scheduler.Enlist` | src/scheduler.c:38-55 | the running thread becomes blocked, last on the queue |
| `Library.Scheduler.Unlink` | src/scheduler.c:57-76 | hands out the longest waiter, or nothing exactly when the queue is empty |
| `Library.Scheduler.Unblock` | src/scheduler.c:253-259 | the thread becomes ready, last in the run queue |
| `Library.Scheduler.WakeOne` | src/scheduler.c:111-119 | the longest waiter, if any, becomes ready |
| `Library.Scheduler.WakeAll` | src/scheduler.c:121-129 | the loop makes all waiters ready in the order they waited and leaves the queue empty |
| `Library.Scheduler.Schedule` | src/scheduler.c:174-218 | the picked thread runs, or the idle thread if none is ready; a running thread becomes ready, a blocked one stays so; the same thread picked again changes no state |
| `Library.Scheduler.Yield` | src/scheduler.c:220-235 | a RUNNING caller is enqueued first, a caller in another state is not |
| `Library.Scheduler.Create` | src/uthread.c:207-217 | the new thread is in the table and last in the run queue |
| `Library.Scheduler.Exit` | src/uthread.c:359-381 | the thread is dead with its value stored, its joiner ready, and another thread runs |
| `Library.Scheduler.Join` | src/uthread.c:231-282 | the refusals and their codes; parking while the target lives; otherwise the exit value is delivered and the target freed |
| `Scheduling.WakeOneBase` | src/scheduler.c:111-119 | waking the longest waiter keeps every thread in its one place |
| `Scheduling.ScheduleBase` | src/scheduler.c:174-218 | so does switching away from a parked thread, and then the current thread is running or nothing is ready |
| `Scheduling.BlockLive` | src/mutex.c:163-179 | so does a blocking round |
| `Scheduling.WakeAllLive` | src/scheduler.c:121-129 | so does waking everyone |
| `Scheduling.YieldLiveIff` | src/scheduler.c:190-235 | a yield keeps every thread in its one place if and only if the queue does not pick its caller, which the rows of Policies resolve for each policy |
| `Scheduling.YieldTwiceDrops` | src/scheduler.c:190-235 | after a yield that picks its caller, the next yield leaves the thread runnable but neither running nor queued |
| `Policies.YieldByRank` | src/scheduler.c:220-235 | under a policy that picks the earliest thread of the highest rank: if and only if some ready thread has at least the caller's rank |
| `Policies.YieldRoundRobin` | src/sched_rr.c:33-75 | under round robin: if and only if some thread is ready |
| `Policies.YieldPriorities` | src/sched_priority.c:118-148 | under priorities: if and only if some level from the caller's up holds a thread |
| `Policies.YieldCfs` | src/sched_cfs.c:314-350 | under CFS: if and only if the first queued thread has a vruntime of at most the caller's |
| `Policies.TickRoundRobin` | src/sched_rr.c:130-136 | a tick that preempts under round robin never picks its caller again |
| `Policies.TickPriorities` | src/sched_priority.c:201-221 | nor does one under priorities, for a caller whose priority is in range |
| `Policies.TickCfsIff` | src/sched_cfs.c:413-433 | a tick that preempts under CFS picks another thread if and only if the first thread's vruntime is at most min_vruntime |
| `Policies.LevelPicks` | src/sched_priority.c:133-148 | taking the first thread of the highest non-empty level is picking the earliest of the highest rank, and leaves the levels of the rest |
| `Policies.OrderedPicks` | src/sched_cfs.c:343-350 | taking the first entry of the sorted sequence is picking the earliest of the lowest vruntime, and leaves the sorted sequence of the rest |
| `Scheduling.ExitLive` | src/uthread.c:359-381 | exiting keeps every thread in its one place and the joiner links paired |
| `Scheduling.JoinRoundLive` | src/uthread.c:258-281 | so does a round of join |
| `Primitives.MutexObject.Take` | src/mutex.c:162-188 | blocks exactly when the mutex is locked, else returns success with the caller as owner and a count of 1; the whole library changes as the step function says |
| `Primitives.MutexObject.Lock` | src/mutex.c:129-189 | EDEADLK exactly for an ERRORCHECK owner, success and a count one larger for a RECURSIVE owner, otherwise as above |
| `Primitives.MutexObject.TryLock` | src/mutex.c:191-234 | success takes a free mutex or counts up for a RECURSIVE owner; EBUSY changes nothing |
| `Primitives.MutexObject.Unlock` | src/mutex.c:236-280 | EPERM, and no change, exactly for an ERRORCHECK mutex of someone else; a RECURSIVE owner with a count above 1 keeps it with the count one smaller, any other success frees it |
| `Primitives.CondObject.Wait` | src/condvar.c:109-135 | the caller is queued, then the mutex released and its longest waiter woken, then the processor given away |
| `Primitives.CondObject.Signal` | src/condvar.c:275-287 | the longest waiter is appended to the run queue |
| `Primitives.CondObject.Broadcast` | src/condvar.c:306-318 | all waiters are appended to the run queue in order and the queue is empty |
| `Primitives.SemObject.Wait` | src/semaphore.c:82-107 | blocks, and takes nothing, exactly when the value is not positive, otherwise takes one |
| `Primitives.SemObject.TryWait` | src/semaphore.c:120-129 | EAGAIN, and no change, exactly when the value is not positive, otherwise takes one |
| `Primitives.SemObject.Post` | src/semaphore.c:202-214 | adds one and wakes the longest waiter |
| `Primitives.RwObject.TakeRead` | src/rwlock.c:131-160 | blocks without change exactly when a writer holds or is pending, otherwise there is one reader more |
| `Primitives.RwObject.TryRead` | src/rwlock.c:177-190 | EBUSY without change exactly then, otherwise there is one reader more |
| `Primitives.RwObject.WrLock` | src/rwlock.c:207-243 | counts as pending at once, blocks exactly when the lock is held, otherwise the caller is the writer and no longer pending |
| `Primitives.RwObject.TakeWrite` | src/rwlock.c:219-243 | the same after a wakeup, without counting again |
| `Primitives.RwObject.TryWrite` | src/rwlock.c:260-275 | EBUSY without change exactly when the lock is held, otherwise the caller is the writer |
| `Primitives.RwObject.Unlock` | src/rwlock.c:288-335 | EPERM without change for a foreign writer and for a free lock; a writer leaves no writer and no owner, a reader one reader less |
| `Mutexes.LockInv` | src/mutex.c:145-188 | a lock call keeps the invariant of the whole library |
| `Mutexes.TryLockInv` | src/mutex.c:207-233 | so does trylock, although it barges past woken waiters |
| `Mutexes.UnlockInvIff` | src/mutex.c:246-279 | an unlock keeps it if and only if the caller owns the mutex, the mutex is ERRORCHECK, or it is free |
| `Mutexes.CondWaitInvIff` | src/condvar.c:117-135 | a wait keeps it if and only if the caller owns the mutex or it is free |
| `Mutexes.SignalInv` | src/condvar.c:275-287 | a signal keeps it |
| `Mutexes.BroadcastInv` | src/condvar.c:306-318 | a broadcast keeps it |
| `Semaphores.TakeSemInv` | src/semaphore.c:87-107 | a wait keeps it: blocking, or taking one unit at the cost of at most one woken thread |
| `Semaphores.TrySemInv` | src/semaphore.c:120-129 | so does trywait |
| `Semaphores.PostInvIff` | src/semaphore.c:202-214 | a post keeps it if and only if the value is below the largest int |
| `RwLocks.TakeReadInv` | src/rwlock.c:135-158 | a round of rdlock keeps it |
| `RwLocks.WrLockInv` | src/rwlock.c:211-241 | a wrlock call keeps it |
| `RwLocks.RetryWriteInv` | src/rwlock.c:219-241 | so does a woken writer's round |
| `RwLocks.TryReadInv` | src/rwlock.c:177-188 | so does tryrdlock |
| `RwLocks.TryWriteInv` | src/rwlock.c:260-273 | so does trywrlock, although it barges past pending writers |
| `RwLocks.RwUnlockInvIff` | src/rwlock.c:288-335 | an unlock keeps it if and only if, on the reader's branch, the caller holds the lock for reading |
| `Runs.InitInv` | src/uthread.c:57-100 | the invariant holds after initialization, for any set of fresh objects |
| `Runs.Run` | src/scheduler.c:174-259 | every state of every legal run satisfies the invariant |
| `Runs.StepInv` | src/scheduler.c:174-259 | every legal step of the whole library keeps it |
| `Guarantees.OnePlaceInRuns` | src/scheduler.c:38-129 | in every reachable state each thread is at exactly one position: running, in the run queue, on one wait queue, parked on an unexited thread, or exited; and no other thread is linked anywhere |
| `Guarantees.DeadlockIsTrue` | src/scheduler.c:182-188 | in every run the idle thread runs only when no thread can: every waited mutex and read-write lock is held, every waited semaphore is 0, every joined thread has not exited |
| `Guarantees.Progress` | src/scheduler.c:174-218 | no livelock: from every state, whatever the run queue picks, after at most as many steps as threads are awake inside calls control is with user code or the processor idles |
| `Guarantees.ResumeTires` | src/mutex.c:163-189 | going on with a blocked call takes exactly that thread off the awake ones, whether it blocks again or returns |
| `Guarantees.ResumesBounded` | src/scheduler.c:174-218 | no run goes on with calls for more steps than that |
| `Guarantees.IdleMeansDeadlock` | src/scheduler.c:182-188 | the invariant alone makes an idle processor a true deadlock |
| `Guarantees.MutexSafe` | src/mutex.c:162-189 | in every run at most one thread holds a mutex, and a free mutex with waiters has a woken thread about to retry |
| `Accounts.StepBooked` | src/semaphore.c:72-130 | a post adds one to the value, a check that finds it positive takes one and returns to user code, and no other step of the library touches it |
| `Accounts.SemConserved` | src/semaphore.c:72-130 | over every run the value changes by exactly the posts less the checks that found it positive, counted from the events of the run |
| `Accounts.SemSafe` | src/semaphore.c:72-130 | in every run no more waits succeed than the initial value and the posts allow, the value stays within 0 and the largest int, and with waiters it is at most the number of woken threads |
| `MutexAccounts.StepMoves` | src/mutex.c:145-278 | what every event does to a mutex: an attempt takes it exactly when it is free, a RECURSIVE owner counts up and down, the last unlock and a wait free it, and nothing that others do takes it from its owner |
| `MutexAccounts.RecursiveBalance` | src/mutex.c:149-265 | over every run a thread keeps a RECURSIVE mutex exactly as long as its locks and trylocks stay ahead of its unlocks and it does not wait with it; meanwhile it is the only holder and the count is the number by which they are ahead |
| `MutexAccounts.BalanceSinceTaken` | src/mutex.c:149-265 | the same counted from the event by which it became the owner |
| `MutexAccounts.LastUnlockFrees` | src/mutex.c:258-271 | the unlock that brings this number to 0 frees the mutex, and no other does |
| `MutexAccounts.KeptUntilReleased` | src/mutex.c:236-280 | over every run a mutex of any kind stays its owner's until that owner unlocks it or waits with it |
| `RwAccounts.StepMoves` | src/rwlock.c:117-336 | what every event does to the holders of a lock: a request is granted exactly when the lock is open to it, an unlock takes exactly one hold of its caller, nothing else changes them |
| `RwAccounts.HoldsConserved` | src/rwlock.c:117-336 | over every run what a thread holds for reading, and for writing, is what it held plus its grants less its releases, counted from the events |
| `RwAccounts.UnlockReleases` | src/rwlock.c:300-333 | an unlock by the writer leaves no writer and no owner, one by a reader takes one of its holds, one by anybody else changes nothing |
| `RwAccounts.WriterKeeps` | src/rwlock.c:300-312 | over every run a writer holds the lock alone until it unlocks it itself |
| `RwAccounts.ReaderKeeps` | src/rwlock.c:314-325 | over every run a reader holds the lock, and no writer does, until it has released as often as it was granted |
| `RwAccounts.TryWriteTakes` | src/rwlock.c:260-275 | a trywrlock that finds the lock free makes its caller the only holder until that caller's own unlock, otherwise it changes nothing |
| `RwAccounts.TryReadTakes` | src/rwlock.c:177-190 | a tryrdlock that finds the lock open adds one hold of its caller, otherwise it changes nothing |
| `Wakeups.StepShuffles` | src/scheduler.c:38-129 | every event puts its thread to sleep exactly when it cannot have what it asks for, and wakes exactly those it should, longest first: an unlock, a post and a signal one, a broadcast all, a writer's unlock one writer or else all readers, the last reader's unlock one writer; no queue changes otherwise |
| `Guarantees.RwSafe` | src/rwlock.c:117-336 | in every run no writer beside readers, exact counters, and a free lock with waiters has a woken writer about to take it |
| `Guarantees.RwWaited` | src/rwlock.c:292-325 | a lock that is waited for is held or has a woken writer |
| `Guarantees.PendingShutsReaders` | src/rwlock.c:140-180 | while a writer seeks the lock, no step adds a read holder |
| `Guarantees.WriterPreference` | src/rwlock.c:211-239 | from a wrlock until that writer gets the lock, the read holders only become fewer, in every run |
| `Waking.StepCond` | src/condvar.c:120-135 | what each step does to a condition variable's queue: waits append, signals take the first, broadcasts empty it, nothing else touches it |
| `Waking.NoSignalMissed` | src/condvar.c:120-157 | in every run a waiter with p threads before it stays queued if and only if there were at most p signals and no broadcast, and then it has moved up by that many |
| `Waking.NoSpuriousReturn` | src/condvar.c:143-157 | no step makes a blocked call return without what it seeks: cond_wait and lock as the only holder, sem_wait with one unit, rdlock where no writer holds or seeks, wrlock as the only holder |
| `Waking.WaitRestoresDepthIff` | src/condvar.c:124-157 | over every run in which the owner of a mutex locked d times waits and comes back: it owns the mutex with count 1, so the count is restored if and only if d was 1 |
| `Fairness.TakesIff` | src/mutex.c:162-189 | a woken waiter gets the mutex at its turn if and only if it then finds it free |
| `Fairness.MutexBypassed` | src/mutex.c:162-189 | wherever a thread has locked a mutex once, others wait for it and nobody is ready: for every n a run in which the first of the run queue is picked each time, the owner takes the mutex n times again, every waiter stays in the same call, and it can go on like that |
| `Fairness.ContendedReachable` | src/mutex.c:162-189 | such a state is reached, for every kind of mutex |
| `Joining.ParkedStep` | src/uthread.c:359-372 | a parked joiner is made ready by its target's exit and by no other step |
| `Joining.ReadyStep` | src/uthread.c:258-281 | a ready joiner stays so until it runs, and then receives the exit value and frees the target |
| `Joining.JoinRun` | src/uthread.c:250-281 | while a thread joins, its target either has not exited or has exited exactly once with the value in store |
| `Joining.JoinDelivers` | src/uthread.c:250-281 | in every run, when join returns after parking, the target has exited exactly once since and the joiner has that value |
| `Joining.SecondJoinerRefused` | src/uthread.c:252-256 | another thread that joins meanwhile is refused without effect |
| `Witnesses.StrayUnlockTwoHolders` | src/mutex.c:258-270 | after a foreign unlock of a NORMAL or RECURSIVE mutex and a trylock, two threads hold it |
| `Witnesses.StrayUnlockReachable` | src/mutex.c:258-270 | a reachable state exists in which such an unlock breaks the invariant |
| `Witnesses.StrayWaitReachable` | src/condvar.c:124-126 | a reachable state in which cond_wait with someone else's mutex breaks the invariant, for every kind of mutex |
| `Witnesses.StrayReadUnlockReachable` | src/rwlock.c:314-325 | a reachable state in which a stray release of a read lock breaks it |
| `Witnesses.OverflowReachable` | src/semaphore.c:204-205 | a reachable state in which a post leaves the range of int |
| `Witnesses.LoneYieldReachable` | src/scheduler.c:190-235 | a thread that is alone and yields twice is neither running nor ready, whatever the policy |
| `Witnesses.DeadlockReachable` | src/mutex.c:159-179 | locking a NORMAL mutex twice reaches the idle processor with a thread waiting, a true deadlock |
| `Scenarios.WaitForgetsDepth` | src/condvar.c:124-157 | a RECURSIVE mutex locked twice, waited on, signalled and taken again is held once, and one unlock frees it |
| `Scenarios.SignalApplies` | src/condvar.c:275-287 | a reachable waiter that one signal takes off its queue and that then returns as owner |
| `Scenarios.JoinApplies` | src/uthread.c:250-281 | a reachable join whose target exits with 7 returns 7 |
| `Scenarios.WriterApplies` | src/rwlock.c:177-183 | a reachable pending writer, for which a reader that tries again is refused |
| `WaitQueues.WaitQueue.Add` | src/scheduler.c:38-55 | the sequence grows at the end; links, ends, counter and blocked_queue marks are right; every other queue is untouched |
| `WaitQueues.WaitQueue.Remove` | src/scheduler.c:57-76 | the first element leaves, under the same conditions |
| `WaitQueues.WaitQueue.RemoveSpecific` | src/scheduler.c:78-104 | removes exactly the thread from the sequence if it is a member, which blocked_queue decides, and otherwise nothing |
| `WaitQueues.WaitQueue.Apart` | src/internal.h:83-89 | no thread is on two wait queues |
| `HeapQueues.Machine.OneList` | src/internal.h:83-89 | on the heap no thread is on two lists, neither two wait queues nor a wait queue and the run queue |
| `HeapQueues.Machine.Wait` | src/scheduler.c:38-55 | adding a thread that is on no list to one wait queue leaves the run queue and all other wait queues linked as they were |
| `HeapQueues.Machine.WakeOne` | src/scheduler.c:111-119 | the longest waiter moves to the end of the run queue, all other lists linked as they were |
| `HeapQueues.Machine.WakeAll` | src/scheduler.c:121-129 | the loop moves all waiters to the end of the run queue in order |
| `HeapQueues.Machine.Dispatch` | src/sched_rr.c:54-75 | the first thread of the run queue leaves it and is then on no list |
| `HeapQueues.Machine.Withdraw` | src/sched_rr.c:77-110 | the run queue loses the thread if it is there, all wait queues linked as they were |
| `HeapScheduling.PlacesOnHeap` | src/internal.h:83-89 | when the lists stand for a state of a run: a thread's control block is in the run queue exactly if it can run and does not, on exactly the wait queue its call waits on, and its mark names that queue or is NULL |
| `HeapScheduling.OnNoList` | src/scheduler.c:38-55 | the control block of any thread that is on no list of the state is on no list of the heap, and its mark is NULL, as adding it demands |
| `HeapScheduling.EnlistOn` | src/scheduler.c:38-55 | wait_queue_add of the running thread keeps the lists standing for the state of the model after it |
| `HeapScheduling.Switch` | src/scheduler.c:182-202 | so does scheduler_schedule under round robin, and the thread it hands out is the one that runs in that state |
| `HeapScheduling.BlockOn` | src/scheduler.c:238-251 | so does blocking |
| `HeapScheduling.WakeOneOf` | src/scheduler.c:111-119 | so does waking the longest waiter |
| `HeapScheduling.WakeAllOf` | src/scheduler.c:121-129 | so does waking everyone |
| `HeapScheduling.YieldNow` | src/scheduler.c:220-235 | so does a yield |
| `HeapScheduling.WaitOn` | src/condvar.c:120-135 | so does cond_wait, where one thread enters a list and another leaves one |
| `HeapScheduling.ExitNow` | src/uthread.c:359-381 | so does exit, with rr_remove of the caller and the enqueue of its joiner |
| `HeapScheduling.CreateReady` | src/uthread.c:207-217 | so does create, with a new control block |
| `HeapScheduling.ParkOn` | src/uthread.c:250-281 | so does joining a thread that has not exited |
| `HeapScheduling.ReapShows` | src/uthread.c:268-281 | so does joining one that has, and the control block that it frees is on no list |
| `HeapScheduling.StartShows` | src/uthread.c:63-91 | after initialization the empty lists stand for the state with the main thread alone |
| `HeapRuns.StepIsOneAction` | src/scheduler.c:174-259 | every legal step of the library under round robin does one of these operations to the lists |
| `HeapRuns.Perform` | src/scheduler.c:38-259 | carrying out that operation on the heap keeps the lists standing for the state after the step |
| `HeapRuns.RunHasActions` | src/scheduler.c:174-259 | every run under round robin is such a sequence of operations |
| `HeapRuns.Follow` | src/scheduler.c:38-259 | over any run of any length the lists on the heap stand for the state reached, and the current control block is that of the running thread |
| `RoundRobin.RrState.Enqueue` | src/sched_rr.c:33-52 | the sequence grows at the end and the slice is reset |
| `RoundRobin.RrState.Dequeue` | src/sched_rr.c:54-75 | the first element leaves, or NULL exactly when there is none |
| `RoundRobin.RrState.ShouldPreempt` | src/sched_rr.c:130-136 | exactly when the slice is used up and somebody waits |
| `RoundRobin.RrState.Find` | src/sched_rr.c:81-92 | the search finds the thread exactly when it is queued |
| `RoundRobin.RrState.Remove` | src/sched_rr.c:77-110 | the sequence loses exactly that thread, if present |
| `RoundRobin.ServedInTurn` | src/sched_rr.c:33-75 | whatever is enqueued meanwhile, the thread at position k is handed out after exactly k other dequeues |
| `RoundRobin.NextIsNewcomer` | src/sched_rr.c:33-75 | a thread that enters is next to leave if and only if the queue is empty |
| `PriorityQueues.PriorityState.FindHighest` | src/sched_priority.c:29-44 | the highest non-empty level, or -1 exactly when all are empty |
| `PriorityQueues.PriorityState.AddTo` | src/sched_priority.c:52-72 | the level grows at its end; bitmap bits equal non-emptiness, links valid, other levels the same |
| `PriorityQueues.PriorityState.RemoveFrom` | src/sched_priority.c:80-101 | the level loses exactly that thread, under the same conditions |
| `PriorityQueues.PriorityState.Enqueue` | src/sched_priority.c:118-131 | last in the level of its priority, in level 0 if it is negative, in level 31 if it is larger; the counter is the total |
| `PriorityQueues.PriorityState.Dequeue` | src/sched_priority.c:133-148 | the oldest thread of the highest non-empty level, NULL exactly when all are empty; while every thread is in the level of its priority, which every operation keeps, nobody queued has a higher one |
| `PriorityQueues.PriorityState.Remove` | src/sched_priority.c:150-181 | the thread leaves whatever level it is in, even if its priority says another |
| `PriorityQueues.PriorityState.ShouldPreempt` | src/sched_priority.c:201-221 | wherever the code indexes its levels in range: exactly when the priority is below -1, a higher level is non-empty, or the slice is used up and the own level is non-empty |
| `PriorityQueues.PriorityState.UpdatePriority` | src/sched_priority.c:223-243 | a queued thread goes to the end of its new level, others keep their places; a thread that is not queued changes nothing, whatever its priority |
| `PriorityQueues.PriorityState.SetPriority` | src/uthread.c:731-749 | EINVAL exactly outside 0..31 and then no change; otherwise a queued thread is relocated to the end of its new level |
| `PriorityQueues.MovedConserves` | src/sched_priority.c:229-237 | moving a thread between levels keeps the total and the set of queued threads |
| `PriorityQueues.RelocatedConserves` | src/sched_priority.c:229-237 | relocating loses nobody, adds nobody, keeps the total and puts the thread last |
| `PriorityQueues.NextIsNewcomer` | src/sched_priority.c:118-148 | a thread that enters a level is next to leave if and only if no level from there up holds a thread |
| `PriorityQueues.HigherFirst` | src/sched_priority.c:118-148 | of two threads put into empty queues the one of higher priority is handed out, in whatever order they came; of equal ones the first |
| `PriorityQueues.SetSamePriority` | src/uthread.c:731-749 | setting the priority that a thread was enqueued with leaves it where enqueueing has put it |
| `PriorityQueues.RelocatedFiled` | src/sched_priority.c:223-243 | relocating a thread to its new priority puts every thread into the level of its priority again |
| `Bitmaps.SetBit` | src/sched_priority.c:63-63 | setting a bit sets that bit and no other |
| `Bitmaps.ClearBit` | src/sched_priority.c:99-99 | clearing a bit clears that bit and no other |
| `ThreadTable.Table.Add` | src/scheduler.c:145-159 | takes a free slot and counts it; fails exactly when all 1024 slots are occupied |
| `ThreadTable.Table.Remove` | src/scheduler.c:161-172 | frees exactly that thread's slot; the counter always equals the number of occupied slots |

## Left out

- Context switching, stacks, guard pages, allocation failure: foreign calls; a switch changes the current thread.
- Signals, the interval timer and the preemption counter: steps are atomic, and ticks happen in user code only. The code enables preemption between queueing a thread and switching away (src/mutex.c:166-175); a tick there is not modelled.
- `cond_timedwait`, `sem_timedwait` and sleep: driven by the clock, which is not part of this model.
- Library.Scheduler.Exit: joinable threads only; the exit of a detached thread frees the control block in use.
- Library.Scheduler.Join: without the refusal of detached threads, which are left out.
- Library.Scheduler.Create: takes a thread identity that is not in use; the bound of 1024 threads is in `Runs.Disciplined` and in `ThreadTable.Table.Add`.
- Cleanup handlers, cancellation, names, attributes, statistics, debug output, destroy functions, NULL and initialized checks: each is settled by reading one branch.
- Static initializers: they leave the queues NULL; objects are those the init functions make.
- Counters other than the semaphore's value are unbounded integers; a count of 2^31 readers or recursion levels is not modelled.
- The run queue inside `Scheduling` is a sequence in the order of arrival from which any position may be picked, so that the results about runs hold for each of the three policies; that each policy picks the earliest thread of the highest rank is proved in `Policies` on values and at the dequeue of each queue on the heap. A change of priority while queued is modelled in `PriorityQueues` only.
- Thread control blocks in `Scheduling` and `Library` are values in a map; their links on the heap are in `HeapQueues`, `HeapScheduling` and `HeapRuns` for the wait queues and round robin, and in `PriorityQueues` and `CfsRunQueue` for the other two run queues.
