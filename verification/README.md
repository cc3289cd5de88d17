# MS-TOS kernel: a verified model

MS-TOS is a small preemptive kernel for the MSP430: a pool of task control blocks, a run queue
scheduled as weighted round robin, sleeping tasks in a binary heap, counting semaphores, mutexes
with priority inheritance, and a reusable barrier built from three semaphores. This project models
that kernel in Dafny 4.11 and proves what it keeps over every run, what each of its data structures
computes, and exactly when its guarantees fail.

`dafny verify dfyconfig.toml` checks everything.

## How the model is built

The model has two layers.

* **State machines on values.** `Kernel` holds the whole kernel state (`State`) and one function per
  operation; `Kernel.Next` is one step, and `Effects` says what it does to each field, for all steps. `Barrier` does the same for `barrier_wait`, with any number of
  threads and any interleaving. `SleepHeap`, `SleepTick`, `Semaphores`, `Cursors` and `Pool.Run` are the
  value forms of the data structures. The theorems about runs are lemmas over these.
* **Objects that are updated in place.** `PriorityQueue`, `RingBuffer`, `SinglyLinked`, `CircularList`
  and `Pool.Allocator` are the arrays and linked structures of the C headers; `Scheduler`, `Objects`,
  `Tables` and `Os.System` are the kernel over them, and `SharedBarrier` is the barrier over three
  semaphore objects. Each method is proved to change the objects as the function of the same name
  changes the value they stand for. The methods of `Os.System` ask for no more than that the step can
  be taken, that it does not follow the iterator while that is NULL (after which the C program is
  undefined, `Kernel.FollowsNull`), and that the state is well-formed, which every state reachable
  from `os_init` is (`Invariants.WellFormedFromInit`). So the runs of `Kernel.Next` are the runs of
  these methods, up to a step that follows a NULL iterator.

What a step is:

* A kernel step is one outermost critical section of the running task (`os.c:359-372`), or one timer
  tick, which is `os_update` followed by `os_schedule` (`krnl_swtch.asm:158-164`). A task that has
  blocked, gone to sleep or died is off the run queue, and then only the tick can follow, because
  `os_task_yield` raises the tick interrupt (`os.c:173-175`).
* `os_task_sleep` is one step, although it opens a gap between `os.c:301` and `os.c:303`.
* A sleep takes a `size_t`, so less than 2^16 ticks.
* The end of a step is the `end_critical` of its outermost section (`Kernel.EndCritical`), which turns
  interrupts on again unless a create that found the pool empty has left a section open (`os.c:156`): in a
  task they then stay off (`Kernel.Masked`); in `main` the launch still turns them on, but no later
  `end_critical` does (`Kernel.State.leaked`).
* A barrier step is one semaphore call, one update-and-test of the count, or the return.
* `NUM_THREADS` (`config.h:11`) is the parameter `n` of a kernel state and `cap` of a queue. Theorems
  that involve a semaphore count ask for `n` within `int16_t`.

The 16-bit widths that matter are written out: the semaphore count wraps (`Semaphores.Wrap16`), a slice
of 0 wraps when it is decremented, the sift-up compares a signed priority after conversion to `size_t`
(`SleepHeap.Unsigned`), and a sleep time is stored in an `int` (`SleepHeap.Signed`), which wraps when the
tick lowers or rebases it, as does the `size_t` with the ticks of the node (`SleepTick.DecRoot`,
`SleepTick.Rebase`).

## Where the code does not keep its promise

Each of these is a lemma that says exactly when the promise is kept, and a run from `os_init` that
breaks it (modules `Failures`, `Fairness`, `Overload`, `Deadlines` and `SharedLinks`).

* The sleep heap has one slot less than there are tasks and the result of its push is ignored
  (`pqueue.h:58`, `os.c:296`): the n-th concurrent sleeper is in no place at all and never returns
  (`Steps.StepConserves`, `Losses.LostForever`, `Failures.FullHeap`).
* A sleep of 2^15 ticks or more is stored as a negative priority (`pqueue.h:43,68`): alone it is over after
  one tick, unless it is exactly 2^15 (`Sleeping.SleepsExactly`, `Failures.LongSleep`), below a non-negative
  parent it leaves the heap unordered (`SleepHeap.PushOrdered`), and a heap that has seen sleeps of both
  kinds never sorts them (`SleepHeap.HeapSort`).
* Creating a task resets the join semaphore of the slot it reuses (`thread.c:85`), and with it forgets
  tasks that wait on it (`Steps.StepConserves`, `Losses.LostForever`, `Failures.ForgottenJoiner`).
* A create that finds the pool empty returns without leaving its critical section (`os.c:156`). If a task
  made it, no tick follows (`Dispatch.StepHealthy`, `Failures.EmptyPool`); if `main` made it before the
  launch, ticks follow until the first task enters a critical section of its own (`Failures.LeakEndsTicks`,
  `Failures.EmptyPoolAtBoot`).
* The tick that has to follow a kill saves the stack pointer of the dead task over the link that
  `pool_task_mem_free` has just stored (`pool.h:21-24`, `definitions.h:147`, `krnl_swtch.asm:47-48`). The
  next create gets the dead slot, and leaves a pointer into its stack as head of the free list, whatever
  else was free (`SharedLinks.KillLosesPool`, `SharedLinks.SecondCreateWild`). `Kernel` and the theorems
  about it, conservation of tasks among them, keep the free list apart from the stack pointers; that is
  exact if and only if no tick has interrupted a dead task (`SharedLinks.RunLinks`). From the tick after the
  first kill on they describe the pool as it would be with a separate link in each slot.
* A tick that wakes the very task it interrupted re-adds it at the end of the run queue without moving
  the iterator (`os.c:232-236`). A task of priority 2 that sleeps for one tick and later sleeps again is
  enough to make the iterator NULL and `run_ptr` garbage (`Dispatch.StepCoupled`, `Failures.IteratorLost`).
* `os_task_kill` leaves the state of the dead task ACTIVE (`os.c:187-199`). With w ticks of its slice left
  and another task to run, the dead task runs on through the next w - 1 ticks, while its slot is free
  (`Killing.LingersForSlice`, `Failures.RunsOnDead`). The idle thread therefore runs exactly when the run
  queue is empty, but a running task need not be on the run queue.
* `os_next` renews the slice of a task that blocked, but with an empty run queue `os_schedule` does not
  call it (`os.c:269-272`): the last task to block on a semaphore or mutex resumes with what it had left
  (`Slices.StepFresh`, `Failures.KeepsRest`).
* Tasks that wake each other join the run queue ahead of one that waits its turn, which can starve
  (`Fairness.Starves`). A runnable task runs once as many ticks have passed as there were ticks of slice
  before it, and as have joined since (`Fairness.RunsInTime`).
* A post at 32767 wraps the count and pops an empty wait queue (`semaphore.c:139-145`,
  `Semaphores.PostAgrees`, `Invariants.StepAgrees`, `Failures.PostOverflow`).
* Rebasing can make the root of the sleep heap negative (`os.c:238-240`), and the next push then compares
  it as a large unsigned number (`pqueue.h:63`), which leaves the heap unordered unless another ancestor
  stops the push (`SleepHeap.PushUnderNegativeRoot`, `Failures.RootBelowZero`).
* Every rebase adds the ticks of the popped sleeper to those of the next (`os.c:238-240`), without end while
  the heap is not empty. Once the ticks in the heap add up to 2^15 or more, a rebase can wrap round: the new
  root comes later than it was stored (`SleepTick.RebaseNoLater`) and can end up above its children
  (`SleepTick.RebaseOrdered`). A sleep keeps the sum below 2^15 exactly when it does not overload the heap
  (`Sleeping.StepTame`), and then sleepers return in time (`Sleeping.SleepersReturnInTime`); in general they
  do within 2^15 ticks each (`Sleeping.SleepersReturnFromInit`). In `Overload.ShortSleepLastsLong` a sleep
  of 100 ticks takes 25638, though no sleep was longer than 20000.
* A rebase takes the ticks that the popped sleeper had asked for off the next one, though the next one may
  have come later. The second of two sleeps is exact only in the cases of `Deadlines.SecondSleepExact`; a
  longer one ends early by as many ticks as the first had already slept beyond one (`Deadlines.WokenEarly`).
* Priority inheritance is neither nested nor transitive: an unlock resets the caller to its creation
  priority even if it holds another mutex (`Inheritance.NestedUnlock`, `Failures.NestedLosesInheritance`),
  and a boost stops at a holder that itself waits (`Inheritance.BoostStopsAtWaiter`,
  `Failures.ChainLosesInheritance`).

## Model

| member | source | states |
|---|---|---|
| SleepHeap.PushOrdered | pqueue.h:55-73 | for every size_t: on an ordered heap a push keeps heap order if and only if its sift-up lands right. Below 2^15 it must stop below every negative priority (line 63 compares unsigned); from 2^15 on, where it is stored as negative, it needs the root or a negative parent |
| SleepHeap.SiftUpOrdered | pqueue.h:60-71 | a sift-up that lands right, from any hole and for every size_t, restores order |
| SleepHeap.SiftUpUnordered | pqueue.h:60-71 | one that does not leaves the heap unordered |
| SleepHeap.StopsWhenNonNegative | pqueue.h:60-66 | with non-negative priorities every push below 2^15 lands right |
| SleepHeap.PushContents | pqueue.h:55-73 | a push adds exactly its node to the multiset, ordered or not |
| SleepHeap.PopOrdered | pqueue.h:74-100 | the hole-style sift-down with the in-place sentinel restores heap order, whatever the root holds |
| SleepHeap.PopContents | pqueue.h:74-100 | a pop removes exactly the root, ordered or not |
| SleepHeap.RootIsLeast | pqueue.h:101-109 | the root of an ordered heap, which peek and pop return, is a minimum |
| SleepHeap.SmallestExact | pqueue.h:88-96 | which of two children moves into a hole, exactly: the right one only if it is below the left, and none if none is below the sentinel |
| SleepHeap.PushStays | pqueue.h:60-66 | a push stays in the last slot if and only if its parent, taken as size_t, is not above it |
| SleepHeap.HeapSort | pqueue.h:55-100 | pushing any sequence of sleeps and popping them all yields the same sleeps, sorted by stored priority if and only if all are shorter than 2^15 ticks or none is |
| SleepHeap.MixBuries | pqueue.h:55-73 | the first push from the other side of 2^15 puts a negative priority below a root that is not, and no later push brings it up again |
| SleepHeap.PushUnderNegativeRoot | pqueue.h:60-66 | on any ordered heap whose root is below zero, a push below 2^15 keeps order if and only if an ancestor between 0 and its ticks stops it |
| PriorityQueue.PQueue.Push | pqueue.h:55-73 | the in-place array loop refines the push on sequences; a full heap refuses and is unchanged |
| PriorityQueue.PQueue.Pop | pqueue.h:74-100 | the in-place array loop refines the pop on sequences and returns the root |
| PriorityQueue.PQueue.Peek | pqueue.h:101-109 | returns the root without a change, and fails exactly on an empty heap |
| PriorityQueue.PQueue.RootDue | os.c:231-232 | the guard of the wake loop lowers the root only while more than half of the sleepers are left |
| PriorityQueue.PQueue.RebaseRoot | os.c:238-240 | the new root moves closer by the ticks of the popped one less one, and adds them to its own, both in 16 bits |
| SleepTick.RebaseExact | os.c:238-240 | a rebase is what it would be without 16-bit fields if and only if neither leaves its range |
| SleepTick.RebaseNoLater | os.c:238-240 | the new root comes no later than it was stored if and only if its priority does not wrap round |
| SleepTick.RebaseOrdered | os.c:238-240 | a rebase keeps the order of the heap if and only if that is so or the wrapped root is still no larger than its children |
| SleepTick.DrainOrdered | os.c:231-241 | on a tame heap (`SleepTick.Tame`: its ticks add up to less than 2^15, and no node is further from its time, or past it, than its ticks) a tick keeps signed heap order through decrement, pop and rebase, and the heap tame |
| SleepTick.DrainOrderedBelow | os.c:231-241 | on every heap a tick keeps the order among the nodes below the root |
| SleepTick.HeapTicksTasks | os.c:231-241 | over any number of ticks the heap and the woken tasks together are the tasks that were asleep |
| SleepTick.WakeBound | os.c:231-232 | a tick wakes at most half of the sleepers, rounded up |
| SleepTick.TickStops | os.c:231-232 | a tick stops only with half of the sleepers left, or with a root that is not due |
| Wakeups.DrainWalks | os.c:231-241 | the wake loop over the heap is a walk along the sleepers in the order in which they are popped, on every heap |
| Wakeups.TickWakesExactly | os.c:228-241 | whom a tick wakes on a tame heap, and what it leaves: the longest run of sleepers of which the first is due and each further one has no more priority than those before it have ticks together, up to half of all |
| Deadlines.SecondSleepExact | os.c:228-241 | the second of two sleeps ends on exactly the tick it asked for if and only if the first had gone on for one tick, where the second is longer, or has one tick less to go, where it is not |
| SleepTick.EverySleepEnds | os.c:228-241 | with no further push the heap is empty after as many ticks as its waits (`SleepTick.Waits`), whatever wraps round, and every sleeper was woken once |
| SleepTick.WaitsBounded | os.c:228-241 | the waits are at most 2^15 for each sleeper |
| SleepTick.WaitsTame | os.c:228-241 | on a tame heap they are at most the sum of max(priority, 1) |
| SleepTick.WakeOrder | os.c:228-241 | with no push in between, the tasks of an ordered heap wake in nondecreasing stored priority, also when rebased roots wrap round |
| SleepTick.LoneSleeper | os.c:228-241 | a lone sleeper wakes on exactly the tick it asked for if and only if it asked for at most 2^15 |
| RingBuffer.Queue.Push | queue.h:57-68 | appends to a bounded FIFO sequence across the wraparound; a full queue refuses and is unchanged |
| RingBuffer.Queue.Pop | queue.h:69-80 | removes the oldest item; an empty queue refuses |
| RingBuffer.Queue.Foreach | queue.h:105-113 | visits the items oldest first, in place, until the callback says stop |
| RingBuffer.VisitReadOnly | queue.h:105-113 | a visit by a callback that changes no item leaves the queue as it is |
| RingBuffer.VisitOrder | queue.h:105-113 | a visit sees every item once, oldest first, up to and with the first at which the callback says stop |
| SinglyLinked.SList.Prepend | slist.h:94-97 | the new member becomes the first |
| SinglyLinked.SList.Append | slist.h:107-114 | the walk to the end links the new member behind the last |
| SinglyLinked.SList.Remove | slist.h:124-134 | the walk finds and unlinks a member, or fails and changes nothing |
| SinglyLinked.SList.RemoveHead | slist.h:142-148 | unlinks and returns the first member, or nothing on an empty list |
| Pool.PoolSound | pool.h:37-51 | over any sequence of allocs and valid frees, free and live slots partition the array, no live slot is handed out again, and the free list is empty exactly when every slot is live |
| Pool.PoolSoundFromInit | pool.h:28-51 | so it is after pool_init |
| Pool.Allocator.Fill | pool.h:28-36 | the loop threads every item onto the free list, last item first |
| Pool.Allocator.Alloc | pool.h:37-45 | takes the head of the free list; fails exactly when it is empty |
| Pool.Allocator.Free | pool.h:46-51 | links the slot back as the new head |
| Cursors.StepsInverse | list.h:204-238 | on a list without repetition the two circular moves undo each other |
| Cursors.HeadBetween | list.h:204-238 | the pseudo head is no stop of the circular moves: it leads forward to the first member and back to the last, and lies between the two |
| CircularList.List.InsertBefore | list.h:69-78 | splices a new member in before another; a member of the list is rejected unchanged |
| CircularList.List.Prepend | list.h:133-136 | puts a new member in front; a second insert is rejected unchanged |
| CircularList.List.Append | list.h:144-147 | puts a new member at the end; a second insert is rejected unchanged |
| CircularList.List.Remove | list.h:85-93 | unlinks a member and clears its pointers; a second removal is rejected unchanged |
| CircularList.Iterator.Next | list.h:190-196 | the linear iterator moves on, and stops in front of the pseudo head |
| CircularList.Iterator.NextCircular | list.h:204-211 | the pointer walk refines the circular move on the represented sequence, also from an unlinked element |
| CircularList.Iterator.PreviousCircular | list.h:233-238 | the same for the backward move |
| CircularList.Contains | list.h:246-255 | the walk decides membership |
| Printer.XToA | main.c:205-223 | from dv for every x below 2^32, and from dv+5 below 2^16: digits only, no leading zero but for 0, ends at the odd divisor, and parses back to x |
| Printer.CanonicalUnique | main.c:205-223 | a number has one such form, so the output is determined |
| Printer.HexRoundTrip | main.c:259-264 | the four digits of the x format denote the number |
| Semaphores.InitAgrees | semaphore.c:15-28 | sem_init accepts exactly up to one resource for each thread, and starts with count and queue in step |
| Semaphores.WaitAgrees | semaphore.c:49-67 | sem_wait keeps the queue length at max(0, -val) and blocks exactly when no resource is left |
| Semaphores.PostAgrees | semaphore.c:134-151 | sem_post keeps count and queue in step if and only if the count is below 32767, and wakes the longest waiter exactly when there is one |
| Semaphores.SemaphoreConservation | semaphore.c:49-151 | over every run of calls, initial value + posts - grants = max(val, 0), and tasks are released in the order they blocked |
| Semaphores.ConservationFromInit | semaphore.c:15-28 | so it is from sem_init on |
| Grants.StepRecorded | os.c:325-346 | the semaphore after any kernel step is the semaphore after the calls that step makes on it, the posts of the exit loop included, and none of them finds a full queue |
| Grants.ConservationInKernel | semaphore.c:49-151 | conservation and FIFO order of every semaphore in every kernel run from os_init that neither posts at the top of its count nor reuses the slot it belongs to |
| Semaphores.FifoRelease | semaphore.c:134-151 | the waiter at position k is released by the (k+1)-th post |
| Conservation.QueueHasRoom | semaphore.c:58 | no wait queue is full when a running task may be pushed, so the ignored result is always success (also mutex.c:68) |
| Invariants.StepPlaces | os.c:82-305 | no step of any task puts a slot in more places than it was in |
| Invariants.StepWellFormed | os.c:82-305 | every step, without exception, keeps each slot in at most one place, the active count equal to the queue length, and every pointer within the pool |
| Invariants.WellFormedFromInit | os.c:374-390 | so it is in every state reachable from os_init |
| Invariants.StepAgrees | semaphore.c:139-145 | every step keeps all semaphores in step, if and only if it is no post at the top of the count |
| Steps.UpdateEffect | os.c:228-241 | the woken tasks, none of them runnable before, are appended to the run queue as ACTIVE and nothing else changes |
| Effects.StepTask | os.c:82-305 | every step but the tick, for every task: state, slice, priority and base priority after it, so that only the tick and a task's own sleep, boost, hand-over or creation touch its slice |
| Effects.StepRunQueue | os.c:82-305 | every step but the tick: a task that blocks or dies leaves the run queue, and whom the step creates or wakes joins at its end, in order |
| Effects.StepCursor | os.c:82-305 | every step but the tick: who leaves the run queue takes the iterator one back, a join to an empty queue rebuilds it, nothing else moves it |
| Effects.StepMutex | mutex.c:48-187 | every step, for every mutex: a lock takes a free mutex or queues behind its holder, also if that is the caller; an unlock by the holder hands it to the longest waiter; nothing else touches it |
| Effects.StepHeap | os.c:289-305 | every step: only a sleep that finds a slot adds to the sleep heap, namely its caller with the ticks asked for, and only the tick takes from it |
| Effects.TickTask | os.c:228-272 | the tick, for every task: sleepers turn ACTIVE, and only the interrupted task uses up or renews its slice |
| Effects.TickWakes | os.c:228-272 | the tick, for the kernel: every sleeper it takes off the heap joins the run queue, and it stops only with half of them left or a root that is not due |
| Effects.PanicsExactly | mutex.c:156-160 | os_panic is where an unlock by a task that is not the holder ends, with nothing else changed, and where no other step ends |
| Effects.StepStays | os.c:82-305 | a step other than the tick leaves the running task running, runnable and with the slice it had, if and only if it does not block or die, panic, or end the ticks |
| Turns.TurnUsesSlice | os.c:255-267 | over every run in which a task never gives up the processor it keeps it for its whole slice, whatever else it does and whoever wakes, and uses up exactly one tick of it per tick |
| Turns.TurnEnds | os.c:255-267 | the tick after that renews its slice and runs the next task of the run queue, going round |
| Turns.CreateMakes | thread.c:85-98 | a created task is ACTIVE at the end of the run queue, with all three priorities as asked for and a join semaphore at 0 |
| Turns.BaseIsCreated | thread.c:91-93 | over every run the base priority of a slot is that of the last create that took it |
| Turns.BaseFromInit | thread.c:91-93 | so it is from os_init on |
| Turns.LaunchRunsFirst | os.c:274-277 | whatever main has created, the launch runs the front of the run queue, or the idle thread |
| Steps.StepConserves | os.c:82-305 | every step keeps every slot in exactly one of free list, run queue, sleep heap, one semaphore queue and one mutex queue, with the matching state, if and only if a sleep finds a free heap slot and a create reuses a slot nobody joins |
| Losses.StepLoses | pqueue.h:58 | a step that breaks conservation leaves a task in no place at all: the sleeper that finds the heap full, or a joiner of a reused slot |
| Losses.LostForever | os.c:82-305 | no further step of any task brings a lost task back, whatever else has gone wrong |
| Losses.RunConserves | os.c:82-305 | task conservation over whole runs: it holds at the end if and only if no step on the way lost a task |
| Dispatch.InitialHealthy | os.c:374-390 | os_init establishes every invariant, for every number of threads |
| Dispatch.DispatchSound | os.c:262-272 | after every tick the idle thread runs if and only if the run queue is empty, and the running task is never SLEEPING or BLOCKING |
| Dispatch.TickCoupled | os.c:228-272 | a tick keeps the iterator on the running task if and only if it does not re-add the interrupted task with slice left |
| Dispatch.StepCoupled | os.c:82-109 | every step keeps iterator, run queue, active count and running task together, with that one exception |
| Dispatch.StepHealthy | os.c:82-305 | a step keeps all kernel invariants if and only if it is none of the harmful steps |
| Dispatch.RunHealthy | os.c:82-305 | and so does every run without harmful steps |
| Dispatch.HealthyFromInit | os.c:374-390 | every state that such a run reaches from os_init has all kernel invariants |
| Dispatch.SuccessorOnList | os.c:96-109 | stepping the iterator back, removing its task and stepping on leads to the circular successor |
| Dispatch.DelTaskFromHead | os.c:96-109 | while the iterator stands on the pseudo head, removing a task leaves it on the last member, and so off the list if and only if that is the removed one of several |
| Dispatch.SuccessorRuns | os.c:96-109 | once the running task has left the run queue, a tick that wakes nobody runs its circular successor, or the idle thread if it was alone |
| Dispatch.BlockedSuccessor | os.c:219-226 | whichever way the running task blocks, its circular successor runs next if that tick wakes nobody |
| Killing.KilledTaskLingers | os.c:187-199 | the tick after a kill runs the dead task if and only if it had slice left and the run queue had another task or the tick wakes one |
| Killing.LingersForSlice | os.c:187-199 | then it runs through all ticks of its slice but the last, which runs a live task; with nothing else to run the first tick goes idle |
| RoundRobin.WeightedRoundRobin | os.c:255-272 | on a stable run queue, from any slices, the c-th task after the running one runs when exactly the slices before it have passed and through all of its own, so each runs within the sum of the slices |
| RoundRobin.SliceEnds | os.c:262-267 | after its slice the running task has a full one again and its circular successor runs |
| RoundRobin.Periodic | os.c:255-272 | with full slices and while no sleeper is due the schedule repeats with the sum of the priorities as period; only the sleepers get closer |
| Slices.StepFresh | os.c:262-272 | every step keeps the slices of all live tasks but the running one full, through boosts, hand-overs and sleeps, if and only if it is not the tick that goes idle behind a blocked task with part of its slice used |
| Slices.RunFresh | os.c:255-305 | and so does every run without such a tick |
| Slices.SleeperFresh | os.c:298-299 | because a sleeper renews its slice itself, that never happens to a sleeper, also when it is the last task |
| Slices.FreshTurnsPeriodic | os.c:255-272 | in every such state in which a task starts its turn, and while no sleeper is due, the schedule has the sum of the priorities as period |
| Slices.PeriodicFromInit | os.c:255-272 | so it is after every harmless run from os_init in which nobody left part of a slice behind |
| RoundRobin.StepPositive | thread.c:103-120 | as priority 0 is refused at creation, no step makes a priority or a slice 0 |
| RoundRobin.PositiveFromInit | thread.c:103-120 | and none is 0 in any state reachable from os_init |
| RoundRobin.RunsAtPlace | os.c:255-260 | a sound, coupled state with a runnable task running meets the premises of the round robin theorems |
| RoundRobin.RunsAtPlaceFromInit | os.c:255-260 | so does every such state after a harmless run from os_init |
| Fairness.QuietStep | os.c:82-305 | no step but the tick takes a runnable task further from its turn than by the slices it puts on the run queue |
| Fairness.TickStep | os.c:228-272 | a tick brings it nearer by one, up to the slices of the tasks it wakes |
| Fairness.RunsInTime | os.c:255-272 | in every harmless run a runnable task runs once there have been as many ticks as slice stood before it, plus what joined the run queue and what boosts added on the way |
| Fairness.Starves | os.c:210-226 | from a state that os_init reaches, two tasks that wake each other keep a runnable third from running for any number of rounds |
| Mutexes.MutualExclusion | mutex.c:48-187 | over every run with non-recursive locking, the tasks that owe an unlock are exactly holder and waiters, and a runnable one is the holder |
| Mutexes.MutualExclusionFromInit | mutex.c:48-187 | so it is in every state that such a run reaches from os_init |
| Mutexes.ResumesAsHolder | mutex.c:68-73 | a task resumes from a contended lock only as the holder, and owners never overlap |
| Mutexes.FifoHandOff | mutex.c:169-181 | the waiter at position k becomes the holder after exactly k+1 unlocks |
| Invariants.OtherPriorities | os.c:201-305 | only create, lock and unlock touch a mutex or a priority |
| Inheritance.PriorityInheritance | mutex.c:48-187 | over every run in which tasks hold one mutex at a time: a holder is as urgent as each waiter and as its own creation priority, a task holding nothing has its creation priority, and no priority exceeds the largest creation priority |
| Inheritance.PriorityInheritanceFromInit | mutex.c:48-187 | so it is in every state that such a run reaches from os_init |
| Inheritance.UnlockInherits | mutex.c:162-181 | an unlock restores the caller's own priority, and a hand-off never lowers the receiver |
| Inheritance.WaitInherits | mutex.c:57-71 | a contended lock boosts the holder to the caller and keeps the invariant |
| Inheritance.NestedUnlock | mutex.c:164-167 | an unlock keeps the inheritance of another mutex held by the caller if and only if no waiter of that mutex is above the caller's creation priority |
| Inheritance.BoostStopsAtWaiter | mutex.c:59-66 | a boost of a holder that waits for another mutex keeps the inheritance there if and only if the new waiter is not above that mutex's holder |
| Sleeping.StepTame | os.c:289-305 | every step keeps a tame heap tame, if and only if it is no sleep that makes its ticks add up to 2^15 or more |
| Sleeping.SleepersReturn | os.c:228-241 | in every run without further sleeps, whatever else the tasks do, as many ticks as the waits of the heap empty it, wake every sleeper exactly once, and some tick on the way makes each runnable and ACTIVE |
| Sleeping.SleepersReturnFromInit | os.c:228-241 | from every state that any run reaches from os_init, 2^15 ticks for each sleeper are enough |
| Sleeping.SleepersReturnInTime | os.c:228-241 | if no sleep on the way from os_init has made the ticks in the heap add up to 2^15, the sum of max(priority, 1) is enough |
| Sleeping.SleepsExactly | os.c:289-305 | a task that sleeps alone for d ticks is off the run queue until exactly the d-th tick if and only if d is at most 2^15; above that it is back after one tick |
| Sleeping.JoinersWoken | os.c:331-343 | the exit loop ends with the join queue empty and every joiner runnable, in FIFO order |
| Barrier.JoinQueue | semaphore.c:49-67 | a sem_wait keeps a barrier semaphore's queue made of distinct threads, each where that semaphore blocks |
| Barrier.LeaveQueue | semaphore.c:134-151 | so does a sem_post, which takes off the longest waiter |
| BarrierProofs.StepInv | barrier.c:28-59 | every step of every thread keeps the barrier invariant, within a generation or into the next |
| Barrier.InitAccepts | barrier.c:11-26 | barrier_init accepts exactly up to one participant for each thread, with all of them outside |
| BarrierProofs.InitConsistent | barrier.c:11-26 | barrier_init establishes it for every number of threads up to NUM_THREADS |
| BarrierProofs.RunConsistent | barrier.c:28-59 | it holds after every schedule |
| BarrierProofs.BarrierSafety | barrier.c:28-59 | no thread passes turnstile1 of a generation before all have entered it, and none leaves it before all have counted down in it |
| BarrierProofs.NoStaleTokens | barrier.c:31-37 | tokens of one turnstile are used up before the other gets any, and none is there for a thread of another phase |
| BarrierProofs.Reusable | barrier.c:28-59 | whenever all threads are outside, count and turnstiles are 0, the mutex is 1, and nobody is queued |
| BarrierProofs.SomeoneCanStep | barrier.c:28-59 | in every state that meets the invariant some thread can step: no deadlock |
| BarrierProofs.BarrierFromInit | barrier.c:11-59 | after every schedule from barrier_init the barrier is safe and somebody can go on |
| BarrierProofs.EveryScheduleProgresses | barrier.c:52-59 | every schedule, fair or not, takes every thread through any number of calls within an explicit number of steps |
| SharedBarrier.BarrierWait.Step | barrier.c:28-59 | the barrier over shared semaphore objects, step by step, refines the step relation |
| Scheduler.RoundRobinQueue.AddTaskMmang | os.c:82-94 | rebuilds the iterator on an empty queue, appends a task that is not on it, and counts it |
| Scheduler.RoundRobinQueue.DelTaskMmang | os.c:96-109 | moves the iterator back, unlinks a task that is on the queue, and uncounts it |
| Scheduler.RoundRobinQueue.NextTask | os.c:255-267 | uses up one tick of the slice, or renews it and moves on |
| Scheduler.RoundRobinQueue.Schedule | os.c:269-272 | refines the scheduler step on the linked run queue |
| Objects.Semaphore.Init | semaphore.c:15-28 | refuses more resources than threads and then changes nothing |
| Objects.Semaphore.Down | semaphore.c:52-58 | the in-place count and queue refine the wait on values |
| Objects.Semaphore.Up | semaphore.c:139-142 | the in-place count and queue refine the post on values |
| Os.OsInit | os.c:374-390 | the objects of a new system stand for the initial kernel state |
| Os.System.SemWait | semaphore.c:49-67 | over the objects, the same change as the kernel step |
| Os.System.SemTryWait | semaphore.c:114-128 | over the objects, the same change as the kernel step; succeeds exactly if the count is positive |
| Os.System.SemPost | semaphore.c:134-151 | over the objects, the same change as the kernel step |
| Os.System.Lock | mutex.c:48-77 | over the objects, the same change as the kernel step |
| Os.System.Unlock | mutex.c:149-187 | over the objects, the same change as the kernel step; a caller that is not the holder panics |
| Os.System.Sleep | os.c:289-305 | over the objects, the same change as the kernel step |
| Os.System.Create | thread.c:103-120 | over the objects, the same change as the kernel step; fails for priority 0 and for an empty pool |
| Os.System.Kill | os.c:187-199 | over the objects, the same change as the kernel step |
| Os.System.Exit | os.c:325-346 | the wake loop terminates with the change of the kernel step |
| Os.System.Update | os.c:228-241 | the wake loop over array heap and linked run queue is the drain on values; it never pops an empty heap |
| Os.System.Tick | os.c:228-272 | over the objects, the same change as the kernel step |
| Os.System.Launch | os.c:274-277 | over the objects, the same change as the kernel step |
| Failures.FullHeap | pqueue.h:58 | a run of three steps from os_init after which a sleeper is in no place |
| Failures.ForgottenJoiner | thread.c:85 | a run from os_init in which a joiner of a dying thread is lost when its slot is reused |
| Failures.RunsOnDead | os.c:187-199 | a run from os_init in which a dead task runs while its slot is free |
| Failures.KeepsRest | os.c:269-272 | a run from os_init after which the last task to block has part of its slice before it |
| Failures.NestedLosesInheritance | mutex.c:164-167 | a run from os_init in which the unlock of a second mutex takes back the priority inherited through the first |
| Failures.ChainLosesInheritance | mutex.c:59-66 | a run from os_init in which a boost does not reach the holder that the boosted task waits for |
| Failures.LongSleep | pqueue.h:68 | a run from os_init in which a sleep of 40000 ticks is over after one |
| Failures.RootBelowZero | os.c:238-240 | a run from os_init with sleeps of 3, 4 and 5 ticks whose next sleep, of any length below 2^15, leaves the heap unordered |
| Failures.PostOverflow | semaphore.c:139-145 | a run from os_init whose 32768th post wakes a task that does not exist |
| Failures.EmptyPool | os.c:156 | a run from os_init in which a task that finds the pool empty is left with interrupts off |
| Failures.EmptyPoolAtBoot | os.c:156 | a run from os_init in which main finds it empty: task and ticks still start, and stop at the first critical section |
| Failures.LeakEndsTicks | os.c:364-372 | once main has left a section open, no tick follows any critical section of any task, in whatever state |
| Overload.ShortSleepLastsLong | os.c:238-240 | a run from os_init with sleeps of 20000, 20000 and 100 ticks after which, whatever the tasks do short of another sleep, the last takes more than 25600 ticks |
| Overload.SecondOverloads | os.c:238-240 | its second sleep is the one that makes the ticks in the heap add up to 2^15 or more |
| Deadlines.WokenEarly | os.c:238-240 | a run from os_init in which a task that sleeps for 6 ticks is runnable after 5 |
| SharedLinks.StepLinks | pool.h:21-51 | a step keeps the links in memory those of the free list if and only if it is not a tick that saves the context of a dead task |
| SharedLinks.RunLinks | pool.h:21-51 | over whole runs they are so at the end if and only if no such tick was on the way: nothing mends them |
| SharedLinks.LinksFromInit | pool.h:28-36 | so it is from os_init on |
| SharedLinks.KillLosesPool | os.c:187-199 | in every state the kill and the tick that has to follow leave the dead slot to the next create, and after it a pointer into its stack as the head of the free list |
| SharedLinks.SecondCreateWild | os.c:187-199 | a run from os_init in which the second create after a kill finds such a head although a slot is free |
| Failures.IteratorLost | os.c:289-305 | a run of eight steps from os_init that ends with run_ptr computed from a NULL iterator |

## Left out

- krnl_swtch.asm, stack frames, port and watchdog registers and low-power mode are hardware; a tick is only "os_update, then os_schedule", and in SharedLinks the word that the save writes.
- sem_timedwait, mtx_timedlock, os_task_timedwait and the second loop of os_update: on expiry they can release a different waiter (semaphore.c:98-101) or panic (mutex.c:114-117), so the intended contract does not hold.
- mtx_trylock (its test at mutex.c:135 is the inverse of its comment), the destroy functions, and the queue clear (queue.h:82 pastes a name that is no macro parameter).
- Queue front and back (no wrap-around of the index, queue.h:84-101), and with them the return value that os_task_exit writes to the joiner's mbox (os.c:333-338).
- What a task does once interrupts stay off (`Kernel.Masked`): calls that should block then return. Kernel runs end there.
- Os.System.Create: does not count how many sections a failed create left open, only whether any is; main makes no other calls than creates before the launch.
- Kernel runs also end in os_panic; what it does after that, and os_exit, are not modelled.
- Pool.Allocator.Free: keeps link and payload in separate fields; what the union of link and saved stack pointer does (pool.h:21-24) is stated by SharedLinks on values, up to the create that takes a wild head.
- os_tick_cnt and os_time; os_task_detach, which does nothing.
- Signed overflow in the heap is taken to wrap round as the MSP430 does; C leaves it undefined (a sleep of exactly 2^15 ticks alone, and a rebase below -2^15).
- Kernel.Exit is not enabled when the join semaphore is out of step, which only a post at 32767 makes it; the wake loop then depends on a queue of which nothing is known.
- Kernel priorities are unbounded: a boost that adds to a slice (mutex.c:64) does not wrap.
- SleepTick.WakeOrder: with pushes in between nothing is claimed. Deadlines are stated for one sleeper (SleepTick.LoneSleeper) and for two (Deadlines.SecondSleepExact); for more, whom each tick wakes (Wakeups.TickWakesExactly).
- The gap inside os_task_sleep (os.c:301-303), in which a tick could wake a task that is not yet off the run queue.
- BarrierProofs.BarrierSafety: the update and test of the count is one step; it happens inside the barrier's own mutex.
- Mutexes.MutualExclusion: recursive locking and the death of a task that owes an unlock are excluded, as the code gives them no meaning.
- Inheritance.PriorityInheritance: tasks that hold two mutexes, or wait while holding one, are excluded there; what then happens is stated by NestedUnlock and BoostStopsAtWaiter.
- sem_init and mtx_init at run time on an object in use, other than the join semaphore of a new task.
- The identity of a joined thread: a join is a sem_wait on the join semaphore of its slot.
- uart_printf's format dispatch, UART I/O and the demo threads of main.c; a character sent is a character appended to the output.
