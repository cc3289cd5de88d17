/**
 What a step does to the control block of every task and to the run queue, field by field, and what
 that means over whole runs: whose priority is whose, how long a turn lasts, who panics.
 */
module Effects {
  import opened Cursors
  import opened SleepHeap
  import opened SleepTick
  import opened Semaphores
  import opened Kernel
  import opened Conservation
  import opened Steps
  import opened Invariants
  import opened Dispatch
  import opened Mutexes
  import opened Sleeping

  // ---------- the control blocks ----------

  /** A lock by the running task of a mutex that somebody holds. */
  predicate Contends(k: State, op: Op) {
    op.Lock? && op.mtx < |k.mtxs| && k.mtxs[op.mtx].holder.Some?
  }

  /** An unlock by a task that does not hold the mutex. */
  predicate Stranger(k: State, op: Op) {
    op.Unlock? && op.mtx < |k.mtxs| && k.run.Thread? && k.mtxs[op.mtx].holder != Some(k.run.task)
  }

  /** The tasks that a step other than the tick makes runnable, in order. */
  ghost function Woken(k: State, op: Op): seq<nat>
    requires Enabled(k, op)
  {
    match op
    case SemPost(s) => if Post(k.sems[s]).release.Waiter? then [k.sems[s].wq[0]] else []
    case Unlock(m) => if !Stranger(k, op) && k.mtxs[m].wq != [] then [k.mtxs[m].wq[0]] else []
    case Exit => k.sems[k.run.task].wq
    case _ => []
  }

  /** The slot that a create fills. */
  predicate Creates(k: State, op: Op, u: nat) {
    op.Create? && op.priority > 0 && k.free != [] && k.free[0] == u
  }

  /** The state of task u after a step other than the tick: its own blocking, or its waking. */
  ghost function StateAfter(k: State, op: Op, u: nat): TaskState
    requires Enabled(k, op)
  {
    if Creates(k, op, u) || u in Woken(k, op) then ACTIVE
    else if k.run == Thread(u) && op.Sleep? && op.ticks > 0 then SLEEPING
    else if k.run == Thread(u) && Blocks(k, op) then BLOCKING
    else TaskOf(k, u).state
  }

  /** The slice: set by a create, a sleep and a hand-over, raised by a boost, else left alone. */
  ghost function SliceAfter(k: State, op: Op, u: nat): nat
    requires Enabled(k, op)
  {
    var x := TaskOf(k, u);
    if Creates(k, op, u) then op.priority
    else if op.Unlock? && u in Woken(k, op) then TaskOf(k, k.run.task).fixed
    else if k.run == Thread(u) && op.Sleep? && op.ticks > 0 then x.fixed
    else if Contends(k, op) && k.mtxs[op.mtx].holder == Some(u) && TaskOf(k, k.run.task).fixed > x.fixed then
      x.working + (TaskOf(k, k.run.task).fixed - x.fixed)
    else x.working
  }

  /** The priority: set by a create, inherited through a lock or a hand-over, given back by an unlock. */
  ghost function PriorityAfter(k: State, op: Op, u: nat): nat
    requires Enabled(k, op)
  {
    var x := TaskOf(k, u);
    if Creates(k, op, u) then op.priority
    else if op.Unlock? && u in Woken(k, op) then TaskOf(k, k.run.task).fixed
    else if op.Unlock? && !Stranger(k, op) && k.run == Thread(u) then x.base
    else if Contends(k, op) && k.mtxs[op.mtx].holder == Some(u) && TaskOf(k, k.run.task).fixed > x.fixed then
      TaskOf(k, k.run.task).fixed
    else x.fixed
  }

  /** The control block of task u after a step other than the tick. */
  ghost function TaskAfter(k: State, op: Op, u: nat): Task
    requires Enabled(k, op)
  {
    Task(if Creates(k, op, u) then op.priority else TaskOf(k, u).base,
         PriorityAfter(k, op, u), SliceAfter(k, op, u), StateAfter(k, op, u))
  }

  lemma CreateTask(k: State, op: Op, u: nat)
    requires WellFormed(k) && Enabled(k, op) && op.Create? && u < k.n
    ensures TaskOf(DoCreate(k, op.priority), u) == TaskAfter(k, op, u)
  {
    if k.free != [] {
      FreeInPool(k);
    }
  }

  lemma SleepTask(k: State, op: Op, u: nat)
    requires WellFormed(k) && Enabled(k, op) && op.Sleep? && u < k.n
    ensures TaskOf(DoSleep(k, k.run.task, op.ticks), u) == TaskAfter(k, op, u)
  {
  }

  lemma WaitTask(k: State, op: Op, u: nat)
    requires WellFormed(k) && Enabled(k, op) && op.SemWait? && u < k.n
    ensures TaskOf(DoSemWait(k, k.run.task, op.sem), u) == TaskAfter(k, op, u)
  {
  }

  lemma PostTask(k: State, op: Op, u: nat)
    requires WellFormed(k) && Enabled(k, op) && op.SemPost? && u < k.n
    ensures TaskOf(DoSemPost(k, op.sem), u) == TaskAfter(k, op, u)
  {
  }

  lemma LockTask(k: State, op: Op, u: nat)
    requires WellFormed(k) && Enabled(k, op) && op.Lock? && u < k.n
    ensures TaskOf(DoLock(k, k.run.task, op.mtx), u) == TaskAfter(k, op, u)
  {
  }

  lemma UnlockTask(k: State, op: Op, u: nat)
    requires WellFormed(k) && Enabled(k, op) && op.Unlock? && u < k.n
    ensures TaskOf(DoUnlock(k, k.run.task, op.mtx), u) == TaskAfter(k, op, u)
  {
    if k.mtxs[op.mtx].wq != [] {
      WaiterNotRunning(k, op.mtx);
    }
  }

  lemma {:induction false} JoinersTask(k: State, t: nat, u: nat)
    requires t < |k.sems| && Agrees(k.sems[t]) && u < |k.tasks|
    ensures TaskOf(WakeJoiners(k, t), u) ==
            if u in k.sems[t].wq then TaskOf(k, u).(state := ACTIVE) else TaskOf(k, u)
    decreases |k.sems[t].wq|
  {
    if k.sems[t].wq != [] {
      PostAgrees(k.sems[t]);
      assert k.sems[t].wq == [k.sems[t].wq[0]] + k.sems[t].wq[1..];
      JoinersTask(DoSemPost(k, t), t, u);
    }
  }

  /** Every step but the tick, for every task: the whole control block. */
  lemma StepTask(k: State, op: Op, u: nat)
    requires WellFormed(k) && Enabled(k, op) && op != Tick && u < k.n
    ensures TaskOf(Next(k, op), u) == TaskAfter(k, op, u)
  {
    hide DoCreate, DoSleep, DoSemWait, DoSemPost, DoLock, DoUnlock, WakeJoiners;
    match op
    case Create(_) => CreateTask(k, op, u);
    case Launch =>
    case Sleep(_) => SleepTask(k, op, u);
    case SemWait(_) => WaitTask(k, op, u);
    case SemTryWait(_) =>
    case SemPost(_) => PostTask(k, op, u);
    case Lock(_) => LockTask(k, op, u);
    case Unlock(_) => UnlockTask(k, op, u);
    case Exit => JoinersTask(k, k.run.task, u);
    case Kill =>
  }

  // ---------- the run queue ----------

  /** A task that blocks or dies leaves; whom a step creates or wakes joins at the end. */
  ghost function QueueAfter(k: State, op: Op): seq<nat>
    requires Enabled(k, op)
  {
    if Blocks(k, op) || op == Kill then Without(k.runq, k.run.task)
    else if op.Create? && op.priority > 0 && k.free != [] then k.runq + [k.free[0]]
    else k.runq + Woken(k, op)
  }

  lemma CreateRunQueue(k: State, op: Op)
    requires WellFormed(k) && Enabled(k, op) && op.Create?
    ensures DoCreate(k, op.priority).runq == QueueAfter(k, op)
  {
    if k.free != [] {
      FreeInPool(k);
    }
  }

  lemma SleepRunQueue(k: State, op: Op)
    requires WellFormed(k) && Enabled(k, op) && op.Sleep?
    ensures DoSleep(k, k.run.task, op.ticks).runq == QueueAfter(k, op)
  {
  }

  lemma WaitRunQueue(k: State, op: Op)
    requires WellFormed(k) && Enabled(k, op) && op.SemWait?
    ensures DoSemWait(k, k.run.task, op.sem).runq == QueueAfter(k, op)
  {
  }

  lemma PostRunQueue(k: State, op: Op)
    requires WellFormed(k) && Enabled(k, op) && op.SemPost?
    ensures DoSemPost(k, op.sem).runq == QueueAfter(k, op)
  {
    if k.sems[op.sem].wq != [] {
      ReleasedNotRunning(k, op.sem);
    }
  }

  lemma LockRunQueue(k: State, op: Op)
    requires WellFormed(k) && Enabled(k, op) && op.Lock?
    ensures DoLock(k, k.run.task, op.mtx).runq == QueueAfter(k, op)
  {
  }

  lemma UnlockRunQueue(k: State, op: Op)
    requires WellFormed(k) && Enabled(k, op) && op.Unlock?
    ensures DoUnlock(k, k.run.task, op.mtx).runq == QueueAfter(k, op)
  {
    if k.mtxs[op.mtx].wq != [] {
      WaiterNotRunning(k, op.mtx);
    }
  }

  lemma {:induction false} JoinersRunQueue(k: State, t: nat)
    requires WellFormed(k) && t < |k.sems| && Agrees(k.sems[t])
    ensures WakeJoiners(k, t).runq == k.runq + k.sems[t].wq
    decreases |k.sems[t].wq|
  {
    hide DoSemPost;
    if k.sems[t].wq == [] {
      assert k.runq + [] == k.runq;
    } else {
      PostAgrees(k.sems[t]);
      PostWellFormed(k, t);
      NextJoiner(k, t);
      JoinersRunQueue(DoSemPost(k, t), t);
    }
  }

  lemma NextJoiner(k: State, t: nat)
    requires Single(k) && t < |k.sems| && Agrees(k.sems[t]) && k.sems[t].wq != []
    ensures var r := DoSemPost(k, t); var q := k.sems[t].wq;
            r.sems[t].wq == q[1..] && r.runq + q[1..] == k.runq + q
  {
    var w := k.sems[t].wq[0];
    PostAgrees(k.sems[t]);
    ReleasedNotRunning(k, t);
    assert DoSemPost(k, t).runq == k.runq + [w];
    assert [w] + k.sems[t].wq[1..] == k.sems[t].wq;
  }

  /** Every step but the tick: the whole run queue, in order. */
  lemma StepRunQueue(k: State, op: Op)
    requires WellFormed(k) && Enabled(k, op) && op != Tick
    ensures Next(k, op).runq == QueueAfter(k, op)
  {
    hide DoCreate, DoSleep, DoSemWait, DoSemPost, DoLock, DoUnlock, WakeJoiners;
    match op
    case Create(_) => CreateRunQueue(k, op);
    case Launch => assert k.runq + [] == k.runq;
    case Sleep(_) => SleepRunQueue(k, op);
    case SemWait(_) => WaitRunQueue(k, op);
    case SemTryWait(_) => assert k.runq + [] == k.runq;
    case SemPost(_) => PostRunQueue(k, op);
    case Lock(_) => LockRunQueue(k, op);
    case Unlock(_) => UnlockRunQueue(k, op);
    case Exit => JoinersRunQueue(k, k.run.task);
    case Kill =>
  }
  // ---------- the iterator ----------

  /** Whoever leaves the run queue takes the iterator one back; a join to an empty queue rebuilds it. */
  ghost function CursorAfter(k: State, op: Op): Cursor
    requires Enabled(k, op)
  {
    if op == Launch then (if k.runq == [] then k.cursor else Forward(k.runq, k.cursor))
    else if Blocks(k, op) || op == Kill then Backward(k.runq, k.cursor)
    else if k.runq == [] && QueueAfter(k, op) != [] then Head
    else k.cursor
  }

  lemma CreateCursor(k: State, op: Op)
    requires WellFormed(k) && Enabled(k, op) && op.Create?
    ensures DoCreate(k, op.priority).cursor == CursorAfter(k, op)
  {
  }

  lemma LeaveCursor(k: State, op: Op)
    requires WellFormed(k) && Enabled(k, op) && (op.Sleep? || op.SemWait? || op.Lock?)
    ensures op.Sleep? ==> DoSleep(k, k.run.task, op.ticks).cursor == CursorAfter(k, op)
    ensures op.SemWait? ==> DoSemWait(k, k.run.task, op.sem).cursor == CursorAfter(k, op)
    ensures op.Lock? ==> DoLock(k, k.run.task, op.mtx).cursor == CursorAfter(k, op)
  {
  }

  lemma WakeCursor(k: State, op: Op)
    requires WellFormed(k) && Enabled(k, op) && (op.SemPost? || op.Unlock?)
    ensures op.SemPost? ==> DoSemPost(k, op.sem).cursor == k.cursor
    ensures op.Unlock? ==> DoUnlock(k, k.run.task, op.mtx).cursor == k.cursor
  {
  }

  lemma {:induction false} JoinersCursor(k: State, t: nat)
    requires WellFormed(k) && t < |k.sems| && Agrees(k.sems[t]) && k.runq != []
    ensures WakeJoiners(k, t).cursor == k.cursor
    decreases |k.sems[t].wq|
  {
    if k.sems[t].wq != [] {
      PostAgrees(k.sems[t]);
      PostWellFormed(k, t);
      ReleasedNotRunning(k, t);
      JoinersCursor(DoSemPost(k, t), t);
    }
  }

  /** Every step but the tick: where the iterator stands. */
  lemma StepCursor(k: State, op: Op)
    requires WellFormed(k) && Enabled(k, op) && op != Tick
    ensures Next(k, op).cursor == CursorAfter(k, op)
  {
    hide DoCreate, DoSleep, DoSemWait, DoSemPost, DoLock, DoUnlock, WakeJoiners;
    match op
    case Create(_) => CreateCursor(k, op);
    case Launch =>
    case Sleep(_) => LeaveCursor(k, op);
    case SemWait(_) => LeaveCursor(k, op);
    case SemTryWait(_) =>
    case SemPost(_) => WakeCursor(k, op);
    case Lock(_) => LeaveCursor(k, op);
    case Unlock(_) => WakeCursor(k, op);
    case Exit => JoinersCursor(k, k.run.task);
    case Kill =>
  }

  // ---------- the mutexes ----------

  /** A lock takes a free mutex or queues behind its holder; an unlock hands it to the longest waiter. */
  ghost function MutexAfter(k: State, op: Op, m: nat): Mutex
    requires Enabled(k, op) && m < |k.mtxs|
  {
    var x := k.mtxs[m];
    if op == Lock(m) then
      if x.holder == None then Mutex(Some(k.run.task), x.wq) else Mutex(x.holder, x.wq + [k.run.task])
    else if op == Unlock(m) && !Stranger(k, op) then
      if x.wq == [] then Mutex(None, []) else Mutex(Some(x.wq[0]), x.wq[1..])
    else x
  }

  lemma LockMutex(k: State, l: nat, m: nat)
    requires WellFormed(k) && Enabled(k, Lock(l)) && m < |k.mtxs|
    ensures var r := DoLock(k, k.run.task, l); |r.mtxs| == |k.mtxs| && r.mtxs[m] == MutexAfter(k, Lock(l), m)
  {
    NotWaiting(k, k.run.task, l);
  }

  lemma UnlockMutex(k: State, l: nat, m: nat)
    requires WellFormed(k) && Enabled(k, Unlock(l)) && m < |k.mtxs|
    ensures var r := DoUnlock(k, k.run.task, l); |r.mtxs| == |k.mtxs| && r.mtxs[m] == MutexAfter(k, Unlock(l), m)
  {
  }

  /** Every step, for every mutex. A task that locks what it holds waits for itself. */
  lemma StepMutex(k: State, op: Op, m: nat)
    requires WellFormed(k) && Enabled(k, op) && m < |k.mtxs|
    ensures |Next(k, op).mtxs| == |k.mtxs| && Next(k, op).mtxs[m] == MutexAfter(k, op, m)
  {
    hide DoCreate, DoTick, DoSleep, DoSemWait, DoSemPost, DoLock, DoUnlock, WakeJoiners;
    match op
    case Create(priority) => CreateQueue(k, priority);
    case Lock(l) => LockMutex(k, l, m);
    case Unlock(l) => UnlockMutex(k, l, m);
    case _ => OtherPriorities(k, op);
  }

  // ---------- the sleep heap ----------

  /**
   Every step: only a sleep that finds a slot adds to the heap, and it adds the sleeper with the ticks
   it asked for, stored as an int; only the tick takes from it.
   */
  lemma StepHeap(k: State, op: Op)
    requires WellFormed(k) && Enabled(k, op)
    ensures Next(k, op).sleep ==
            if op == Tick then HeapTick(k.sleep).heap
            else if op.Sleep? && op.ticks > 0 && |k.sleep| + 1 < k.n then
              Push(k.sleep, op.ticks, Node(Signed(op.ticks), k.run.task, op.ticks))
            else k.sleep
  {
    hide Push, HeapTick;
    if op == Tick {
      UpdateEffect(k);
    } else if !op.Sleep? || op.ticks == 0 {
      OtherSleep(k, op);
    }
  }

  // ---------- the tick ----------

  /** What os_schedule does to the control block of the task it interrupts, if anybody is runnable. */
  function Charged(x: Task): Task {
    if x.state != ACTIVE || x.working == 1 then x.(working := x.fixed)
    else x.(working := if x.working == 0 then WORD - 1 else x.working - 1)
  }

  /** The tick: sleepers wake, and only the interrupted task uses up or renews its slice. */
  lemma TickTask(k: State, u: nat)
    requires WellFormed(k) && Enabled(k, Tick) && u < k.n
    ensures var woken := HeapTick(k.sleep).woken;
            var x := if u in woken then TaskOf(k, u).(state := ACTIVE) else TaskOf(k, u);
            TaskOf(DoTick(k), u) == if k.run == Thread(u) && k.runq + woken != [] then Charged(x) else x
  {
    UpdateEffect(k);
  }

  /** The tick: the woken tasks join the run queue, and no more sleepers of a due root are left than half. */
  lemma TickWakes(k: State)
    requires WellFormed(k) && Enabled(k, Tick)
    ensures var r := DoTick(k);
            && r.runq == k.runq + HeapTick(k.sleep).woken && |r.sleep| + |r.runq| == |k.sleep| + |k.runq|
            && (|r.sleep| == |k.sleep| / 2 || (r.sleep != [] && r.sleep[0].priority > 0))
  {
    UpdateEffect(k);
    TickStops(k.sleep);
  }

  // ---------- who runs after a step ----------

  /** The steps of a task after which it does not run on as a member of the run queue. */
  ghost predicate GivesUp(k: State, op: Op)
    requires Enabled(k, op)
  {
    || Blocks(k, op) || op == Kill || Stranger(k, op)
    || (op.SemPost? && Post(k.sems[op.sem]).release == Garbage)
    || (op.Create? && op.priority > 0 && k.free == [])
    || (k.leaked && Critical(op))
  }

  /** os_panic is where an unlock by a task that does not hold the mutex ends, and nothing else. */
  lemma PanicsExactly(k: State, op: Op)
    requires WellFormed(k) && Enabled(k, op)
    ensures Next(k, op).run == Panic <==> Stranger(k, op)
    ensures Stranger(k, op) ==> Next(k, op) == k.(run := Panic)
  {
    RunAfter(k, op);
  }

  /** run_ptr changes only by the tick, the start and the ways in which the kernel comes to an end. */
  lemma RunAfter(k: State, op: Op)
    requires WellFormed(k) && Enabled(k, op)
    ensures op != Tick && op != Launch ==>
              Act(k, op).run == if Stranger(k, op) then Panic
                                else if op.SemPost? && Post(k.sems[op.sem]).release == Garbage then Wild
                                else if op.Create? && op.priority > 0 && k.free == [] && k.run != Boot then Masked
                                else k.run
    ensures op == Tick || op == Launch ==> Act(k, op).run in {Idle, Wild} || Act(k, op).run.Thread?
    ensures op != Tick && k.run != Boot ==> Act(k, op).leaked == k.leaked
  {
    hide DoTick, DoSleep, DoSemWait, DoLock, DoUnlock, WakeJoiners;
    match op
    case Create(_) =>
    case Launch =>
    case Tick => TickRun(k);
    case Sleep(ticks) => SleepRun(k, k.run.task, ticks);
    case SemWait(s) => WaitRun(k, k.run.task, s);
    case SemTryWait(_) =>
    case SemPost(_) =>
    case Lock(m) => LockRun(k, k.run.task, m);
    case Unlock(m) => UnlockRun(k, k.run.task, m);
    case Exit => JoinersRun(k, k.run.task);
    case Kill =>
  }

  lemma TickRun(k: State)
    requires WellFormed(k) && Enabled(k, Tick)
    ensures DoTick(k).run in {Idle, Wild} || DoTick(k).run.Thread?
  {
    UpdateEffect(k);
  }

  lemma SleepRun(k: State, t: nat, ticks: nat)
    ensures DoSleep(k, t, ticks).run == k.run && DoSleep(k, t, ticks).leaked == k.leaked
  {
  }

  lemma WaitRun(k: State, t: nat, s: nat)
    requires s < |k.sems|
    ensures DoSemWait(k, t, s).run == k.run && DoSemWait(k, t, s).leaked == k.leaked
  {
  }

  lemma LockRun(k: State, t: nat, m: nat)
    requires m < |k.mtxs|
    ensures DoLock(k, t, m).run == k.run && DoLock(k, t, m).leaked == k.leaked
  {
  }

  lemma UnlockRun(k: State, t: nat, m: nat)
    requires m < |k.mtxs|
    ensures DoUnlock(k, t, m).run == (if k.mtxs[m].holder == Some(t) then k.run else Panic)
    ensures DoUnlock(k, t, m).leaked == k.leaked
  {
  }

  lemma {:induction false} JoinersRun(k: State, t: nat)
    requires t < |k.sems| && Agrees(k.sems[t])
    ensures WakeJoiners(k, t).run == k.run && WakeJoiners(k, t).leaked == k.leaked
    decreases |k.sems[t].wq|
  {
    if k.sems[t].wq != [] {
      PostAgrees(k.sems[t]);
      JoinersRun(DoSemPost(k, t), t);
    }
  }

  /** Every other step leaves the running task running and runnable, with the slice that it had. */
  lemma StepStays(k: State, op: Op)
    requires WellFormed(k) && Enabled(k, op) && op != Tick && Runnable(k)
    ensures (Next(k, op).run == k.run && k.run.task in Next(k, op).runq) <==> !GivesUp(k, op)
    ensures !GivesUp(k, op) ==> TaskOf(Next(k, op), k.run.task).working == TaskOf(k, k.run.task).working
    ensures !GivesUp(k, op) && TaskOf(k, k.run.task).state == ACTIVE ==> TaskOf(Next(k, op), k.run.task).state == ACTIVE
  {
    hide Act;
    RunnableIsOnlyThere(k, k.run.task);
    RunAfter(k, op);
    StepRunQueue(k, op);
    StepTask(k, op, k.run.task);
    if op.Unlock? && k.mtxs[op.mtx].wq != [] {
      WaiterNotRunning(k, op.mtx);
    }
    LeavesQueue(k, k.run.task);
  }
}
