/** The run queue, its iterator and the running task: what the scheduler keeps, and where it fails. */
module Dispatch {
  import opened Sequences
  import opened Cursors
  import opened SleepTick
  import opened Semaphores
  import opened Kernel
  import opened Conservation
  import opened Steps
  import opened Invariants

  /** On a non-empty run queue the iterator stands on the pseudo head or on a member. */
  ghost predicate CursorOk(k: State) {
    k.runq != [] ==> k.cursor == Head || (k.cursor.On? && k.cursor.task in k.runq)
  }

  /** A running member of the run queue is where the iterator stands; the idle thread runs alone. */
  ghost predicate Coupled(k: State) {
    && CursorOk(k)
    && (Runnable(k) ==> k.cursor == On(k.run.task))
    && (k.run == Idle ==> k.runq == [])
  }

  /** The tick wakes the very task it interrupted, and leaves it time to run on. */
  predicate Readds(k: State) {
    k.run.Thread? && k.run.task in HeapTick(k.sleep).woken && TaskOf(k, k.run.task).working != 1
  }

  lemma BackwardOther(s: seq<nat>, t: nat)
    requires Distinct(s) && t in s && |s| > 1
    ensures var c := Backward(s, On(t)); c.On? && c.task in s && c.task != t
  {
    var i := IndexOf(s, t);
    assert s[if i > 0 then i - 1 else |s| - 1] != s[i];
  }

  lemma WithoutMember(s: seq<nat>, t: nat, u: nat)
    requires Distinct(s) && t in s
    ensures u in Without(s, t) <==> u in s && u != t
    ensures |Without(s, t)| == |s| - 1
  {
    var i := IndexOf(s, t);
    RemoveDistinct(s, i);
    if u in s && u != t {
      var j :| 0 <= j < |s| && s[j] == u;
      assert Without(s, t)[if j < i then j else j - 1] == u;
    }
  }

  /** Removing the running task leaves the iterator on its predecessor, which is still a member. */
  lemma DelTaskCursor(k: State, t: nat)
    requires Distinct(k.runq) && t in k.runq && k.active == |k.runq| && k.cursor == On(t)
    ensures CursorOk(DelTask(k, t)) && t !in DelTask(k, t).runq
  {
    var r := DelTask(k, t);
    WithoutMember(k.runq, t, t);
    if r.runq != [] {
      BackwardOther(k.runq, t);
      WithoutMember(k.runq, t, r.cursor.task);
    }
  }

  /**
   While the iterator stands on the pseudo head, as after a tick that re-added the interrupted task to
   an empty run queue, removing a task leaves it off the list exactly if it was the last of several.
   */
  lemma DelTaskFromHead(k: State, t: nat)
    requires Distinct(k.runq) && t in k.runq && k.active == |k.runq| && k.cursor == Head
    ensures DelTask(k, t).cursor == On(k.runq[|k.runq| - 1])
    ensures CursorOk(DelTask(k, t)) <==> |k.runq| == 1 || k.runq[|k.runq| - 1] != t
  {
    WithoutMember(k.runq, t, t);
    WithoutMember(k.runq, t, k.runq[|k.runq| - 1]);
  }

  // ---------- the tick ----------

  lemma ForwardOk(s: seq<nat>, c: Cursor)
    requires s != [] && (c == Head || (c.On? && c.task in s))
    ensures Forward(s, c).On? && Forward(s, c).task in s
  {
  }

  /** The states a scheduler call can meet after os_update, and what it makes of each. */
  lemma ScheduleOutcome(k: State)
    requires Sound(k) && CursorOk(k) && (k.run.Thread? || k.run == Idle)
    ensures var r := Schedule(k);
            && CursorOk(r) && r.runq == k.runq && (r.run == Idle <==> k.runq == [])
            && (k.runq != [] ==> r.run.Thread?)
            && (k.runq != [] && Switches(k)
                ==> r.cursor == On(r.run.task) == Forward(k.runq, k.cursor) && r.run.task in r.runq)
            && (k.runq != [] && !Switches(k)
                ==> r.run == k.run && r.cursor == k.cursor)
  {
    if k.runq != [] {
      ForwardOk(k.runq, k.cursor);
    }
  }

  lemma UpdateCursor(k: State)
    requires Sound(k) && CursorOk(k)
    ensures CursorOk(Update(k)) && Sound(Update(k)) && Update(k).run == k.run
  {
    UpdateEffect(k);
    UpdateSound(k);
    var d := HeapTick(k.sleep);
    if k.runq != [] && k.cursor.On? {
      assert k.cursor.task in k.runq + d.woken;
    }
  }

  /**
   After every tick the idle thread runs exactly when the run queue is empty, and the running task
   is ACTIVE: it is on the run queue, or it is a task that was killed with time left.
   */
  lemma DispatchSound(k: State)
    requires Sound(k) && CursorOk(k) && Enabled(k, Tick)
    ensures var r := DoTick(k);
            && Sound(r) && CursorOk(r)
            && (r.run == Idle <==> r.runq == [])
            && (r.runq != [] ==> r.run.Thread? && TaskOf(r, r.run.task).state == ACTIVE
                                 && (r.run.task in r.runq || r.run.task in r.free))
  {
    var u := Update(k);
    var r := DoTick(k);
    UpdateCursor(k);
    ScheduleOutcome(u);
    ScheduleSound(u);
    if r.runq != [] {
      var t := r.run.task;
      assert Places(r, t) == 1;
      assert Fits(r, t);
      TimesIn(r.runq, t);
      TimesIn(r.free, t);
    }
  }

  /** A tick keeps iterator and running task together exactly unless it re-adds the interrupted task. */
  lemma TickCoupled(k: State)
    requires Sound(k) && Coupled(k) && Enabled(k, Tick)
    ensures Coupled(DoTick(k)) <==> !Readds(k)
  {
    var u := Update(k);
    UpdateCursor(k);
    UpdateEffect(k);
    ScheduleOutcome(u);
    if k.run.Thread? {
      var t := k.run.task;
      var woken := HeapTick(k.sleep).woken;
      assert t in u.runq <==> t in k.runq || t in woken;
      if t in k.runq {
        RunnableIsOnlyThere(k, t);
      }
      if t in u.runq {
        RunnableIsOnlyThere(u, t);
      }
    }
  }

  // ---------- every step ----------

  lemma LeaveCoupled(k: State, k': State, t: nat)
    requires Sound(k) && Coupled(k) && k.run == Thread(t) && t in k.runq
    requires var j := k.(tasks := k'.tasks, free := k'.free, sleep := k'.sleep, sems := k'.sems, mtxs := k'.mtxs);
             k' == DelTask(j, t)
    ensures Coupled(k') && t !in k'.runq
  {
    QueuesDistinct(k);
    DelTaskCursor(k, t);
  }

  lemma AppendCoupled(k: State, k': State, w: nat)
    requires Coupled(k) && k.active == |k.runq| && (k.run == Boot || Runnable(k))
    requires k'.runq == k.runq + [w] && k'.run == k.run
    requires k'.cursor == if k.active == 0 then Head else k.cursor
    ensures Coupled(k')
  {
    if k.runq != [] && k.cursor.On? {
      assert k.cursor.task in k'.runq;
    }
  }

  lemma PostCoupled(k: State, s: nat)
    requires Sound(k) && Coupled(k) && Runnable(k) && s < |k.sems|
    ensures var r := DoSemPost(k, s);
            Coupled(r) && (r.run == k.run || (r.run == Wild && Post(k.sems[s]).release == Garbage)) && k.runq <= r.runq
  {
    var p := Post(k.sems[s]);
    if p.release.Waiter? {
      ReleasedNotRunning(k, s);
      AppendCoupled(k, DoSemPost(k, s), p.release.task);
    }
  }

  lemma {:induction false} JoinersCoupled(k: State, t: nat)
    requires Sound(k) && Coupled(k) && Runnable(k) && t < |k.sems| && Agrees(k.sems[t])
    ensures var r := WakeJoiners(k, t);
            Coupled(r) && r.run == k.run && r.leaked == k.leaked && k.runq <= r.runq
    decreases |k.sems[t].wq|
  {
    if k.sems[t].wq != [] {
      SemPostSound(k, t);
      PostAgrees(k.sems[t]);
      PostCoupled(k, t);
      JoinersCoupled(DoSemPost(k, t), t);
    }
  }

  lemma CreateCoupled(k: State, priority: nat)
    requires Sound(k) && Coupled(k) && (k.run == Boot || Runnable(k))
    ensures Coupled(DoCreate(k, priority))
  {
    if priority > 0 && k.free != [] {
      FreeInPool(k);
      AppendCoupled(k, DoCreate(k, priority), k.free[0]);
    }
  }

  lemma SleepCoupled(k: State, ticks: nat)
    requires Sound(k) && Coupled(k) && Runnable(k)
    ensures Coupled(DoSleep(k, k.run.task, ticks))
  {
    if ticks > 0 {
      LeaveCoupled(k, DoSleep(k, k.run.task, ticks), k.run.task);
    }
  }

  lemma WaitCoupled(k: State, s: nat)
    requires Sound(k) && Coupled(k) && Runnable(k) && s < |k.sems|
    ensures Coupled(DoSemWait(k, k.run.task, s))
  {
    if Wait(k.sems[s], k.run.task, k.n).blocks {
      LeaveCoupled(k, DoSemWait(k, k.run.task, s), k.run.task);
    }
  }

  lemma LockCoupled(k: State, m: nat)
    requires Sound(k) && Coupled(k) && Runnable(k) && m < |k.mtxs|
    ensures Coupled(DoLock(k, k.run.task, m))
  {
    if k.mtxs[m].holder.Some? {
      LeaveCoupled(k, DoLock(k, k.run.task, m), k.run.task);
    }
  }

  lemma UnlockCoupled(k: State, m: nat)
    requires Sound(k) && Coupled(k) && Runnable(k) && m < |k.mtxs|
    ensures Coupled(DoUnlock(k, k.run.task, m))
  {
    if k.mtxs[m].holder == Some(k.run.task) && k.mtxs[m].wq != [] {
      WaiterNotRunning(k, m);
      AppendCoupled(k, DoUnlock(k, k.run.task, m), k.mtxs[m].wq[0]);
    }
  }

  lemma KillCoupled(k: State)
    requires Sound(k) && Coupled(k) && Runnable(k)
    ensures Coupled(DoKill(k, k.run.task))
  {
    LeaveCoupled(k, DoKill(k, k.run.task), k.run.task);
  }

  lemma ActCoupled(k: State, op: Op)
    requires Sound(k) && Coupled(k) && Enabled(k, op)
    ensures Coupled(Act(k, op)) <==> !(op == Tick && Readds(k))
  {
    hide DoCreate, DoTick, DoSleep, DoSemWait, DoSemPost, DoLock, DoUnlock, DoKill, WakeJoiners;
    match op
    case Create(priority) => CreateCoupled(k, priority);
    case Launch => if k.active > 0 { ForwardOk(k.runq, k.cursor); }
    case Tick => TickCoupled(k);
    case Sleep(ticks) => SleepCoupled(k, ticks);
    case SemWait(s) => WaitCoupled(k, s);
    case SemTryWait(s) =>
    case SemPost(s) => PostCoupled(k, s);
    case Lock(m) => LockCoupled(k, m);
    case Unlock(m) => UnlockCoupled(k, m);
    case Exit => JoinersCoupled(k, k.run.task);
    case Kill => KillCoupled(k);
  }

  /** Every step but a tick that re-adds the interrupted task keeps iterator and running task together. */
  lemma StepCoupled(k: State, op: Op)
    requires Sound(k) && Coupled(k) && Enabled(k, op)
    ensures Coupled(Next(k, op)) <==> !(op == Tick && Readds(k))
  {
    ActCoupled(k, op);
  }

  // ---------- every run ----------

  /** Nothing has made run_ptr undefined or left a critical section open. */
  ghost predicate Steady(k: State) {
    k.run != Wild && k.run != Masked && !k.leaked
  }

  ghost predicate Healthy(k: State) {
    Sound(k) && Coupled(k) && SemsAgree(k) && Steady(k)
  }

  /** The steps after which some part of the kernel is broken. */
  ghost predicate Harmful(k: State, op: Op)
    requires Enabled(k, op)
  {
    || !KeepsTasks(k, op)
    || (op == Tick && Readds(k))
    || (op.SemPost? && k.sems[op.sem].val == VAL_MAX)
    || (op.Create? && op.priority > 0 && k.free == [])
  }

  /** A step keeps the kernel healthy exactly when it is not one of the harmful ones. */
  lemma StepHealthy(k: State, op: Op)
    requires Healthy(k) && Enabled(k, op)
    ensures Healthy(Next(k, op)) <==> !Harmful(k, op)
  {
    StepConserves(k, op);
    StepCoupled(k, op);
    StepAgrees(k, op);
    StepRun(k, op);
  }

  lemma TickSteady(k: State)
    requires Healthy(k) && Enabled(k, Tick)
    ensures Steady(DoTick(k))
  {
    DispatchSound(k);
    UpdateEffect(k);
  }

  lemma LaunchSteady(k: State)
    requires Healthy(k) && Enabled(k, Launch)
    ensures Steady(Act(k, Launch))
  {
    if k.active > 0 {
      ForwardOk(k.runq, k.cursor);
    }
  }

  lemma SleepSteady(k: State, t: nat, ticks: nat)
    requires Steady(k)
    ensures Steady(DoSleep(k, t, ticks))
  {
  }

  lemma WaitSteady(k: State, t: nat, s: nat)
    requires Steady(k) && s < |k.sems|
    ensures Steady(DoSemWait(k, t, s))
  {
  }

  lemma LockSteady(k: State, t: nat, m: nat)
    requires Steady(k) && m < |k.mtxs|
    ensures Steady(DoLock(k, t, m))
  {
  }

  lemma UnlockSteady(k: State, t: nat, m: nat)
    requires Steady(k) && m < |k.mtxs|
    ensures Steady(DoUnlock(k, t, m))
  {
  }

  lemma PostSteady(k: State, s: nat)
    requires Healthy(k) && Enabled(k, SemPost(s))
    ensures DoSemPost(k, s).run == Wild <==> k.sems[s].val == VAL_MAX
    ensures DoSemPost(k, s).run != Masked && !DoSemPost(k, s).leaked
  {
    PostAgrees(k.sems[s]);
    PostCoupled(k, s);
  }

  /** What makes run_ptr undefined, or ends the ticks. */
  lemma ActRun(k: State, op: Op)
    requires Healthy(k) && Enabled(k, op)
    ensures Act(k, op).run == Wild <==> op.SemPost? && k.sems[op.sem].val == VAL_MAX
    ensures Act(k, op).run == Masked || Act(k, op).leaked <==> op.Create? && op.priority > 0 && k.free == []
  {
    hide DoTick, DoSleep, DoSemWait, DoSemPost, DoLock, DoUnlock, WakeJoiners;
    match op
    case Create(_) =>
    case Launch => LaunchSteady(k);
    case Tick => TickSteady(k);
    case Sleep(ticks) => SleepSteady(k, k.run.task, ticks);
    case SemWait(s) => WaitSteady(k, k.run.task, s);
    case SemTryWait(s) =>
    case SemPost(s) => PostSteady(k, s);
    case Lock(m) => LockSteady(k, k.run.task, m);
    case Unlock(m) => UnlockSteady(k, k.run.task, m);
    case Exit => JoinersCoupled(k, k.run.task);
    case Kill =>
  }

  lemma StepRun(k: State, op: Op)
    requires Healthy(k) && Enabled(k, op)
    ensures Next(k, op).run == Wild <==> op.SemPost? && k.sems[op.sem].val == VAL_MAX
    ensures Next(k, op).run == Masked || Next(k, op).leaked <==> op.Create? && op.priority > 0 && k.free == []
  {
    hide Act;
    ActRun(k, op);
  }

  ghost predicate HarmlessRun(k: State, ops: seq<Op>)
    requires IsRun(k, ops)
    decreases |ops|
  {
    ops == [] || (!Harmful(k, ops[0]) && HarmlessRun(Next(k, ops[0]), ops[1..]))
  }

  /**
   Over a whole run without harmful steps: tasks are conserved, run queue, iterator and running
   task stay together, semaphores stay in step and run_ptr stays defined.
   */
  lemma {:induction false} RunHealthy(k: State, ops: seq<Op>)
    requires Healthy(k) && IsRun(k, ops) && HarmlessRun(k, ops)
    ensures Healthy(Exec(k, ops))
    decreases |ops|
  {
    if ops != [] {
      StepHealthy(k, ops[0]);
      RunHealthy(Next(k, ops[0]), ops[1..]);
    }
  }

  /** os_init yields a healthy kernel, for every number of threads and all accepted semaphore values. */
  lemma InitialHealthy(n: nat, values: seq<nat>, mutexes: nat)
    requires n <= VAL_MAX && forall i :: 0 <= i < |values| ==> Init(values[i], n) != None
    ensures Healthy(Initial(n, values, mutexes))
  {
    InitialSound(n, values, mutexes);
  }

  /** Every state that a run of harmless steps reaches from os_init is healthy. */
  lemma HealthyFromInit(n: nat, values: seq<nat>, mutexes: nat, ops: seq<Op>)
    requires n <= VAL_MAX && forall i :: 0 <= i < |values| ==> Init(values[i], n) != None
    requires IsRun(Initial(n, values, mutexes), ops) && HarmlessRun(Initial(n, values, mutexes), ops)
    ensures Healthy(Exec(Initial(n, values, mutexes), ops))
  {
    InitialHealthy(n, values, mutexes);
    RunHealthy(Initial(n, values, mutexes), ops);
  }

  // ---------- blocking ----------

  /** Stepping back from a member, removing it and stepping forward leads to its circular successor. */
  lemma SuccessorOnList(s: seq<nat>, i: nat)
    requires Distinct(s) && i < |s| && |s| > 1
    ensures Forward(Without(s, s[i]), Backward(s, On(s[i]))) == On(s[Succ(i, |s|)])
  {
    var r := RemoveAt(s, i);
    RemoveDistinct(s, i);
    IndexOfDistinct(s, i);
    BackwardAt(s, i);
    if i > 0 {
      assert r[i - 1] == s[i - 1];
      ForwardAt(r, i - 1);
    } else {
      assert r[|s| - 2] == s[|s| - 1];
      ForwardAt(r, |s| - 2);
    }
  }

  /** Blocking the running task makes its circular successor run next, if that tick wakes nobody. */
  lemma SuccessorRuns(k: State, k': State, i: nat)
    requires Sound(k) && Coupled(k) && Sound(k') && i < |k.runq| && k.run == Thread(k.runq[i])
    requires k' == DelTask(k.(tasks := k'.tasks, sleep := k'.sleep, sems := k'.sems, mtxs := k'.mtxs), k.runq[i])
    requires TaskOf(k', k.runq[i]).state != ACTIVE
    requires HeapTick(k'.sleep).woken == []
    ensures DoTick(k').run == if |k.runq| == 1 then Idle else Thread(k.runq[Succ(i, |k.runq|)])
  {
    var s, t := k.runq, k.runq[i];
    QueuesDistinct(k);
    WithoutMember(s, t, t);
    UpdateEffect(k');
    var u := Update(k');
    assert u.runq == Without(s, t);
    if |s| > 1 {
      SuccessorOnList(s, i);
    }
  }

  /** A step that takes the running task off the run queue by blocking it or putting it to sleep. */
  ghost predicate Blocks(k: State, op: Op)
    requires Enabled(k, op)
  {
    || (op.Sleep? && op.ticks > 0)
    || (op.SemWait? && Wait(k.sems[op.sem], k.run.task, k.n).blocks)
    || (op.Lock? && k.mtxs[op.mtx].holder.Some?)
  }

  lemma BlocksLeaves(k: State, op: Op)
    requires Sound(k) && Enabled(k, op) && Blocks(k, op) && !k.leaked
    ensures var k' := Next(k, op);
            && k' == DelTask(k.(tasks := k'.tasks, sleep := k'.sleep, sems := k'.sems, mtxs := k'.mtxs), k.run.task)
            && TaskOf(k', k.run.task).state != ACTIVE
  {
    RunnableIsOnlyThere(k, k.run.task);
  }

  /** Whichever way the running task blocks, its circular successor runs next if that tick wakes nobody. */
  lemma BlockedSuccessor(k: State, op: Op, i: nat)
    requires Sound(k) && Coupled(k) && Enabled(k, op) && KeepsTasks(k, op) && Blocks(k, op)
    requires i < |k.runq| && k.run == Thread(k.runq[i]) && HeapTick(Next(k, op).sleep).woken == []
    requires Enabled(Next(k, op), Tick)
    ensures DoTick(Next(k, op)).run == if |k.runq| == 1 then Idle else Thread(k.runq[Succ(i, |k.runq|)])
  {
    StepConserves(k, op);
    BlocksLeaves(k, op);
    SuccessorRuns(k, Next(k, op), i);
  }
}
