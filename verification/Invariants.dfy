/**
 What every step keeps, whatever else has gone wrong: no slot is ever in two places, and the
 queues, the counts and the pointers stay within the pool.
 */
module Invariants {
  import opened Cursors
  import opened SleepHeap
  import opened SleepTick
  import opened Semaphores
  import opened Kernel
  import opened Conservation
  import opened Steps

  // ---------- what most steps leave alone ----------

  /** k' has the mutexes of k and, for every slot, its base and fixed priority. */
  ghost predicate SamePriorities(k: State, k': State) {
    && k'.n == k.n && k'.mtxs == k.mtxs && |k'.tasks| == |k.tasks|
    && (forall t :: 0 <= t < |k.tasks| ==> k'.tasks[t].base == k.tasks[t].base && k'.tasks[t].fixed == k.tasks[t].fixed)
  }

  lemma {:induction false} WakeAllPriorities(k: State, ts: seq<nat>)
    ensures SamePriorities(k, WakeAll(k, ts)) && WakeAll(k, ts).free == k.free
    decreases |ts|
  {
    if ts != [] {
      WakeAllPriorities(Unpause(k, ts[0]), ts[1..]);
    }
  }

  lemma {:induction false} JoinersPriorities(k: State, t: nat)
    requires t < |k.sems| && Agrees(k.sems[t])
    ensures SamePriorities(k, WakeJoiners(k, t)) && WakeJoiners(k, t).free == k.free
    decreases |k.sems[t].wq|
  {
    if k.sems[t].wq != [] {
      PostAgrees(k.sems[t]);
      JoinersPriorities(DoSemPost(k, t), t);
    }
  }

  lemma TickPriorities(k: State)
    ensures SamePriorities(k, DoTick(k)) && DoTick(k).free == k.free
  {
    hide WakeAll;
    WakeAllPriorities(k.(sleep := HeapTick(k.sleep).heap), HeapTick(k.sleep).woken);
    var u := Update(k);
    assert SamePriorities(u, Schedule(u)) && Schedule(u).free == u.free;
  }

  lemma SleepPriorities(k: State, t: nat, ticks: nat)
    ensures SamePriorities(k, DoSleep(k, t, ticks)) && DoSleep(k, t, ticks).free == k.free
  {
  }

  lemma WaitPriorities(k: State, t: nat, s: nat)
    requires s < |k.sems|
    ensures SamePriorities(k, DoSemWait(k, t, s)) && DoSemWait(k, t, s).free == k.free
  {
  }

  lemma PostPriorities(k: State, s: nat)
    requires s < |k.sems|
    ensures SamePriorities(k, DoSemPost(k, s)) && DoSemPost(k, s).free == k.free
  {
  }

  lemma KillPriorities(k: State, t: nat)
    ensures SamePriorities(k, DoKill(k, t)) && DoKill(k, t).free == [t] + k.free
  {
  }

  lemma ActPriorities(k: State, op: Op)
    requires Enabled(k, op) && !op.Create? && !op.Lock? && !op.Unlock?
    ensures SamePriorities(k, Act(k, op))
    ensures Act(k, op).free == if op == Kill then [k.run.task] + k.free else k.free
  {
    hide DoTick, DoSleep, DoSemWait, DoSemPost, DoKill, WakeJoiners;
    match op
    case Launch =>
    case Tick => TickPriorities(k);
    case Sleep(ticks) => SleepPriorities(k, k.run.task, ticks);
    case SemWait(s) => WaitPriorities(k, k.run.task, s);
    case SemTryWait(_) =>
    case SemPost(s) => PostPriorities(k, s);
    case Exit => JoinersPriorities(k, k.run.task);
    case Kill => KillPriorities(k, k.run.task);
  }

  /** Only create, lock and unlock touch mutexes or priorities. */
  lemma OtherPriorities(k: State, op: Op)
    requires Enabled(k, op) && !op.Create? && !op.Lock? && !op.Unlock?
    ensures SamePriorities(k, Next(k, op))
    ensures Next(k, op).free == if op == Kill then [k.run.task] + k.free else k.free
  {
    ActPriorities(k, op);
  }

  ghost predicate SameSize(k: State, r: State) {
    r.n == k.n && |r.mtxs| == |k.mtxs|
  }

  lemma CreateSize(k: State, priority: nat)
    ensures SameSize(k, DoCreate(k, priority))
  {
  }

  lemma LockSize(k: State, t: nat, m: nat)
    requires m < |k.mtxs|
    ensures SameSize(k, DoLock(k, t, m))
  {
  }

  lemma UnlockSize(k: State, t: nat, m: nat)
    requires m < |k.mtxs|
    ensures SameSize(k, DoUnlock(k, t, m))
  {
  }

  lemma ActSize(k: State, op: Op)
    requires Enabled(k, op)
    ensures SameSize(k, Act(k, op))
  {
    hide DoCreate, DoTick, DoSleep, DoSemWait, DoSemTryWait, DoSemPost, DoLock, DoUnlock, DoKill, WakeJoiners;
    match op
    case Create(priority) => CreateSize(k, priority);
    case Lock(m) => LockSize(k, k.run.task, m);
    case Unlock(m) => UnlockSize(k, k.run.task, m);
    case _ => ActPriorities(k, op);
  }

  /** The number of tasks and that of the mutexes are fixed. */
  lemma StepSize(k: State, op: Op)
    requires Enabled(k, op)
    ensures Next(k, op).n == k.n && |Next(k, op).mtxs| == |k.mtxs|
  {
    hide Act;
    ActSize(k, op);
  }

  // ---------- no step puts a slot in a second place ----------

  /** Slot t is in no place: not free, not runnable, not asleep, not waiting. */
  ghost predicate Nowhere(k: State, t: nat) {
    Places(k, t) == 0
  }

  /** One if t is u. */
  function Is(t: nat, u: nat): nat { if t == u then 1 else 0 }

  lemma AddPlaces(k: State, u: nat, t: nat)
    ensures Places(AddTask(k, u), t) <= Places(k, t) + Is(t, u)
  {
    TimesAppend(k.runq, u, t);
  }

  lemma DelPlaces(k: State, u: nat, t: nat)
    requires u in k.runq && (k.active == |k.runq| || u != t)
    ensures Places(DelTask(k, u), t) + Is(t, u) <= Places(k, t)
  {
    TimesWithout(k.runq, u, t);
  }

  lemma {:induction false} WakeAllPlaces(k: State, ts: seq<nat>, t: nat)
    ensures Places(WakeAll(k, ts), t) <= Places(k, t) + Times(ts, t)
    decreases |ts|
  {
    if ts != [] {
      AddPlaces(SetState(k, ts[0], ACTIVE), ts[0], t);
      TimesTail(ts, t);
      WakeAllPlaces(Unpause(k, ts[0]), ts[1..], t);
    }
  }

  lemma UpdatePlaces(k: State, t: nat)
    ensures Places(Update(k), t) <= Places(k, t)
  {
    var d := HeapTick(k.sleep);
    WokenTimes(k.sleep, t);
    WakeAllPlaces(k.(sleep := d.heap), d.woken, t);
  }

  lemma SchedulePlaces(k: State, t: nat)
    ensures Places(Schedule(k), t) == Places(k, t)
  {
    var r := Schedule(k);
    assert r == k.(tasks := r.tasks, run := r.run, cursor := r.cursor);
  }

  lemma ReleasePlaces(k: State, s: nat, x: Sem, t: nat)
    requires s < |k.sems| && k.sems[s].wq != [] && x.wq == k.sems[s].wq[1..]
    ensures Places(Unpause(k.(sems := k.sems[s := x]), k.sems[s].wq[0]), t) <= Places(k, t)
  {
    var k', w := k.(sems := k.sems[s := x]), k.sems[s].wq[0];
    SemUpdate(k, s, x, t);
    TimesTail(k.sems[s].wq, t);
    AddPlaces(SetState(k', w, ACTIVE), w, t);
  }

  lemma SemPostPlaces(k: State, s: nat, t: nat)
    requires s < |k.sems|
    ensures Places(DoSemPost(k, s), t) <= Places(k, t)
  {
    var p := Post(k.sems[s]);
    if p.release.Waiter? {
      ReleasePlaces(k, s, p.sem, t);
    } else {
      SemUpdate(k, s, p.sem, t);
    }
  }

  lemma {:induction false} JoinersPlaces(k: State, s: nat, t: nat)
    requires s < |k.sems| && Agrees(k.sems[s])
    ensures Places(WakeJoiners(k, s), t) <= Places(k, t)
    decreases |k.sems[s].wq|
  {
    if k.sems[s].wq != [] {
      PostAgrees(k.sems[s]);
      SemPostPlaces(k, s, t);
      JoinersPlaces(DoSemPost(k, s), s, t);
    }
  }

  lemma CreatePlaces(k: State, priority: nat, t: nat)
    ensures Places(DoCreate(k, priority), t) <= Places(k, t)
  {
    if priority > 0 && k.free != [] {
      var s := k.free[0];
      var k' := ResetJoinSem(k.(free := k.free[1..]), s);
      TimesTail(k.free, t);
      if s < |k.sems| {
        SemUpdate(k, s, Sem(0, []), t);
      }
      assert Places(k', t) + Is(t, s) <= Places(k, t);
      AddPlaces(SetTask(k', s, Task(priority, priority, priority, ACTIVE)), s, t);
    }
  }

  lemma SleepPlaces(k: State, u: nat, ticks: nat, t: nat)
    requires u in k.runq && (k.active == |k.runq| || u != t)
    ensures Places(DoSleep(k, u, ticks), t) <= Places(k, t)
  {
    hide Push, Places, DelTask;
    if ticks > 0 {
      DozingPlaces(k, u, ticks, t);
      DelPlaces(Dozing(k, u, ticks), u, t);
    }
  }

  /** k after u has gone into the sleep heap, before it leaves the run queue. */
  function Dozing(k: State, u: nat, ticks: nat): State {
    var h := if |k.sleep| + 1 >= k.n then k.sleep else Push(k.sleep, ticks, NodeFor(u, ticks));
    var x := TaskOf(k, u);
    SetTask(k.(sleep := h), u, x.(state := SLEEPING, working := x.fixed))
  }

  lemma DozingPlaces(k: State, u: nat, ticks: nat, t: nat)
    ensures Places(Dozing(k, u, ticks), t) <= Places(k, t) + Is(t, u)
  {
    hide Push;
    PushTasks(k.sleep, ticks, NodeFor(u, ticks));
  }

  lemma SemWaitPlaces(k: State, u: nat, s: nat, t: nat)
    requires u in k.runq && (k.active == |k.runq| || u != t) && s < |k.sems|
    ensures Places(DoSemWait(k, u, s), t) <= Places(k, t)
  {
    var w := Wait(k.sems[s], u, k.n);
    var k' := SetState(k.(sems := k.sems[s := w.sem]), u, BLOCKING);
    SemUpdate(k, s, w.sem, t);
    TimesAppend(k.sems[s].wq, u, t);
    assert Places(k', t) <= Places(k, t) + Is(t, u);
    DelPlaces(k', u, t);
  }

  lemma LockPlaces(k: State, u: nat, m: nat, t: nat)
    requires u in k.runq && (k.active == |k.runq| || u != t) && m < |k.mtxs|
    ensures Places(DoLock(k, u, m), t) <= Places(k, t)
  {
    var x := k.mtxs[m];
    match x.holder
    case None => MtxUpdate(k, m, x.(holder := Some(u)), t);
    case Some(h) =>
      var k' := Joining(k, u, m, h);
      JoiningPlaces(k, u, m, h, t);
      DelPlaces(k', u, t);
  }

  /** k after u has joined the queue of m, before it leaves the run queue. */
  function Joining(k: State, u: nat, m: nat, h: nat): State
    requires m < |k.mtxs|
  {
    var y := k.mtxs[m].(wq := Enqueue(k.mtxs[m].wq, u, k.n));
    SetState(Boost(k, h, u).(mtxs := k.mtxs[m := y]), u, BLOCKING)
  }

  lemma JoiningPlaces(k: State, u: nat, m: nat, h: nat, t: nat)
    requires m < |k.mtxs|
    ensures Places(Joining(k, u, m, h), t) <= Places(k, t) + Is(t, u)
    ensures Joining(k, u, m, h).runq == k.runq && Joining(k, u, m, h).active == k.active
  {
    var y := k.mtxs[m].(wq := Enqueue(k.mtxs[m].wq, u, k.n));
    MtxUpdate(k, m, y, t);
    TimesAppend(k.mtxs[m].wq, u, t);
  }

  lemma UnlockPlaces(k: State, u: nat, m: nat, t: nat)
    requires m < |k.mtxs|
    ensures Places(DoUnlock(k, u, m), t) <= Places(k, t)
  {
    var x := k.mtxs[m];
    if x.holder == Some(u) {
      var k' := SetTask(k, u, TaskOf(k, u).(fixed := TaskOf(k, u).base));
      if x.wq == [] {
        MtxUpdate(k, m, Mutex(None, []), t);
      } else {
        var w, pass := x.wq[0], TaskOf(k, u).fixed;
        var y := Mutex(Some(w), x.wq[1..]);
        var k'' := SetTask(k', w, TaskOf(k', w).(fixed := pass, working := pass)).(mtxs := k.mtxs[m := y]);
        MtxUpdate(k, m, y, t);
        TimesTail(x.wq, t);
        assert Places(k'', t) + Is(t, w) == Places(k, t);
        AddPlaces(SetState(k'', w, ACTIVE), w, t);
      }
    }
  }

  lemma ActPlaces(k: State, op: Op, t: nat)
    requires Enabled(k, op) && (k.active == |k.runq| || Nowhere(k, t))
    ensures Places(Act(k, op), t) <= Places(k, t)
  {
    TimesIn(k.runq, t);
    match op
    case Create(priority) => CreatePlaces(k, priority, t);
    case Launch =>
    case Tick =>
      UpdatePlaces(k, t);
      SchedulePlaces(Update(k), t);
    case Sleep(ticks) => SleepPlaces(k, k.run.task, ticks, t);
    case SemWait(s) => SemWaitPlaces(k, k.run.task, s, t);
    case SemTryWait(s) => SemUpdate(k, s, TryWait(k.sems[s]).sem, t);
    case SemPost(s) => SemPostPlaces(k, s, t);
    case Lock(m) => LockPlaces(k, k.run.task, m, t);
    case Unlock(m) => UnlockPlaces(k, k.run.task, m, t);
    case Exit => JoinersPlaces(k, k.run.task, t);
    case Kill =>
      DelPlaces(k, k.run.task, t);
      TimesPrepend(k.free, k.run.task, t);
  }

  lemma EndPlaces(k: State, t: nat)
    ensures Places(EndCritical(k), t) == Places(k, t)
  {
  }

  /** No step puts a slot in more places than it was in. */
  lemma StepPlaces(k: State, op: Op, t: nat)
    requires Enabled(k, op) && (k.active == |k.runq| || Nowhere(k, t))
    ensures Places(Next(k, op), t) <= Places(k, t)
  {
    ActPlaces(k, op, t);
    EndPlaces(Act(k, op), t);
  }

  // ---------- no step leaves the pool ----------

  lemma {:induction false} JoinersShape(k: State, t: nat)
    requires Shape(k) && t < |k.sems| && Agrees(k.sems[t])
    ensures Shape(WakeJoiners(k, t))
    decreases |k.sems[t].wq|
  {
    if k.sems[t].wq != [] {
      PostAgrees(k.sems[t]);
      SemPostShape(k, t);
      JoinersShape(DoSemPost(k, t), t);
    }
  }

  lemma NextOnQueue(k: State)
    requires WellFormed(k)
    ensures Forward(k.runq, k.cursor).On? ==> Forward(k.runq, k.cursor).task < k.n
  {
    ForwardTask(k.runq, k.cursor);
    if Forward(k.runq, k.cursor).On? {
      RunnableIsOnlyThere(k, Forward(k.runq, k.cursor).task);
    }
  }

  lemma UpdateWellFormed(k: State)
    requires WellFormed(k)
    ensures WellFormed(Update(k))
  {
    UpdateEffect(k);
    forall t: nat ensures Places(Update(k), t) <= if t < k.n then 1 else 0 {
      UpdatePlaces(k, t);
      assert Places(k, t) <= if t < k.n then 1 else 0;
    }
  }

  lemma ScheduleShape(k: State)
    requires WellFormed(k)
    ensures Shape(Schedule(k))
  {
    NextOnQueue(k);
  }

  lemma ScheduleWellFormed(k: State)
    requires WellFormed(k)
    ensures WellFormed(Schedule(k))
  {
    ScheduleShape(k);
    forall t: nat ensures Places(Schedule(k), t) <= if t < k.n then 1 else 0 {
      SchedulePlaces(k, t);
      assert Places(k, t) <= if t < k.n then 1 else 0;
    }
  }

  lemma UnlockShape(k: State, t: nat, m: nat)
    requires WellFormed(k) && m < |k.mtxs|
    ensures Shape(DoUnlock(k, t, m))
  {
    if k.mtxs[m].wq != [] {
      WaiterNotRunning(k, m);
    }
  }

  lemma CreateKeepsShape(k: State, priority: nat)
    requires Shape(k)
    ensures Shape(DoCreate(k, priority))
  {
  }

  lemma TickKeepsShape(k: State)
    requires WellFormed(k)
    ensures Shape(DoTick(k))
  {
    hide Update, Schedule;
    UpdateWellFormed(k);
    ScheduleShape(Update(k));
  }

  lemma SleepKeepsShape(k: State, t: nat, ticks: nat)
    requires Shape(k)
    ensures Shape(DoSleep(k, t, ticks))
  {
  }

  lemma WaitKeepsShape(k: State, t: nat, s: nat)
    requires Shape(k) && s < |k.sems|
    ensures Shape(DoSemWait(k, t, s))
  {
  }

  lemma KillKeepsShape(k: State, t: nat)
    requires Shape(k)
    ensures Shape(DoKill(k, t))
  {
  }

  lemma ActShape(k: State, op: Op)
    requires WellFormed(k) && Enabled(k, op)
    ensures Shape(Act(k, op))
  {
    hide DoCreate, DoTick, DoSleep, DoSemWait, DoSemPost, DoLock, DoUnlock, DoKill, WakeJoiners;
    match op
    case Create(priority) => CreateKeepsShape(k, priority);
    case Launch => NextOnQueue(k);
    case Tick => TickKeepsShape(k);
    case Sleep(ticks) => SleepKeepsShape(k, k.run.task, ticks);
    case SemWait(s) => WaitKeepsShape(k, k.run.task, s);
    case SemTryWait(_) =>
    case SemPost(s) => SemPostShape(k, s);
    case Lock(m) => LockShape(k, k.run.task, m);
    case Unlock(m) => UnlockShape(k, k.run.task, m);
    case Exit => JoinersShape(k, k.run.task);
    case Kill => KillKeepsShape(k, k.run.task);
  }

  lemma StepShape(k: State, op: Op)
    requires WellFormed(k) && Enabled(k, op)
    ensures Shape(Next(k, op))
  {
    ActShape(k, op);
  }

  /** Every step of every task keeps the kernel well-formed, without exception. */
  lemma StepWellFormed(k: State, op: Op)
    requires WellFormed(k) && Enabled(k, op)
    ensures WellFormed(Next(k, op))
  {
    StepShape(k, op);
    StepSize(k, op);
    forall t: nat ensures Places(Next(k, op), t) <= if t < k.n then 1 else 0 {
      StepPlaces(k, op, t);
      assert Places(k, t) <= if t < k.n then 1 else 0;
    }
  }

  /** And so does every run. */
  lemma {:induction false} RunWellFormed(k: State, ops: seq<Op>)
    requires WellFormed(k) && IsRun(k, ops)
    ensures WellFormed(Exec(k, ops)) && Exec(k, ops).n == k.n && |Exec(k, ops).mtxs| == |k.mtxs|
    decreases |ops|
  {
    if ops != [] {
      StepWellFormed(k, ops[0]);
      StepSize(k, ops[0]);
      RunWellFormed(Next(k, ops[0]), ops[1..]);
    }
  }

  /** Every state reachable from os_init is well-formed. */
  lemma WellFormedFromInit(n: nat, values: seq<nat>, mutexes: nat, ops: seq<Op>)
    requires n <= VAL_MAX && IsRun(Initial(n, values, mutexes), ops)
    ensures WellFormed(Exec(Initial(n, values, mutexes), ops))
  {
    InitialSound(n, values, mutexes);
    RunWellFormed(Initial(n, values, mutexes), ops);
  }

  lemma PostWellFormed(k: State, s: nat)
    requires WellFormed(k) && s < |k.sems|
    ensures WellFormed(DoSemPost(k, s))
  {
    SemPostShape(k, s);
    forall t: nat ensures Places(DoSemPost(k, s), t) <= if t < k.n then 1 else 0 {
      SemPostPlaces(k, s, t);
      assert Places(k, t) <= if t < k.n then 1 else 0;
    }
  }

  // ---------- semaphore counts ----------

  ghost predicate SemsAgree(k: State) {
    forall s :: 0 <= s < |k.sems| ==> Agrees(k.sems[s])
  }

  lemma {:induction false} JoinersAgree(k: State, t: nat)
    requires SemsAgree(k) && t < |k.sems|
    ensures var r := WakeJoiners(k, t); |r.sems| == |k.sems| && SemsAgree(r) && r.sems[t].wq == []
    decreases |k.sems[t].wq|
  {
    if k.sems[t].wq != [] {
      PostAgrees(k.sems[t]);
      JoinersAgree(DoSemPost(k, t), t);
    }
  }

  lemma WaitKeepsStep(k: State, t: nat, s: nat)
    requires Single(k) && k.n <= VAL_MAX && SemsAgree(k) && t in k.runq && s < |k.sems|
    ensures SemsAgree(DoSemWait(k, t, s))
  {
    QueueHasRoom(k, t);
    WaitAgrees(k.sems[s], t, k.n);
  }

  lemma SleepSems(k: State, t: nat, ticks: nat)
    ensures DoSleep(k, t, ticks).sems == k.sems
  {
  }

  lemma LockSems(k: State, t: nat, m: nat)
    requires m < |k.mtxs|
    ensures DoLock(k, t, m).sems == k.sems
  {
  }

  lemma UnlockSems(k: State, t: nat, m: nat)
    requires m < |k.mtxs|
    ensures DoUnlock(k, t, m).sems == k.sems
  {
  }

  lemma TickSems(k: State)
    requires WellFormed(k)
    ensures DoTick(k).sems == k.sems
  {
    UpdateEffect(k);
  }

  /** The steps that call no semaphore leave all of them alone. */
  lemma OtherSems(k: State, op: Op)
    requires WellFormed(k) && Enabled(k, op)
    requires !op.Create? && !op.SemWait? && !op.SemTryWait? && !op.SemPost? && op != Exit
    ensures Act(k, op).sems == k.sems
  {
    hide DoTick, DoSleep, DoLock, DoUnlock;
    match op
    case Launch =>
    case Tick => TickSems(k);
    case Sleep(ticks) => SleepSems(k, k.run.task, ticks);
    case Lock(m) => LockSems(k, k.run.task, m);
    case Unlock(m) => UnlockSems(k, k.run.task, m);
    case Kill =>
  }

  lemma CreateAgrees(k: State, priority: nat)
    requires SemsAgree(k)
    ensures SemsAgree(DoCreate(k, priority))
  {
  }

  lemma SemPostAgrees(k: State, s: nat)
    requires SemsAgree(k) && s < |k.sems|
    ensures SemsAgree(DoSemPost(k, s)) <==> k.sems[s].val != VAL_MAX
  {
    PostAgrees(k.sems[s]);
    assert DoSemPost(k, s).sems[s] == Post(k.sems[s]).sem;
  }

  lemma ActAgrees(k: State, op: Op)
    requires WellFormed(k) && SemsAgree(k) && Enabled(k, op)
    ensures SemsAgree(Act(k, op)) <==> !(op.SemPost? && k.sems[op.sem].val == VAL_MAX)
  {
    hide DoCreate, DoTick, DoSleep, DoSemWait, DoSemPost, DoLock, DoUnlock, DoKill, WakeJoiners;
    match op
    case Create(priority) => CreateAgrees(k, priority);
    case SemWait(s) => WaitKeepsStep(k, k.run.task, s);
    case SemTryWait(s) =>
    case SemPost(s) => SemPostAgrees(k, s);
    case Exit => JoinersAgree(k, k.run.task);
    case _ => OtherSems(k, op);
  }

  /** Every semaphore's count and queue stay in step, except under a post at the top of the range. */
  lemma StepAgrees(k: State, op: Op)
    requires WellFormed(k) && SemsAgree(k) && Enabled(k, op)
    ensures SemsAgree(Next(k, op)) <==> !(op.SemPost? && k.sems[op.sem].val == VAL_MAX)
  {
    ActAgrees(k, op);
  }
}
