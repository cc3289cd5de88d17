/** Time slices over whole runs: who starts its turn with a full slice. */
module Slices {
  import opened Cursors
  import opened SleepTick
  import opened Semaphores
  import opened Kernel
  import opened Conservation
  import opened Steps
  import opened Invariants
  import opened Dispatch
  import opened RoundRobin

  ghost predicate Full(k: State, t: nat) {
    TaskOf(k, t).working == TaskOf(k, t).fixed
  }

  /** While the kernel is up, every live task but the running one has its full slice before it. */
  ghost predicate Fresh(k: State) {
    k.run.Panic? || k.run.Wild? || k.run.Masked? ||
    forall t: nat :: t < k.n && t !in k.free && k.run != Thread(t) ==> Full(k, t)
  }

  /**
   os_next renews the slice of a task that has blocked, but os_schedule does not call it when the
   run queue is empty: the last task to block keeps what it has left.
   */
  predicate LeavesRest(k: State, op: Op) {
    && op == Tick && k.run.Thread? && k.run.task !in k.free
    && k.runq == [] && HeapTick(k.sleep).woken == []
    && TaskOf(k, k.run.task).working != TaskOf(k, k.run.task).fixed
  }

  /** A change that leaves slices, priorities, free slots and the running task alone. */
  ghost predicate SameSlices(k: State, r: State) {
    && r.n == k.n && r.free == k.free && (r.run == k.run || r.run.Wild? || r.run.Masked?)
    && (forall t: nat :: TaskOf(r, t).working == TaskOf(k, t).working && TaskOf(r, t).fixed == TaskOf(k, t).fixed)
  }

  lemma SameFresh(k: State, r: State)
    requires Fresh(k) && SameSlices(k, r)
    ensures Fresh(r)
  {
    if !(r.run.Panic? || r.run.Wild? || r.run.Masked?) {
      forall t: nat | t < r.n && t !in r.free && r.run != Thread(t) ensures Full(r, t) {
        assert Full(k, t);
      }
    }
  }

  lemma {:induction false} JoinersSlices(k: State, t: nat)
    requires t < |k.sems| && Agrees(k.sems[t])
    ensures SameSlices(k, WakeJoiners(k, t))
    decreases |k.sems[t].wq|
  {
    if k.sems[t].wq != [] {
      PostAgrees(k.sems[t]);
      JoinersSlices(DoSemPost(k, t), t);
    }
  }

  lemma UpdateSlices(k: State)
    requires WellFormed(k)
    ensures SameSlices(k, Update(k)) && Update(k).run == k.run
    ensures Update(k).active == 0 <==> k.runq == [] && HeapTick(k.sleep).woken == []
  {
    UpdateEffect(k);
  }

  lemma ScheduleFresh(k: State)
    requires WellFormed(k) && Fresh(k) && (k.run.Thread? || k.run == Idle)
    ensures Fresh(Schedule(k)) <==> !(k.active == 0 && k.run.Thread? && k.run.task !in k.free && !Full(k, k.run.task))
  {
    var r := Schedule(k);
    assert r.n == k.n && r.free == k.free;
    if k.active == 0 {
      assert forall t: nat :: Full(r, t) == Full(k, t);
      if k.run.Thread? && k.run.task !in k.free && !Full(k, k.run.task) {
        assert !Full(r, k.run.task) && k.run.task < r.n;
      }
    } else {
      forall t: nat | t < r.n && t !in r.free && r.run != Thread(t) && !r.run.Wild? ensures Full(r, t) {
        if k.run != Thread(t) {
          assert Full(k, t);
        }
      }
    }
  }

  lemma TickFresh(k: State)
    requires WellFormed(k) && Fresh(k) && Enabled(k, Tick)
    ensures Fresh(DoTick(k)) <==> !LeavesRest(k, Tick)
  {
    UpdateSlices(k);
    UpdateWellFormed(k);
    SameFresh(k, Update(k));
    ScheduleFresh(Update(k));
  }

  /** Only the caller, a boosted holder or a mutex's new holder gets other priorities, and their slices keep up. */
  lemma LockFresh(k: State, m: nat)
    requires WellFormed(k) && Fresh(k) && Runnable(k) && m < |k.mtxs|
    ensures Fresh(DoLock(k, k.run.task, m))
  {
    var r := DoLock(k, k.run.task, m);
    forall v: nat | v < k.n && v !in k.free && v != k.run.task ensures Full(r, v) {
      assert Full(k, v);
    }
  }

  lemma UnlockFresh(k: State, m: nat)
    requires WellFormed(k) && Fresh(k) && Runnable(k) && m < |k.mtxs|
    ensures Fresh(DoUnlock(k, k.run.task, m))
  {
    var r := DoUnlock(k, k.run.task, m);
    forall v: nat | v < k.n && v !in k.free && v != k.run.task ensures r.run.Panic? || Full(r, v) {
      assert Full(k, v);
    }
  }

  lemma CreateFresh(k: State, priority: nat)
    requires WellFormed(k) && Fresh(k) && Enabled(k, Create(priority))
    ensures Fresh(DoCreate(k, priority))
  {
    if priority > 0 && k.free != [] {
      var r := DoCreate(k, priority);
      forall t: nat | t < r.n && t !in r.free && r.run != Thread(t) ensures Full(r, t) {
        if t != k.free[0] {
          assert k.free == [k.free[0]] + k.free[1..];
          assert Full(k, t);
        }
      }
    }
  }

  /** What the running task does to its own slice does not matter while it runs. */
  lemma OwnSlice(k: State, r: State)
    requires Fresh(k) && Runnable(k) && r.n == k.n && r.run == k.run && forall t: nat :: t in k.free ==> t in r.free
    requires forall t: nat :: t != k.run.task ==> TaskOf(r, t) == TaskOf(k, t)
    ensures Fresh(r)
  {
    forall t: nat | t < r.n && t !in r.free && r.run != Thread(t) ensures Full(r, t) {
      assert Full(k, t);
    }
  }

  lemma OtherFresh(k: State, op: Op)
    requires WellFormed(k) && Fresh(k) && Enabled(k, op)
    requires !op.Create? && !op.Launch? && !op.Tick? && !op.Lock? && !op.Unlock?
    ensures Fresh(Act(k, op))
  {
    hide Fresh, WakeJoiners;
    if op == Exit {
      JoinersSlices(k, k.run.task);
    }
    if op.SemTryWait? || op.SemPost? || op == Exit {
      SameFresh(k, Act(k, op));
    } else {
      OwnSlice(k, Act(k, op));
    }
  }

  lemma ActFresh(k: State, op: Op)
    requires WellFormed(k) && Fresh(k) && Enabled(k, op)
    ensures Fresh(Act(k, op)) <==> !LeavesRest(k, op)
  {
    hide DoCreate, DoTick, DoSleep, DoSemWait, DoSemPost, DoLock, DoUnlock, DoKill, WakeJoiners;
    match op
    case Create(priority) => CreateFresh(k, priority);
    case Launch => assert forall t: nat :: Full(Act(k, op), t) == Full(k, t);
    case Tick => TickFresh(k);
    case Lock(m) => LockFresh(k, m);
    case Unlock(m) => UnlockFresh(k, m);
    case _ => OtherFresh(k, op);
  }

  /** A step keeps all slices full but that of the running task, exactly unless the last task to block goes idle. */
  lemma StepFresh(k: State, op: Op)
    requires WellFormed(k) && Fresh(k) && Enabled(k, op)
    ensures Fresh(Next(k, op)) <==> !LeavesRest(k, op)
  {
    ActFresh(k, op);
  }

  ghost predicate NoRest(k: State, ops: seq<Op>)
    requires IsRun(k, ops)
    decreases |ops|
  {
    ops == [] || (!LeavesRest(k, ops[0]) && NoRest(Next(k, ops[0]), ops[1..]))
  }

  lemma InitialFresh(n: nat, values: seq<nat>, mutexes: nat)
    ensures Fresh(Initial(n, values, mutexes))
  {
  }

  /** Over whole runs every task but the running one has a full slice before it, through boosts and hand-overs. */
  lemma {:induction false} RunFresh(k: State, ops: seq<Op>)
    requires WellFormed(k) && Fresh(k) && IsRun(k, ops) && NoRest(k, ops)
    ensures Fresh(Exec(k, ops))
    decreases |ops|
  {
    if ops != [] {
      StepWellFormed(k, ops[0]);
      StepFresh(k, ops[0]);
      RunFresh(Next(k, ops[0]), ops[1..]);
    }
  }

  /** A sleeper gives its slice back before it leaves, so also the last task to fall asleep wakes with a full one. */
  lemma SleeperFresh(k: State, ticks: nat)
    requires WellFormed(k) && Fresh(k) && Enabled(k, Sleep(ticks)) && ticks > 0 && Enabled(Next(k, Sleep(ticks)), Tick)
    ensures Fresh(DoTick(Next(k, Sleep(ticks))))
  {
    var r := Next(k, Sleep(ticks));
    RunnableIsOnlyThere(k, k.run.task);
    StepWellFormed(k, Sleep(ticks));
    StepFresh(k, Sleep(ticks));
    TickFresh(r);
    assert Full(r, k.run.task);
  }

  /**
   In a state in which a task starts its turn the schedule is periodic for as long as no sleeper is
   due, and the period is the sum of the priorities of the run queue.
   */
  lemma FreshTurnsPeriodic(k: State, rounds: nat)
    requires Sound(k) && Coupled(k) && Positive(k) && Fresh(k) && Runnable(k)
    requires Full(k, k.run.task) && NotDue(k.sleep, rounds * Priorities(k, k.runq))
    ensures Ticks(k, rounds * Priorities(k, k.runq)) == Aged(k, rounds * Priorities(k, k.runq))
  {
    forall t | t in k.runq ensures TaskOf(k, t).working == TaskOf(k, t).fixed {
      RunnableIsOnlyThere(k, t);
      TimesIn(k.free, t);
      assert Full(k, t);
    }
    RunsAtPlace(k);
    Periodic(k, IndexOf(k.runq, k.run.task), rounds);
  }

  /** That is so after every harmless run from os_init in which nobody left part of a slice behind. */
  lemma PeriodicFromInit(n: nat, values: seq<nat>, mutexes: nat, ops: seq<Op>, rounds: nat)
    requires n <= VAL_MAX && forall i :: 0 <= i < |values| ==> Init(values[i], n) != None
    requires IsRun(Initial(n, values, mutexes), ops) && HarmlessRun(Initial(n, values, mutexes), ops)
    requires NoRest(Initial(n, values, mutexes), ops)
    ensures var k := Exec(Initial(n, values, mutexes), ops); var p := Priorities(k, k.runq);
            Runnable(k) && Full(k, k.run.task) && NotDue(k.sleep, rounds * p) ==>
              Ticks(k, rounds * p) == Aged(k, rounds * p)
  {
    var k := Exec(Initial(n, values, mutexes), ops);
    InitialFresh(n, values, mutexes);
    InitialSound(n, values, mutexes);
    HealthyFromInit(n, values, mutexes, ops);
    PositiveFromInit(n, values, mutexes, ops);
    RunFresh(Initial(n, values, mutexes), ops);
    if Runnable(k) && Full(k, k.run.task) && NotDue(k.sleep, rounds * Priorities(k, k.runq)) {
      FreshTurnsPeriodic(k, rounds);
    }
  }
}
