/** Sleeping and joining seen from the whole kernel. */
module Sleeping {
  import opened Cursors
  import opened SleepHeap
  import opened SleepTick
  import opened Semaphores
  import opened Kernel
  import opened Conservation
  import opened Steps
  import opened Invariants
  import opened RoundRobin

  // ---------- every sleep ends ----------

  /** A push keeps a tame heap tame if and only if all ticks together still stay below 2^15. */
  lemma PushTame(h: seq<Node>, task: nat, ticks: nat)
    requires Tame(h) && 1 <= ticks < WORD
    ensures Tame(Push(h, ticks, NodeFor(task, ticks))) <==> TotalTicks(h) + ticks < INT_LIMIT
  {
    var x := NodeFor(task, ticks);
    var r := Push(h, ticks, x);
    PushContents(h, ticks, x);
    SumOfMultiset(TicksOf, r, h + [x]);
    SumConcat(TicksOf, h, [x]);
    forall j | 0 <= j < |r| && ticks < INT_LIMIT ensures TameNode(r[j]) {
      assert r[j] in multiset(h) + multiset{x};
    }
  }

  lemma PushRoot(h: seq<Node>, task: nat, ticks: nat)
    requires RootInRange(h)
    ensures RootInRange(Push(h, ticks, NodeFor(task, ticks)))
  {
    var x := NodeFor(task, ticks);
    if h != [] {
      SiftUpRoot(h + [x], |h| + 1, ticks, x);
    }
  }

  lemma {:induction false} JoinersSleep(k: State, t: nat)
    requires t < |k.sems| && Agrees(k.sems[t])
    ensures WakeJoiners(k, t).sleep == k.sleep
    decreases |k.sems[t].wq|
  {
    if k.sems[t].wq != [] {
      PostAgrees(k.sems[t]);
      JoinersSleep(DoSemPost(k, t), t);
    }
  }

  lemma CreateSleep(k: State, priority: nat)
    ensures DoCreate(k, priority).sleep == k.sleep
  {
  }

  lemma WaitSleep(k: State, t: nat, s: nat)
    requires s < |k.sems|
    ensures DoSemWait(k, t, s).sleep == k.sleep
  {
  }

  lemma LockSleep(k: State, t: nat, m: nat)
    requires m < |k.mtxs|
    ensures DoLock(k, t, m).sleep == k.sleep && DoUnlock(k, t, m).sleep == k.sleep
  {
  }

  /** Only ticks and sleeps change the heap. */
  lemma OtherSleep(k: State, op: Op)
    requires WellFormed(k) && Enabled(k, op) && op != Tick && (op.Sleep? ==> op.ticks == 0)
    ensures Act(k, op).sleep == k.sleep
  {
    hide DoCreate, DoSemWait, DoLock, DoUnlock, WakeJoiners;
    match op
    case Create(priority) => CreateSleep(k, priority);
    case SemWait(s) => WaitSleep(k, k.run.task, s);
    case Lock(m) => LockSleep(k, k.run.task, m);
    case Unlock(m) => LockSleep(k, k.run.task, m);
    case Exit => JoinersSleep(k, k.run.task);
    case _ =>
  }

  lemma SleepRoot(k: State, t: nat, ticks: nat)
    requires RootInRange(k.sleep)
    ensures RootInRange(DoSleep(k, t, ticks).sleep)
  {
    PushRoot(k.sleep, t, ticks);
  }

  lemma TickSleep(k: State)
    requires WellFormed(k)
    ensures DoTick(k).sleep == HeapTick(k.sleep).heap
  {
    hide HeapTick;
    UpdateEffect(k);
  }

  lemma TickRoot(k: State)
    requires WellFormed(k) && RootInRange(k.sleep)
    ensures RootInRange(DoTick(k).sleep)
  {
    hide DoTick, Drain;
    TickSleep(k);
    DrainWaits(k.sleep, |k.sleep| / 2);
  }

  lemma ActRoot(k: State, op: Op)
    requires WellFormed(k) && RootInRange(k.sleep) && Enabled(k, op)
    ensures RootInRange(Act(k, op).sleep)
  {
    hide DoTick, DoSleep;
    match op
    case Tick => TickRoot(k);
    case Sleep(ticks) => SleepRoot(k, k.run.task, ticks);
    case _ => OtherSleep(k, op);
  }

  /** The root of the sleep heap is always an int. */
  lemma StepRoot(k: State, op: Op)
    requires WellFormed(k) && RootInRange(k.sleep) && Enabled(k, op)
    ensures RootInRange(Next(k, op).sleep)
  {
    ActRoot(k, op);
  }

  lemma {:induction false} RunRoot(k: State, ops: seq<Op>)
    requires WellFormed(k) && RootInRange(k.sleep) && IsRun(k, ops)
    ensures WellFormed(Exec(k, ops)) && RootInRange(Exec(k, ops).sleep) && Exec(k, ops).n == k.n
    decreases |ops|
  {
    if ops != [] {
      StepRoot(k, ops[0]);
      StepWellFormed(k, ops[0]);
      StepSize(k, ops[0]);
      RunRoot(Next(k, ops[0]), ops[1..]);
    }
  }

  /** A sleep that finds a slot in the heap makes all ticks there add up to 2^15 or more. */
  predicate Overloads(k: State, op: Op) {
    op.Sleep? && op.ticks > 0 && |k.sleep| + 1 < k.n && TotalTicks(k.sleep) + op.ticks >= INT_LIMIT
  }

  lemma TickTame(k: State)
    requires WellFormed(k) && Tame(k.sleep)
    ensures Tame(DoTick(k).sleep)
  {
    hide DoTick, Drain;
    TickSleep(k);
    DrainOrdered(k.sleep, |k.sleep| / 2);
  }

  lemma SleepTame(k: State, t: nat, ticks: nat)
    requires Tame(k.sleep) && ticks < WORD
    ensures Tame(DoSleep(k, t, ticks).sleep) <==> !Overloads(k, Sleep(ticks))
  {
    if ticks > 0 {
      PushTame(k.sleep, t, ticks);
    }
  }

  lemma ActTame(k: State, op: Op)
    requires WellFormed(k) && Tame(k.sleep) && Enabled(k, op)
    ensures Tame(Act(k, op).sleep) <==> !Overloads(k, op)
  {
    hide DoTick, DoSleep;
    match op
    case Tick => TickTame(k);
    case Sleep(ticks) => SleepTame(k, k.run.task, ticks);
    case _ => OtherSleep(k, op);
  }

  /** A step keeps the heap tame if and only if it does not overload it. */
  lemma StepTame(k: State, op: Op)
    requires WellFormed(k) && Tame(k.sleep) && Enabled(k, op)
    ensures Tame(Next(k, op).sleep) <==> !Overloads(k, op)
  {
    ActTame(k, op);
  }

  ghost predicate NoOverload(k: State, ops: seq<Op>)
    requires IsRun(k, ops)
    decreases |ops|
  {
    ops == [] || (!Overloads(k, ops[0]) && NoOverload(Next(k, ops[0]), ops[1..]))
  }

  lemma {:induction false} RunTame(k: State, ops: seq<Op>)
    requires WellFormed(k) && Tame(k.sleep) && IsRun(k, ops) && NoOverload(k, ops)
    ensures WellFormed(Exec(k, ops)) && Tame(Exec(k, ops).sleep)
    decreases |ops|
  {
    if ops != [] {
      StepTame(k, ops[0]);
      StepWellFormed(k, ops[0]);
      RunTame(Next(k, ops[0]), ops[1..]);
    }
  }

  /** In these runs nobody goes to sleep; a sleep of zero ticks only yields. */
  predicate NoSleeps(ops: seq<Op>) {
    forall i :: 0 <= i < |ops| && ops[i].Sleep? ==> ops[i].ticks == 0
  }

  function TickCount(ops: seq<Op>): nat {
    if ops == [] then 0 else (if ops[0] == Tick then 1 else 0) + TickCount(ops[1..])
  }

  /** Whom the ticks of a run wake, in order. */
  ghost function WokenBy(k: State, ops: seq<Op>): seq<nat>
    requires IsRun(k, ops)
    decreases |ops|
  {
    if ops == [] then [] else
    (if ops[0] == Tick then HeapTick(k.sleep).woken else []) + WokenBy(Next(k, ops[0]), ops[1..])
  }

  /** Some tick of the run puts t, which was not runnable, on the run queue, and makes it ACTIVE. */
  ghost predicate Returns(k: State, ops: seq<Op>, t: nat)
    requires IsRun(k, ops)
    decreases |ops|
  {
    ops != [] &&
    var k' := Next(k, ops[0]);
    || (ops[0] == Tick && t !in k.runq && t in k'.runq && TaskOf(k', t).state == ACTIVE)
    || Returns(k', ops[1..], t)
  }

  /** The heap changes by ticks and sleeps alone. */
  lemma StepSleep(k: State, op: Op)
    requires WellFormed(k) && Enabled(k, op) && (op.Sleep? ==> op.ticks == 0)
    ensures Next(k, op).sleep == if op == Tick then HeapTick(k.sleep).heap else k.sleep
  {
    if op == Tick {
      UpdateEffect(k);
    } else {
      OtherSleep(k, op);
    }
  }

  /** The heap after the run, and whom it has woken, are those of as many ticks of the heap alone. */
  ghost predicate Evolves(k: State, ops: seq<Op>)
    requires IsRun(k, ops)
  {
    HeapTicks(k.sleep, TickCount(ops)) == Drained(Exec(k, ops).sleep, WokenBy(k, ops))
  }

  lemma EvolvesOn(k: State, ops: seq<Op>)
    requires IsRun(k, ops) && ops != [] && Evolves(Next(k, ops[0]), ops[1..])
    requires Next(k, ops[0]).sleep == if ops[0] == Tick then HeapTick(k.sleep).heap else k.sleep
    ensures Evolves(k, ops)
  {
    var k', rest := Next(k, ops[0]), ops[1..];
    if ops[0] == Tick {
      OneMoreTick(k.sleep, TickCount(rest));
    } else {
      assert [] + WokenBy(k', rest) == WokenBy(k', rest);
    }
  }

  lemma {:induction false} HeapEvolves(k: State, ops: seq<Op>)
    requires WellFormed(k) && IsRun(k, ops) && NoSleeps(ops)
    ensures Evolves(k, ops)
    decreases |ops|
  {
    if ops != [] {
      StepSleep(k, ops[0]);
      StepWellFormed(k, ops[0]);
      HeapEvolves(Next(k, ops[0]), ops[1..]);
      EvolvesOn(k, ops);
    }
  }

  lemma OneMoreTick(h: seq<Node>, n: nat)
    ensures var d := HeapTick(h); var r := HeapTicks(d.heap, n);
            HeapTicks(h, n + 1) == Drained(r.heap, d.woken + r.woken)
  {
  }

  /** A tick appends whom it wakes to the run queue, in order and ACTIVE. */
  lemma TickAppends(k: State)
    requires WellFormed(k)
    ensures var r := DoTick(k); var woken := HeapTick(k.sleep).woken;
            && r.sleep == HeapTick(k.sleep).heap && r.runq == k.runq + woken
            && (forall t :: t in woken ==> t !in k.runq && TaskOf(r, t).state == ACTIVE)
  {
    UpdateEffect(k);
    var u := Update(k);
    assert forall t: nat :: TaskOf(Schedule(u), t).state == TaskOf(u, t).state;
  }

  lemma {:induction false} WokenReturns(k: State, ops: seq<Op>, t: nat)
    requires WellFormed(k) && IsRun(k, ops) && t in WokenBy(k, ops)
    ensures Returns(k, ops, t)
    decreases |ops|
  {
    StepWellFormed(k, ops[0]);
    if ops[0] == Tick && t in HeapTick(k.sleep).woken {
      TickAppends(k);
    } else {
      WokenReturns(Next(k, ops[0]), ops[1..], t);
    }
  }

  /**
   Every sleep ends, whatever the other tasks do in the meantime and whatever wraps round in the heap:
   a run in which nobody else goes to sleep, with as many ticks as the waits of the heap, empties it,
   wakes every sleeper exactly once, and some tick of the run makes it runnable.
   */
  lemma SleepersReturn(k: State, ops: seq<Op>)
    requires WellFormed(k) && RootInRange(k.sleep) && IsRun(k, ops) && NoSleeps(ops)
    requires TickCount(ops) >= Waits(k.sleep)
    ensures Exec(k, ops).sleep == [] && multiset(WokenBy(k, ops)) == multiset(Tasks(k.sleep))
    ensures forall t :: t in Tasks(k.sleep) ==> Returns(k, ops, t)
  {
    HeapEvolves(k, ops);
    EverySleepEnds(k.sleep, TickCount(ops));
    forall t | t in Tasks(k.sleep) ensures Returns(k, ops, t) {
      assert t in multiset(Tasks(k.sleep));
      assert t in multiset(WokenBy(k, ops));
      WokenReturns(k, ops, t);
    }
  }

  /** From every state that any run reaches from os_init, 2^15 ticks for each sleeper are enough. */
  lemma SleepersReturnFromInit(n: nat, values: seq<nat>, mutexes: nat, ops: seq<Op>, more: seq<Op>)
    requires n <= VAL_MAX && IsRun(Initial(n, values, mutexes), ops)
    requires IsRun(Exec(Initial(n, values, mutexes), ops), more) && NoSleeps(more)
    requires TickCount(more) >= |Exec(Initial(n, values, mutexes), ops).sleep| * INT_LIMIT
    ensures var k := Exec(Initial(n, values, mutexes), ops);
            Exec(k, more).sleep == [] && forall t :: t in Tasks(k.sleep) ==> Returns(k, more, t)
  {
    var k := Exec(Initial(n, values, mutexes), ops);
    InitialSound(n, values, mutexes);
    RunRoot(Initial(n, values, mutexes), ops);
    WaitsBounded(k.sleep);
    SleepersReturn(k, more);
  }

  /** If no sleep on the way has overloaded the heap, the sum of max(priority, 1) over it is enough. */
  lemma SleepersReturnInTime(n: nat, values: seq<nat>, mutexes: nat, ops: seq<Op>, more: seq<Op>)
    requires n <= VAL_MAX && IsRun(Initial(n, values, mutexes), ops) && NoOverload(Initial(n, values, mutexes), ops)
    requires IsRun(Exec(Initial(n, values, mutexes), ops), more) && NoSleeps(more)
    requires TickCount(more) >= Potential(Exec(Initial(n, values, mutexes), ops).sleep)
    ensures var k := Exec(Initial(n, values, mutexes), ops);
            Exec(k, more).sleep == [] && forall t :: t in Tasks(k.sleep) ==> Returns(k, more, t)
  {
    var k := Exec(Initial(n, values, mutexes), ops);
    InitialSound(n, values, mutexes);
    RunTame(Initial(n, values, mutexes), ops);
    WaitsTame(k.sleep);
    SleepersReturn(k, more);
  }

  // ---------- a task that sleeps alone ----------

  lemma TickWellFormed(k: State)
    requires WellFormed(k)
    ensures WellFormed(DoTick(k))
  {
    UpdateWellFormed(k);
    ScheduleWellFormed(Update(k));
  }

  lemma TicksChainAppend(k: State, r: State, s: State, n: nat)
    requires r.sleep == HeapTick(k.sleep).heap && r.runq == k.runq + HeapTick(k.sleep).woken
    requires s.runq == r.runq + HeapTicks(r.sleep, n).woken
    ensures s.runq == k.runq + HeapTicks(k.sleep, n + 1).woken
  {
    OneMoreTick(k.sleep, n);
    ConcatThree(k.runq, HeapTick(k.sleep).woken, HeapTicks(r.sleep, n).woken);
  }

  lemma ConcatThree(a: seq<nat>, b: seq<nat>, c: seq<nat>)
    ensures (a + b) + c == a + (b + c)
  {
  }

  /** Ticks alone: what the heap wakes is appended to the run queue in order. */
  lemma {:induction false} TicksAppend(k: State, n: nat)
    requires WellFormed(k)
    ensures Ticks(k, n).runq == k.runq + HeapTicks(k.sleep, n).woken
    decreases n
  {
    if n == 0 {
      assert HeapTicks(k.sleep, 0).woken == [];
      assert k.runq + [] == k.runq;
    } else {
      TickAppends(k);
      TickWellFormed(k);
      TicksAppend(DoTick(k), n - 1);
      TicksChainAppend(k, DoTick(k), Ticks(k, n), n - 1);
    }
  }

  lemma AloneAsleep(k: State, ticks: nat)
    requires WellFormed(k) && Enabled(k, Sleep(ticks)) && KeepsTasks(k, Sleep(ticks)) && k.sleep == [] && ticks > 0
    ensures var k' := Next(k, Sleep(ticks));
            WellFormed(k') && k'.sleep == [NodeFor(k.run.task, ticks)] && k.run.task !in k'.runq
  {
    hide WellFormed, DoSleep;
    StepWellFormed(k, Sleep(ticks));
    GoesToSleep(k, ticks);
  }

  lemma GoesToSleep(k: State, ticks: nat)
    requires WellFormed(k) && Runnable(k) && k.sleep == [] && k.n > 1 && ticks > 0
    ensures var r := DoSleep(k, k.run.task, ticks);
            r.sleep == [NodeFor(k.run.task, ticks)] && k.run.task !in r.runq
  {
    LeavesQueue(k, k.run.task);
  }

  lemma LeavesQueue(k: State, t: nat)
    requires Single(k) && t in k.runq
    ensures t !in Without(k.runq, t)
  {
    RunnableIsOnlyThere(k, t);
    TimesWithout(k.runq, t, t);
    TimesIn(Without(k.runq, t), t);
  }

  /**
   A task that sleeps alone for d ticks is off the run queue until exactly the d-th tick if and only
   if d is at most 2^15; above that it is back after a single tick.
   */
  lemma SleepsExactly(k: State, ticks: nat)
    requires WellFormed(k) && Enabled(k, Sleep(ticks)) && KeepsTasks(k, Sleep(ticks)) && k.sleep == []
    requires 1 <= ticks < WORD
    ensures (forall n :: 0 <= n <= ticks ==> (k.run.task in Ticks(Next(k, Sleep(ticks)), n).runq <==> n == ticks))
            <==> ticks <= INT_LIMIT
    ensures ticks > INT_LIMIT ==> k.run.task in Ticks(Next(k, Sleep(ticks)), 1).runq
  {
    var t, k' := k.run.task, Next(k, Sleep(ticks));
    AloneAsleep(k, ticks);
    forall n | 0 <= n <= ticks
      ensures ticks <= INT_LIMIT ==> (t in Ticks(k', n).runq <==> n == ticks)
    {
      TicksAppend(k', n);
      LoneSleep(t, ticks, n);
    }
    if ticks > INT_LIMIT {
      TicksAppend(k', 1);
      LoneSleep(t, ticks, 1);
      assert t in Ticks(k', 1).runq;
    }
  }

  // ---------- the wake loop of os_task_exit ----------

  /** The loop ends with the queue empty and every joiner appended to the run queue, in FIFO order. */
  lemma JoinersWoken(k: State, t: nat)
    requires Sound(k) && t < |k.sems| && Agrees(k.sems[t])
    ensures var r := WakeJoiners(k, t);
            && r.runq == k.runq + k.sems[t].wq
            && r.sems == k.sems[t := Sem(if k.sems[t].val < 0 then 0 else k.sems[t].val, [])]
            && (forall u :: u in k.sems[t].wq ==> TaskOf(r, u).state == ACTIVE)
  {
    WakeJoinersSound(k, t);
    JoinersAppended(k, t);
    var r := WakeJoiners(k, t);
    forall u | u in k.sems[t].wq ensures TaskOf(r, u).state == ACTIVE {
      assert u in r.runq;
      RunnableIsOnlyThere(r, u);
    }
  }

  lemma FirstJoiner(k: State, t: nat)
    requires Sound(k) && t < |k.sems| && Agrees(k.sems[t]) && k.sems[t].wq != []
    ensures var r := DoSemPost(k, t); var q := k.sems[t].wq;
            && Sound(r) && r.sems == k.sems[t := Sem(k.sems[t].val + 1, q[1..])] && Agrees(r.sems[t])
            && r.runq + q[1..] == k.runq + q
  {
    var w := k.sems[t].wq[0];
    PostAgrees(k.sems[t]);
    SemPostSound(k, t);
    ReleasedNotRunning(k, t);
    assert DoSemPost(k, t).runq == k.runq + [w];
    assert [w] + k.sems[t].wq[1..] == k.sems[t].wq;
  }

  lemma {:induction false} JoinersAppended(k: State, t: nat)
    requires Sound(k) && t < |k.sems| && Agrees(k.sems[t])
    ensures var r := WakeJoiners(k, t);
            && r.runq == k.runq + k.sems[t].wq
            && r.sems == k.sems[t := Sem(if k.sems[t].val < 0 then 0 else k.sems[t].val, [])]
    decreases |k.sems[t].wq|
  {
    if k.sems[t].wq == [] {
      assert k.sems[t := k.sems[t]] == k.sems;
      assert k.runq + [] == k.runq;
    } else {
      FirstJoiner(k, t);
      JoinersAppended(DoSemPost(k, t), t);
    }
  }
}
