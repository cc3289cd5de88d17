/**
 Whole runs seen from one task: how long its turn lasts, whatever it does in the meantime, whose
 priority it has, and where the first turn goes.
 */
module Turns {
  import opened Cursors
  import opened SleepTick
  import opened Semaphores
  import opened Kernel
  import opened Conservation
  import opened Steps
  import opened Invariants
  import opened Dispatch
  import opened Sleeping
  import opened Effects
  import Pool

  // ---------- a turn ----------

  /** Task t runs, and is runnable. */
  ghost predicate OnTurn(k: State, t: nat) {
    WellFormed(k) && k.run == Thread(t) && t in k.runq && TaskOf(k, t).state == ACTIVE
  }

  ghost predicate NeverGivesUp(k: State, ops: seq<Op>)
    requires IsRun(k, ops)
    decreases |ops|
  {
    ops == [] || (!GivesUp(k, ops[0]) && NeverGivesUp(Next(k, ops[0]), ops[1..]))
  }

  /** A tick inside the slice uses up one tick of it. */
  lemma TickInTurn(k: State, t: nat)
    requires OnTurn(k, t) && TaskOf(k, t).working > 1
    ensures OnTurn(DoTick(k), t) && TaskOf(DoTick(k), t).working == TaskOf(k, t).working - 1
  {
    RunnableIsOnlyThere(k, t);
    TickWellFormed(k);
    UpdateEffect(k);
    TickTask(k, t);
  }

  lemma StepInTurn(k: State, t: nat, op: Op)
    requires OnTurn(k, t) && Enabled(k, op) && !GivesUp(k, op) && (op == Tick ==> TaskOf(k, t).working > 1)
    ensures OnTurn(Next(k, op), t)
    ensures TaskOf(Next(k, op), t).working == TaskOf(k, t).working - if op == Tick then 1 else 0
  {
    if op == Tick {
      TickInTurn(k, t);
    } else {
      StepWellFormed(k, op);
      StepStays(k, op);
    }
  }

  /**
   A task that does not give up the processor keeps it for its whole slice, whatever else it does and
   whoever wakes, and uses up exactly one tick of the slice per tick.
   */
  lemma {:induction false} TurnUsesSlice(k: State, t: nat, ops: seq<Op>)
    requires OnTurn(k, t) && IsRun(k, ops) && NeverGivesUp(k, ops) && TickCount(ops) < TaskOf(k, t).working
    ensures OnTurn(Exec(k, ops), t)
    ensures TaskOf(Exec(k, ops), t).working == TaskOf(k, t).working - TickCount(ops)
    decreases |ops|
  {
    hide Next, OnTurn, GivesUp;
    if ops != [] {
      StepInTurn(k, t, ops[0]);
      TurnUsesSlice(Next(k, ops[0]), t, ops[1..]);
    }
  }

  /** The tick after that renews the slice, and the next task in the run queue, going round, runs. */
  lemma TurnEnds(k: State, t: nat, ops: seq<Op>)
    requires OnTurn(k, t) && IsRun(k, ops) && NeverGivesUp(k, ops) && TickCount(ops) + 1 == TaskOf(k, t).working
    requires Coupled(Exec(k, ops))
    ensures var j := Exec(k, ops); var r := DoTick(j);
            && TaskOf(r, t).working == TaskOf(r, t).fixed && r.runq == j.runq + HeapTick(j.sleep).woken
            && r.run.Thread? && On(r.run.task) == r.cursor == Forward(r.runq, On(t))
  {
    TurnUsesSlice(k, t, ops);
    LastTickOfTurn(Exec(k, ops), t);
  }

  lemma LastTickOfTurn(k: State, t: nat)
    requires OnTurn(k, t) && Coupled(k) && TaskOf(k, t).working == 1
    ensures var r := DoTick(k);
            && TaskOf(r, t).working == TaskOf(r, t).fixed && r.runq == k.runq + HeapTick(k.sleep).woken
            && r.run.Thread? && On(r.run.task) == r.cursor == Forward(r.runq, On(t))
  {
    RunnableIsOnlyThere(k, t);
    UpdateEffect(k);
    TickTask(k, t);
    ForwardOk(Update(k).runq, On(t));
  }

  // ---------- whose priority ----------

  /** The priority of the last create of a run that took slot t, or p if none did. */
  ghost function CreatedWith(k: State, ops: seq<Op>, t: nat, p: nat): nat
    requires IsRun(k, ops)
    decreases |ops|
  {
    if ops == [] then p else
    CreatedWith(Next(k, ops[0]), ops[1..], t, if Creates(k, ops[0], t) then ops[0].priority else p)
  }

  lemma StepBase(k: State, op: Op, t: nat)
    requires WellFormed(k) && Enabled(k, op) && t < k.n
    ensures TaskOf(Next(k, op), t).base == if Creates(k, op, t) then op.priority else TaskOf(k, t).base
  {
    if op == Tick {
      TickTask(k, t);
    } else {
      StepTask(k, op, t);
    }
  }

  /** The base priority of a task is that of the create that made it, after any run. */
  lemma {:induction false} BaseIsCreated(k: State, ops: seq<Op>, t: nat)
    requires WellFormed(k) && IsRun(k, ops) && t < k.n
    ensures TaskOf(Exec(k, ops), t).base == CreatedWith(k, ops, t, TaskOf(k, t).base)
    decreases |ops|
  {
    hide Next, WellFormed;
    if ops != [] {
      StepBase(k, ops[0], t);
      StepWellFormed(k, ops[0]);
      StepSize(k, ops[0]);
      BaseIsCreated(Next(k, ops[0]), ops[1..], t);
    }
  }

  /** So it is from os_init on. */
  lemma BaseFromInit(n: nat, values: seq<nat>, mutexes: nat, ops: seq<Op>, t: nat)
    requires n <= VAL_MAX && IsRun(Initial(n, values, mutexes), ops) && t < n
    ensures var k := Initial(n, values, mutexes);
            TaskOf(Exec(k, ops), t).base == CreatedWith(k, ops, t, 1)
  {
    InitialSound(n, values, mutexes);
    BaseIsCreated(Initial(n, values, mutexes), ops, t);
  }

  /** A created task is ACTIVE, with the priority it was asked for and a full slice, at the end of the run queue. */
  lemma CreateMakes(k: State, priority: nat)
    requires WellFormed(k) && Enabled(k, Create(priority)) && priority > 0 && k.free != []
    ensures var r := Next(k, Create(priority)); var t := k.free[0];
            && TaskOf(r, t) == Task(priority, priority, priority, ACTIVE)
            && r.runq == k.runq + [t] && r.free == k.free[1..]
            && t < |k.sems| && r.sems == k.sems[t := Sem(0, [])]
  {
    FreeInPool(k);
    StepTask(k, Create(priority), k.free[0]);
    StepRunQueue(k, Create(priority));
  }

  // ---------- the first turn ----------

  /** Before the launch the iterator stands on the pseudo head, and the run queue is as the creates filled it. */
  ghost predicate Booting(k: State) {
    k.run == Boot ==> k.cursor == Head && k.active == |k.runq|
  }

  lemma StepBoots(k: State, op: Op)
    requires WellFormed(k) && Booting(k) && Enabled(k, op)
    ensures Booting(Next(k, op)) && (Next(k, op).run == Boot ==> k.run == Boot && op.Create?)
  {
    hide DoTick, DoSleep, DoSemWait, DoSemPost, DoLock, DoUnlock, DoKill, WakeJoiners;
    RunAfter(k, op);
    StepWellFormed(k, op);
  }

  lemma {:induction false} RunBoots(k: State, ops: seq<Op>)
    requires WellFormed(k) && Booting(k) && IsRun(k, ops)
    ensures WellFormed(Exec(k, ops)) && Booting(Exec(k, ops))
    decreases |ops|
  {
    hide Next, WellFormed, Booting;
    if ops != [] {
      StepBoots(k, ops[0]);
      StepWellFormed(k, ops[0]);
      RunBoots(Next(k, ops[0]), ops[1..]);
    }
  }

  /** Whatever main has created, the launch runs the task at the front of the run queue, or the idle thread. */
  lemma LaunchRunsFirst(n: nat, values: seq<nat>, mutexes: nat, ops: seq<Op>)
    requires n <= VAL_MAX && IsRun(Initial(n, values, mutexes), ops)
    requires Exec(Initial(n, values, mutexes), ops).run == Boot
    ensures var k := Exec(Initial(n, values, mutexes), ops);
            Enabled(k, Launch) && Next(k, Launch).run == if k.runq == [] then Idle else Thread(k.runq[0])
  {
    InitialSound(n, values, mutexes);
    RunBoots(Initial(n, values, mutexes), ops);
  }
}
