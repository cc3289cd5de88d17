/** A task that a step has lost is lost for good, so a run conserves tasks exactly when each step does. */
module Losses {
  import opened Kernel
  import opened Conservation
  import opened Steps
  import opened Invariants

  /** A lost task stays lost in every further run, in whatever state the kernel is. */
  lemma {:induction false} LostForever(k: State, ops: seq<Op>, t: nat)
    requires IsRun(k, ops) && Nowhere(k, t)
    ensures Nowhere(Exec(k, ops), t) && Exec(k, ops).n == k.n
    decreases |ops|
  {
    if ops != [] {
      StepPlaces(k, ops[0], t);
      StepSize(k, ops[0]);
      LostForever(Next(k, ops[0]), ops[1..], t);
    }
  }

  /** Whom a step loses: the sleeper that finds the heap full, or a joiner of a reused slot. */
  lemma StepLoses(k: State, op: Op) returns (t: nat)
    requires Sound(k) && Enabled(k, op) && !KeepsTasks(k, op)
    ensures t < k.n && Nowhere(Next(k, op), t)
  {
    if op.Sleep? {
      t := k.run.task;
      RunnableIsOnlyThere(k, t);
      SleepAt(k, t, op.ticks, t);
    } else {
      var q := k.sems[k.free[0]].wq;
      t := q[0];
      TimesIn(q, t);
      CreateAt(k, op.priority, t);
    }
    assert Places(k, t) == if t < k.n then 1 else 0;
  }

  /** Task conservation over whole runs: it holds at the end exactly when no step on the way lost a task. */
  lemma {:induction false} RunConserves(k: State, ops: seq<Op>)
    requires Sound(k) && IsRun(k, ops)
    ensures Sound(Exec(k, ops)) <==> KeepsTasksAll(k, ops)
    ensures Conserved(Exec(k, ops)) <==> KeepsTasksAll(k, ops)
    decreases |ops|
  {
    if ops != [] {
      var k' := Next(k, ops[0]);
      StepConserves(k, ops[0]);
      if KeepsTasks(k, ops[0]) {
        RunConserves(k', ops[1..]);
      } else {
        var t := StepLoses(k, ops[0]);
        StepSize(k, ops[0]);
        LostForever(k', ops[1..], t);
        assert Places(Exec(k', ops[1..]), t) != if t < k.n then 1 else 0;
      }
    }
  }
}
