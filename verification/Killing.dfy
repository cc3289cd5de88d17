/** What the scheduler does with a task that os_task_kill has removed. */
module Killing {
  import opened SleepTick
  import opened Kernel
  import opened Conservation
  import opened Steps
  import opened Dispatch
  import opened RoundRobin

  /** run_ptr still points at t, whose slot is free and whose state os_task_kill left ACTIVE. */
  ghost predicate Lingering(k: State, t: nat) {
    && Sound(k) && CursorOk(k)
    && k.run == Thread(t) && t in k.free && TaskOf(k, t).state == ACTIVE && TaskOf(k, t).working >= 1
  }

  /** Whether the next tick finds a task to run. */
  predicate Busy(k: State) {
    k.runq != [] || HeapTick(k.sleep).woken != []
  }

  lemma KillLingers(k: State)
    requires Sound(k) && Coupled(k) && Positive(k) && Enabled(k, Kill) && !k.leaked
    ensures var k' := Next(k, Kill); var t := k.run.task;
            && Lingering(k', t) && TaskOf(k', t) == TaskOf(k, t)
            && (Busy(k') <==> |k.runq| > 1 || HeapTick(k.sleep).woken != [])
  {
    var t := k.run.task;
    RunnableIsOnlyThere(k, t);
    KillSound(k, t);
    StepCoupled(k, Kill);
    QueuesDistinct(k);
    WithoutMember(k.runq, t, t);
  }

  /** A tick runs a dead task on while it has slice left, and then a live one. */
  lemma LingeringTick(k: State, t: nat)
    requires Lingering(k, t)
    ensures var r := DoTick(k);
            if !Busy(k) then r.run == Idle
            else if TaskOf(k, t).working == 1 then r.run.Thread? && r.run.task in r.runq
            else Lingering(r, t) && Busy(r) && TaskOf(r, t).working == TaskOf(k, t).working - 1
  {
    UpdateEffect(k);
    UpdateCursor(k);
    TimesIn(k.free, t);
    assert Places(k, t) == 1;
    TimesIn(Tasks(k.sleep), t);
    ScheduleOutcome(Update(k));
    ScheduleSound(Update(k));
  }

  /** The ticks for which a dead task lingers, as seen from the kill. */
  lemma {:induction false} LingersTicks(k: State, t: nat, n: nat)
    requires Lingering(k, t) && Busy(k) && n <= TaskOf(k, t).working
    ensures var r := Ticks(k, n);
            if n < TaskOf(k, t).working then r.run == Thread(t) else r.run.Thread? && r.run.task in r.runq
    decreases n
  {
    if n > 0 {
      LingeringTick(k, t);
      if n > 1 {
        LingersTicks(DoTick(k), t, n - 1);
      }
    }
  }

  /** The tick after a kill runs the dead task exactly if it had slice left and that tick finds another task to run. */
  lemma KilledTaskLingers(k: State)
    requires Sound(k) && Coupled(k) && Positive(k) && Enabled(k, Kill) && Enabled(Next(k, Kill), Tick)
    ensures var t := k.run.task;
            DoTick(Next(k, Kill)).run == Thread(t) <==>
            TaskOf(k, t).working != 1 && (|k.runq| > 1 || HeapTick(k.sleep).woken != [])
  {
    KillLingers(k);
    var k', t := Next(k, Kill), k.run.task;
    LingeringTick(k', t);
    var r := DoTick(k');
    if r.run.Thread? && r.run.task in r.runq {
      UpdateEffect(k');
      TimesIn(k'.free, t);
      TimesIn(k'.runq, t);
      assert Places(k', t) == 1;
      TimesIn(Tasks(k'.sleep), t);
      assert t !in r.runq;
    }
  }

  /**
   It lingers for all of its slice but the tick that replaces it: with w ticks left at the kill it
   runs through the first w - 1 ticks, and the w-th runs a live task. With nothing else to run the
   first tick goes idle.
   */
  lemma LingersForSlice(k: State, n: nat)
    requires Sound(k) && Coupled(k) && Positive(k) && Enabled(k, Kill) && Enabled(Next(k, Kill), Tick)
    requires n <= TaskOf(k, k.run.task).working
    ensures var t := k.run.task; var r := Ticks(Next(k, Kill), n);
            if |k.runq| > 1 || HeapTick(k.sleep).woken != [] then
              if n < TaskOf(k, t).working then r.run == Thread(t) else r.run.Thread? && r.run.task in r.runq
            else n == 1 ==> r.run == Idle
  {
    KillLingers(k);
    if Busy(Next(k, Kill)) {
      LingersTicks(Next(k, Kill), k.run.task, n);
    } else if n == 1 {
      LingeringTick(Next(k, Kill), k.run.task);
      assert Ticks(Next(k, Kill), 1) == DoTick(Next(k, Kill));
    }
  }
}
