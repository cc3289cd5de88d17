/** Each step of the kernel against task conservation. */
module Steps {
  import opened Sequences
  import opened Cursors
  import opened SleepHeap
  import opened SleepTick
  import opened Semaphores
  import opened Kernel
  import opened Conservation

  /**
   The two places where a step loses a task. A sleep needs a free heap slot, and the heap has one
   slot less than there are tasks; a create resets the join semaphore of the slot it reuses.
   */
  ghost predicate KeepsTasks(k: State, op: Op) {
    match op
    case Sleep(ticks) => ticks > 0 ==> |k.sleep| + 1 < k.n
    case Create(priority) => priority > 0 && k.free != [] && k.free[0] < |k.sems| ==> k.sems[k.free[0]].wq == []
    case _ => true
  }

  /** A task on the run queue is there once and nowhere else. */
  lemma RunnableIsOnlyThere(k: State, t: nat)
    requires Single(k) && t in k.runq
    ensures t < k.n && Times(k.runq, t) == 1 && (Fits(k, t) ==> TaskOf(k, t).state == ACTIVE)
    ensures Times(k.free, t) == 0 && Times(Tasks(k.sleep), t) == 0 && OnSems(k, t) == 0 && OnMtxs(k, t) == 0
  {
    TimesIn(k.runq, t);
    assert Places(k, t) <= if t < k.n then 1 else 0;
  }

  // ---------- the tick ----------

  /** What waking a list of tasks that are not on the run queue does: they are appended, in order. */
  lemma {:induction false} WakeAllEffect(k: State, ts: seq<nat>)
    requires Distinct(ts) && (forall t :: t in ts ==> t !in k.runq && t < |k.tasks|)
    ensures var r := WakeAll(k, ts);
            && r == k.(runq := k.runq + ts, active := k.active + |ts|, tasks := r.tasks,
                       cursor := if ts != [] && k.active == 0 then Head else k.cursor)
            && |r.tasks| == |k.tasks|
            && (forall t: nat :: TaskOf(r, t) == if t in ts then TaskOf(k, t).(state := ACTIVE) else TaskOf(k, t))
    decreases |ts|
  {
    if ts == [] {
      assert k.runq + ts == k.runq;
    } else {
      var k' := Unpause(k, ts[0]);
      assert ts == [ts[0]] + ts[1..];
      assert k.runq + ts == k'.runq + ts[1..];
      WakeAllEffect(k', ts[1..]);
      var r := WakeAll(k, ts);
      forall t: nat ensures TaskOf(r, t) == if t in ts then TaskOf(k, t).(state := ACTIVE) else TaskOf(k, t) {
        assert t in ts <==> t == ts[0] || t in ts[1..];
      }
    }
  }

  lemma WokenTimes(h: seq<Node>, t: nat)
    ensures Times(Tasks(h), t) == Times(Tasks(HeapTick(h).heap), t) + Times(HeapTick(h).woken, t)
  {
    DrainTasks(h, |h| / 2);
  }

  /** What os_update does to the kernel: the woken tasks are appended to the run queue as ACTIVE. */
  lemma UpdateEffect(k: State)
    requires WellFormed(k)
    ensures var d := HeapTick(k.sleep); var r := Update(k);
            && r == k.(runq := k.runq + d.woken, active := k.active + |d.woken|, tasks := r.tasks, sleep := d.heap,
                       cursor := if d.woken != [] && k.active == 0 then Head else k.cursor)
            && |r.tasks| == |k.tasks|
            && (forall t: nat :: TaskOf(r, t) == if t in d.woken then TaskOf(k, t).(state := ACTIVE) else TaskOf(k, t))
            && Distinct(d.woken)
            && (forall t :: t in d.woken ==> t in Tasks(k.sleep) && t < k.n && t !in k.runq)
  {
    var d := HeapTick(k.sleep);
    forall t: nat ensures Times(d.woken, t) <= 1 && (t in d.woken ==> t in Tasks(k.sleep) && t < k.n && t !in k.runq) {
      WokenTimes(k.sleep, t);
      TimesIn(d.woken, t);
      TimesIn(k.runq, t);
      TimesIn(Tasks(k.sleep), t);
      assert Places(k, t) <= if t < k.n then 1 else 0;
    }
    SingleIsDistinct(d.woken);
    WakeAllEffect(k.(sleep := d.heap), d.woken);
  }

  lemma UpdateAt(k: State, t: nat)
    requires Sound(k)
    ensures Places(Update(k), t) == Places(k, t) && (t < k.n ==> Fits(Update(k), t))
  {
    var d := HeapTick(k.sleep);
    UpdateEffect(k);
    MultisetOfAppend(k.runq, d.woken);
    WokenTimes(k.sleep, t);
    TimesIn(d.woken, t);
    assert Places(k, t) == if t < k.n then 1 else 0;
    assert t < k.n ==> Fits(k, t);
  }

  lemma UpdateSound(k: State)
    requires Sound(k)
    ensures Sound(Update(k))
  {
    UpdateEffect(k);
    forall t: nat ensures Places(Update(k), t) == (if t < k.n then 1 else 0) && (t < k.n ==> Fits(Update(k), t)) {
      UpdateAt(k, t);
      assert Places(k, t) == if t < k.n then 1 else 0;
    }
  }

  lemma ForwardTask(s: seq<nat>, c: Cursor)
    ensures Forward(s, c).On? ==> Forward(s, c).task in s
  {
  }

  /** A change of control blocks that keeps every state, and of run and cursor, keeps soundness. */
  lemma SameStatesSound(k: State, k': State)
    requires Sound(k) && k' == k.(tasks := k'.tasks, run := k'.run, cursor := k'.cursor, leaked := k'.leaked)
    requires |k'.tasks| == |k.tasks| && (k'.run.Thread? ==> k'.run.task < k.n)
    requires forall t: nat :: TaskOf(k', t).state == TaskOf(k, t).state
    ensures Sound(k')
  {
    forall t: nat ensures Places(k', t) == (if t < k.n then 1 else 0) && (t < k.n ==> Fits(k', t)) {
      assert Places(k, t) == if t < k.n then 1 else 0;
      assert t < k.n ==> Fits(k, t);
    }
  }

  lemma ScheduleSound(k: State)
    requires Sound(k)
    ensures Sound(Schedule(k))
  {
    ForwardTask(k.runq, k.cursor);
    if Forward(k.runq, k.cursor).On? {
      RunnableIsOnlyThere(k, Forward(k.runq, k.cursor).task);
    }
    SameStatesSound(k, Schedule(k));
  }

  lemma TickSound(k: State)
    requires Sound(k)
    ensures Sound(DoTick(k))
  {
    UpdateSound(k);
    ScheduleSound(Update(k));
  }

  // ---------- the running task ----------

  /** Where slot t is after a create, short of the joiners that the reset of the join semaphore forgets. */
  lemma CreateAt(k: State, priority: nat, t: nat)
    requires Sound(k) && k.free != [] && k.free[0] < |k.sems| && priority > 0
    ensures var r := DoCreate(k, priority);
            && Places(r, t) + Times(k.sems[k.free[0]].wq, t) == Places(k, t)
            && (t < k.n ==> Fits(r, t))
  {
    var s := k.free[0];
    FreeInPool(k);
    TimesTail(k.free, t);
    TimesAppend(k.runq, s, t);
    SemUpdate(k, s, Sem(0, []), t);
    assert Places(k, t) <= 1;
    assert t < k.n ==> Fits(k, t);
    assert DoCreate(k, priority).runq == k.runq + [s];
  }

  lemma FreeInPool(k: State)
    requires Single(k) && k.free != []
    ensures k.free[0] < k.n && k.free[0] !in k.runq
  {
    TimesTail(k.free, k.free[0]);
    TimesIn(k.runq, k.free[0]);
    assert Places(k, k.free[0]) <= if k.free[0] < k.n then 1 else 0;
  }

  lemma CreateSound(k: State, priority: nat)
    requires Sound(k)
    ensures Sound(DoCreate(k, priority)) <==> KeepsTasks(k, Create(priority))
    ensures Conserved(DoCreate(k, priority)) <==> KeepsTasks(k, Create(priority))
  {
    if priority > 0 && k.free == [] {
      SameStatesSound(k, DoCreate(k, priority));
    } else if priority > 0 {
      FreeInPool(k);
      var r, q := DoCreate(k, priority), k.sems[k.free[0]].wq;
      forall t: nat
        ensures Places(r, t) + Times(q, t) == (if t < k.n then 1 else 0) && (t < k.n ==> Fits(r, t))
      {
        CreateAt(k, priority, t);
        assert Places(k, t) == if t < k.n then 1 else 0;
      }
      TimesIn(k.runq, k.free[0]);
      TimesIn(k.free, k.free[0]);
      assert Places(k, k.free[0]) <= 1;
      if q != [] {
        TimesIn(q, q[0]);
        assert Places(r, q[0]) != if q[0] < k.n then 1 else 0;
      }
    }
  }

  // a task that leaves the run queue

  lemma DelTaskAt(k: State, t: nat, u: nat)
    requires t in k.runq && k.active == |k.runq|
    ensures var r := DelTask(k, t);
            && Times(r.runq, u) + (if u == t then 1 else 0) == Times(k.runq, u)
            && r == k.(runq := r.runq, active := |r.runq|, cursor := r.cursor)
  {
    TimesWithout(k.runq, t, u);
  }

  /** Under a free heap slot the sleeper goes to the heap; otherwise it is nowhere. */
  lemma SleepAt(k: State, t: nat, ticks: nat, u: nat)
    requires Sound(k) && t in k.runq && ticks > 0
    ensures var r := DoSleep(k, t, ticks);
            && Places(r, u) == Places(k, u) - (if u == t && |k.sleep| + 1 >= k.n then 1 else 0)
            && (u < k.n ==> Fits(r, u))
            && r.active == |r.runq|
  {
    PushTasks(k.sleep, ticks, NodeFor(t, ticks));
    var x, full := TaskOf(k, t), |k.sleep| + 1 >= k.n;
    var h := if full then k.sleep else Push(k.sleep, ticks, NodeFor(t, ticks));
    AsleepAt(k, t, x.(state := SLEEPING, working := x.fixed), h, !full, u);
  }

  lemma AsleepAt(k: State, t: nat, x: Task, h: seq<Node>, stored: bool, u: nat)
    requires Sound(k) && t in k.runq && x.state == SLEEPING
    requires Times(Tasks(h), u) == Times(Tasks(k.sleep), u) + if stored && u == t then 1 else 0
    ensures var r := DelTask(SetTask(k.(sleep := h), t, x), t);
            && Places(r, u) == Places(k, u) - (if u == t && !stored then 1 else 0)
            && (u < k.n ==> Fits(r, u))
            && r.active == |r.runq|
  {
    RunnableIsOnlyThere(k, t);
    DelTaskAt(SetTask(k.(sleep := h), t, x), t, u);
    assert u < k.n ==> Fits(k, u);
    assert Places(k, u) <= 1;
  }

  lemma SleepSound(k: State, t: nat, ticks: nat)
    requires Sound(k) && t in k.runq && (k.run.Thread? ==> k.run.task < k.n)
    ensures Sound(DoSleep(k, t, ticks)) <==> KeepsTasks(k, Sleep(ticks))
    ensures Conserved(DoSleep(k, t, ticks)) <==> KeepsTasks(k, Sleep(ticks))
  {
    if ticks > 0 {
      var r := DoSleep(k, t, ticks);
      SleepAt(k, t, ticks, t);
      if |k.sleep| + 1 >= k.n {
        RunnableIsOnlyThere(k, t);
        assert Places(k, t) == if t < k.n then 1 else 0;
        assert Places(r, t) == 0;
      } else {
        forall u: nat ensures Places(r, u) == (if u < k.n then 1 else 0) && (u < k.n ==> Fits(r, u)) {
          SleepAt(k, t, ticks, u);
          assert Places(k, u) == if u < k.n then 1 else 0;
        }
      }
    }
  }

  lemma BlockOnSemAt(k: State, t: nat, s: nat, x: Sem, u: nat)
    requires Sound(k) && t in k.runq && s < |k.sems| && x.wq == k.sems[s].wq + [t]
    ensures var r := Block(k.(sems := k.sems[s := x]), t);
            Places(r, u) == Places(k, u) && (u < k.n ==> Fits(r, u))
  {
    RunnableIsOnlyThere(k, t);
    SemUpdate(k, s, x, u);
    TimesAppend(k.sems[s].wq, t, u);
    DelTaskAt(SetState(k.(sems := k.sems[s := x]), t, BLOCKING), t, u);
    assert u < k.n ==> Fits(k, u);
    assert Places(k, u) <= 1;
  }

  lemma SemWaitAt(k: State, t: nat, s: nat, u: nat)
    requires Sound(k) && t in k.runq && s < |k.sems|
    ensures var r := DoSemWait(k, t, s);
            Places(r, u) == Places(k, u) && (u < k.n ==> Fits(r, u))
  {
    hide Block;
    QueueHasRoom(k, t);
    var w := Wait(k.sems[s], t, k.n);
    if w.blocks {
      BlockOnSemAt(k, t, s, w.sem, u);
    } else {
      SemUpdate(k, s, w.sem, u);
      assert u < k.n ==> Fits(k, u);
    }
  }

  lemma SemWaitSound(k: State, t: nat, s: nat)
    requires Sound(k) && t in k.runq && s < |k.sems|
    ensures Sound(DoSemWait(k, t, s))
  {
    var r := DoSemWait(k, t, s);
    forall u: nat ensures Places(r, u) == (if u < k.n then 1 else 0) && (u < k.n ==> Fits(r, u)) {
      SemWaitAt(k, t, s, u);
      assert Places(k, u) == if u < k.n then 1 else 0;
    }
    DelTaskAt(SetState(k.(sems := k.sems[s := Wait(k.sems[s], t, k.n).sem]), t, BLOCKING), t, t);
  }

  lemma SemTryWaitSound(k: State, s: nat)
    requires Sound(k) && s < |k.sems|
    ensures Sound(DoSemTryWait(k, s))
  {
    var r := DoSemTryWait(k, s);
    assert SemQueues(r.sems) == SemQueues(k.sems);
    forall u: nat ensures Places(r, u) == (if u < k.n then 1 else 0) && (u < k.n ==> Fits(r, u)) {
      assert Places(k, u) == if u < k.n then 1 else 0;
      assert u < k.n ==> Fits(k, u);
    }
  }

  lemma ReleasedNotRunning(k: State, s: nat)
    requires Single(k) && s < |k.sems| && k.sems[s].wq != []
    ensures k.sems[s].wq[0] !in k.runq && k.sems[s].wq[0] < k.n
  {
    var w := k.sems[s].wq[0];
    SemUpdate(k, s, k.sems[s], w);
    TimesTail(k.sems[s].wq, w);
    TimesIn(k.runq, w);
    assert Places(k, w) <= if w < k.n then 1 else 0;
  }

  /** Where slot u is after the longest waiter of semaphore s moves to the run queue. */
  lemma ReleaseAt(k: State, s: nat, x: Sem, u: nat)
    requires Sound(k) && s < |k.sems| && k.sems[s].wq != [] && x.wq == k.sems[s].wq[1..]
    ensures var r := Unpause(k.(sems := k.sems[s := x]), k.sems[s].wq[0]);
            && Places(r, u) == Places(k, u) && (u < k.n ==> Fits(r, u)) && r.active == |r.runq|
  {
    var w := k.sems[s].wq[0];
    SemUpdate(k, s, x, u);
    TimesTail(k.sems[s].wq, u);
    ReleasedNotRunning(k, s);
    TimesAppend(k.runq, w, u);
    assert Places(k, u) <= 1;
    assert u < k.n ==> Fits(k, u);
  }

  lemma SemPostAt(k: State, s: nat, u: nat)
    requires Sound(k) && s < |k.sems|
    ensures var r := DoSemPost(k, s);
            && Places(r, u) == Places(k, u) && (u < k.n ==> Fits(r, u)) && r.active == |r.runq|
  {
    var p := Post(k.sems[s]);
    if p.release.Waiter? {
      ReleaseAt(k, s, p.sem, u);
    } else {
      SemUpdate(k, s, p.sem, u);
      assert u < k.n ==> Fits(k, u);
    }
  }

  lemma SemPostShape(k: State, s: nat)
    requires Shape(k) && s < |k.sems|
    ensures Shape(DoSemPost(k, s))
  {
  }

  lemma SemPostSound(k: State, s: nat)
    requires Sound(k) && s < |k.sems|
    ensures Sound(DoSemPost(k, s))
  {
    SemPostShape(k, s);
    var r := DoSemPost(k, s);
    forall u: nat ensures Places(r, u) == (if u < k.n then 1 else 0) && (u < k.n ==> Fits(r, u)) {
      SemPostAt(k, s, u);
      assert Places(k, u) == if u < k.n then 1 else 0;
    }
  }

  lemma {:induction false} WakeJoinersSound(k: State, t: nat)
    requires Sound(k) && t < |k.sems| && Agrees(k.sems[t])
    ensures Sound(WakeJoiners(k, t))
    decreases |k.sems[t].wq|
  {
    if k.sems[t].wq != [] {
      SemPostSound(k, t);
      PostAgrees(k.sems[t]);
      WakeJoinersSound(DoSemPost(k, t), t);
    }
  }

  lemma BoostStates(k: State, h: nat, t: nat)
    ensures var r := Boost(k, h, t);
            && r == k.(tasks := r.tasks) && |r.tasks| == |k.tasks|
            && (forall u: nat :: TaskOf(r, u).state == TaskOf(k, u).state)
  {
  }

  lemma BlockOnMtxAt(k: State, t: nat, m: nat, y: Mutex, u: nat)
    requires Sound(k) && t in k.runq && m < |k.mtxs| && y.wq == k.mtxs[m].wq + [t]
    ensures var r := Block(k.(mtxs := k.mtxs[m := y]), t);
            && Places(r, u) == Places(k, u) && (u < k.n ==> Fits(r, u)) && r.active == |r.runq|
  {
    RunnableIsOnlyThere(k, t);
    MtxUpdate(k, m, y, u);
    TimesAppend(k.mtxs[m].wq, t, u);
    DelTaskAt(SetState(k.(mtxs := k.mtxs[m := y]), t, BLOCKING), t, u);
    assert u < k.n ==> Fits(k, u);
    assert Places(k, u) <= 1;
  }

  lemma LockAt(k: State, t: nat, m: nat, u: nat)
    requires Sound(k) && t in k.runq && m < |k.mtxs|
    ensures var r := DoLock(k, t, m);
            && Places(r, u) == Places(k, u) && (u < k.n ==> Fits(r, u)) && r.active == |r.runq|
  {
    var x := k.mtxs[m];
    match x.holder
    case None =>
      MtxUpdate(k, m, x.(holder := Some(t)), u);
      assert u < k.n ==> Fits(k, u);
    case Some(h) =>
      BoostStates(k, h, t);
      SameStatesSound(k, Boost(k, h, t));
      QueueHasRoom(k, t);
      BlockOnMtxAt(Boost(k, h, t), t, m, x.(wq := x.wq + [t]), u);
  }

  lemma LockShape(k: State, t: nat, m: nat)
    requires Shape(k) && t in k.runq && t < k.n && m < |k.mtxs|
    ensures Shape(DoLock(k, t, m))
  {
  }

  lemma LockSound(k: State, t: nat, m: nat)
    requires Sound(k) && t in k.runq && m < |k.mtxs|
    ensures Sound(DoLock(k, t, m))
  {
    var r := DoLock(k, t, m);
    RunnableIsOnlyThere(k, t);
    LockShape(k, t, m);
    forall u: nat ensures Places(r, u) == (if u < k.n then 1 else 0) && (u < k.n ==> Fits(r, u)) {
      LockAt(k, t, m, u);
      assert Places(k, u) == if u < k.n then 1 else 0;
    }
  }

  lemma WaiterNotRunning(k: State, m: nat)
    requires Single(k) && m < |k.mtxs| && k.mtxs[m].wq != []
    ensures k.mtxs[m].wq[0] !in k.runq && k.mtxs[m].wq[0] < k.n
  {
    var w := k.mtxs[m].wq[0];
    MtxUpdate(k, m, k.mtxs[m], w);
    TimesTail(k.mtxs[m].wq, w);
    TimesIn(k.runq, w);
    assert Places(k, w) <= if w < k.n then 1 else 0;
  }

  lemma HandOverAt(k: State, m: nat, u: nat)
    requires Sound(k) && m < |k.mtxs| && k.mtxs[m].wq != []
    ensures var x := k.mtxs[m]; var w := x.wq[0];
            var r := Unpause(k.(mtxs := k.mtxs[m := Mutex(Some(w), x.wq[1..])]), w);
            && Places(r, u) == Places(k, u) && (u < k.n ==> Fits(r, u)) && r.active == |r.runq|
  {
    var x := k.mtxs[m];
    var w := x.wq[0];
    var y := Mutex(Some(w), x.wq[1..]);
    WaiterNotRunning(k, m);
    MtxUpdate(k, m, y, u);
    TimesTail(x.wq, u);
    TimesAppend(k.runq, w, u);
    assert Places(k, u) <= 1;
    assert u < k.n ==> Fits(k, u);
  }

  /** What an unlock of m by t does to the priorities, before the mutex changes. */
  function Restored(k: State, t: nat, m: nat): State
    requires m < |k.mtxs|
  {
    var k' := SetTask(k, t, TaskOf(k, t).(fixed := TaskOf(k, t).base));
    if k.mtxs[m].wq == [] then k' else
    var w, pass := k.mtxs[m].wq[0], TaskOf(k, t).fixed;
    SetTask(k', w, TaskOf(k', w).(fixed := pass, working := pass))
  }

  lemma RestoredSound(k: State, t: nat, m: nat)
    requires Sound(k) && m < |k.mtxs|
    ensures Sound(Restored(k, t, m)) && Restored(k, t, m) == k.(tasks := Restored(k, t, m).tasks)
    ensures forall u: nat :: Places(Restored(k, t, m), u) == Places(k, u)
  {
    SameStatesSound(k, Restored(k, t, m));
  }

  lemma UnlockAt(k: State, t: nat, m: nat, u: nat)
    requires Sound(k) && t in k.runq && m < |k.mtxs|
    ensures var r := DoUnlock(k, t, m);
            && Places(r, u) == Places(k, u) && (u < k.n ==> Fits(r, u)) && r.active == |r.runq|
  {
    RestoredSound(k, t, m);
    var k' := Restored(k, t, m);
    assert u < k.n ==> Fits(k, u) && Fits(k', u);
    if k.mtxs[m].holder == Some(t) {
      if k.mtxs[m].wq == [] {
        MtxUpdate(k', m, Mutex(None, []), u);
      } else {
        HandOverAt(k', m, u);
      }
    }
  }

  lemma UnlockSound(k: State, t: nat, m: nat)
    requires Sound(k) && t in k.runq && m < |k.mtxs|
    ensures Sound(DoUnlock(k, t, m))
  {
    var r := DoUnlock(k, t, m);
    forall u: nat ensures Places(r, u) == (if u < k.n then 1 else 0) && (u < k.n ==> Fits(r, u)) {
      UnlockAt(k, t, m, u);
      assert Places(k, u) == if u < k.n then 1 else 0;
    }
    UnlockAt(k, t, m, 0);
    if k.mtxs[m].wq != [] {
      WaiterNotRunning(k, m);
    }
  }

  lemma KillSound(k: State, t: nat)
    requires Sound(k) && t in k.runq
    ensures Sound(DoKill(k, t))
  {
    var r := DoKill(k, t);
    forall u: nat ensures Places(r, u) == (if u < k.n then 1 else 0) && (u < k.n ==> Fits(r, u)) {
      DelTaskAt(k, t, u);
      TimesPrepend(k.free, t, u);
      assert Places(k, u) == if u < k.n then 1 else 0;
      assert u < k.n ==> Fits(k, u);
    }
    DelTaskAt(k, t, t);
  }

  // ---------- every step, every run ----------

  lemma ActConserves(k: State, op: Op)
    requires Sound(k) && Enabled(k, op)
    ensures Sound(Act(k, op)) <==> KeepsTasks(k, op)
    ensures Conserved(Act(k, op)) <==> KeepsTasks(k, op)
  {
    match op
    case Create(priority) => CreateSound(k, priority);
    case Launch =>
      if k.active > 0 {
        ForwardTask(k.runq, k.cursor);
        if Forward(k.runq, k.cursor).On? {
          RunnableIsOnlyThere(k, Forward(k.runq, k.cursor).task);
        }
        SameStatesSound(k, ChangeTask(k));
      } else {
        SameStatesSound(k, k.(run := Idle));
      }
    case Tick => TickSound(k);
    case Sleep(ticks) => SleepSound(k, k.run.task, ticks);
    case SemWait(s) => SemWaitSound(k, k.run.task, s);
    case SemTryWait(s) => SemTryWaitSound(k, s);
    case SemPost(s) => SemPostSound(k, s);
    case Lock(m) => LockSound(k, k.run.task, m);
    case Unlock(m) => UnlockSound(k, k.run.task, m);
    case Exit => WakeJoinersSound(k, k.run.task);
    case Kill => KillSound(k, k.run.task);
  }

  /**
   Each step keeps every slot in exactly one place, once, with the matching state, exactly when
   a sleep finds a free heap slot and a create reuses a slot on whose join semaphore nobody waits.
   */
  lemma StepConserves(k: State, op: Op)
    requires Sound(k) && Enabled(k, op)
    ensures Sound(Next(k, op)) <==> KeepsTasks(k, op)
    ensures Conserved(Next(k, op)) <==> KeepsTasks(k, op)
  {
    ActConserves(k, op);
    EndSound(Act(k, op));
  }

  /** Leaving the critical section moves no task. */
  lemma EndSound(k: State)
    ensures Conserved(EndCritical(k)) == Conserved(k) && (Sound(k) ==> Sound(EndCritical(k)))
  {
    var r := EndCritical(k);
    assert forall t: nat :: Places(r, t) == Places(k, t) && Fits(r, t) == Fits(k, t);
  }

  ghost predicate KeepsTasksAll(k: State, ops: seq<Op>)
    requires IsRun(k, ops)
    decreases |ops|
  {
    ops == [] || (KeepsTasks(k, ops[0]) && KeepsTasksAll(Next(k, ops[0]), ops[1..]))
  }
}
