/**
 The kernel as a program over its data structures: every call is proved to change the objects as
 the step of the same name in module Kernel changes the state they stand for.
 */
module Os {
  import opened Cursors
  import opened SleepHeap
  import opened SleepTick
  import opened Semaphores
  import opened Tables
  import opened PriorityQueue
  import opened SinglyLinked
  import Pool
  import opened Scheduler
  import K = Kernel
  import opened Conservation
  import opened Steps
  import opened Invariants

  /** The pool's items, not yet on its free list. */
  method NewItems(n: nat) returns (items: seq<Element>)
    ensures |items| == n && forall i :: 0 <= i < n ==> fresh(items[i]) && items[i].slot == i
  {
    items := [];
    for i := 0 to n
      invariant |items| == i && forall j :: 0 <= j < i ==> fresh(items[j]) && items[j].slot == j
    {
      var e := new Element(i);
      items := items + [e];
    }
  }

  lemma InitialSems(n: nat, values: seq<nat>, s: seq<Sem>)
    requires |s| == n + |values|
    requires forall i :: 0 <= i < |s| ==> s[i] == Sem((seq(n, _ => 0) + values)[i], [])
    ensures s == K.Initial(n, values, 0).sems
  {
  }

  /** Whoever a post releases is a task of the pool. */
  lemma WaiterInPool(k: K.State, s: nat)
    requires Single(k) && s < |k.sems|
    ensures Semaphores.Post(k.sems[s]).release.Waiter? ==> Semaphores.Post(k.sems[s]).release.task < k.n
  {
    if k.sems[s].wq != [] {
      ReleasedNotRunning(k, s);
    }
  }

  /** The running task is in the pool and not free. */
  lemma KillReady(k: K.State)
    requires WellFormed(k) && K.Enabled(k, K.Kill)
    ensures k.run.task < k.n && k.run.task !in k.free
    ensures K.Next(k, K.Kill) == K.EndCritical(K.DoKill(k, k.run.task))
  {
    RunnableIsOnlyThere(k, k.run.task);
    TimesIn(k.free, k.run.task);
  }

  /** A new control block may be linked before it is filled in. */
  lemma LinkThenFill(k: K.State, t: nat, x: K.Task)
    requires k.free != []
    ensures var k1 := k.(free := k.free[1..]);
            K.SetTask(K.ResetJoinSem(K.AddTask(k1, t), t), t, x) == K.AddTask(K.SetTask(K.ResetJoinSem(k1, t), t, x), t)
  {
  }

  ghost predicate JoinReady(k: K.State, t: nat) {
    WellFormed(k) && t < |k.sems| && Agrees(k.sems[t])
  }

  /** One round of the wake loop of os_task_exit. */
  lemma JoinStep(k: K.State, t: nat)
    requires JoinReady(k, t) && k.sems[t].wq != []
    ensures var r := K.DoSemPost(k, t);
            && JoinReady(r, t) && |r.sems[t].wq| < |k.sems[t].wq| && K.WakeJoiners(k, t) == K.WakeJoiners(r, t)
  {
    PostWellFormed(k, t);
    PostAgrees(k.sems[t]);
  }

  /** The scheduler does not look at the pool, the sleepers, the semaphores or the mutexes. */
  lemma ScheduleElsewhere(v: K.State, k: K.State)
    requires k == v.(free := k.free, sleep := k.sleep, sems := k.sems, mtxs := k.mtxs)
    ensures K.Schedule(k) == K.Schedule(v).(free := k.free, sleep := k.sleep, sems := k.sems, mtxs := k.mtxs)
    ensures K.Switches(k) == K.Switches(v)
  {
  }

  // ---------- the wake loop of os_update, one round at a time ----------

  ghost predicate SleepersBelow(h: seq<Node>, n: nat) {
    forall j :: 0 <= j < |h| ==> h[j].task < n
  }

  lemma SleepersInPool(k: K.State)
    requires Single(k)
    ensures SleepersBelow(k.sleep, k.n)
  {
    forall j | 0 <= j < |k.sleep| ensures k.sleep[j].task < k.n {
      var t := Tasks(k.sleep)[j];
      TimesIn(Tasks(k.sleep), t);
      assert Places(k, t) <= if t < k.n then 1 else 0;
    }
  }

  lemma PopBelow(h: seq<Node>, n: nat)
    requires SleepersBelow(h, n) && h != []
    ensures SleepersBelow(Pop(h), n)
  {
    PopRest(h);
    forall j | 0 <= j < |Pop(h)| ensures Pop(h)[j].task < n {
      assert Pop(h)[j] in multiset(h[1..]);
    }
  }

  /** The loop from the evaluation of its guard on. */
  ghost function Rest(k: K.State, keep: nat): K.State {
    var d := Drain(k.sleep, keep);
    K.WakeAll(k.(sleep := d.heap), d.woken)
  }

  /** The body of the loop: the root, already lowered, is popped and its task woken. */
  ghost function WakeRoot(k: K.State): K.State
    requires k.sleep != []
  {
    K.Unpause(k, k.sleep[0].task).(sleep := SleepTick.Rebase(Pop(k.sleep), k.sleep[0].ticks))
  }

  /** The body, one part after the other. */
  lemma WakesRoot(k: K.State)
    requires k.sleep != [] && SleepersBelow(k.sleep, k.n)
    ensures var u := K.Unpause(k.(sleep := Pop(k.sleep)), k.sleep[0].task);
            u.(sleep := SleepTick.Rebase(u.sleep, k.sleep[0].ticks)) == WakeRoot(k)
    ensures SleepersBelow(WakeRoot(k).sleep, k.n)
  {
    PopBelow(k.sleep, k.n);
  }

  /** Evaluating the guard, and the body if the root is due, is one round of the loop. */
  lemma RestStep(k: K.State, keep: nat)
    ensures var d := if |k.sleep| > keep then DecRoot(k.sleep) else k.sleep;
            Rest(k, keep) == if |k.sleep| > keep && d[0].priority <= 0 then Rest(WakeRoot(k.(sleep := d)), keep)
                             else k.(sleep := d)
  {
  }

  class System {
    const n: nat
    const sched: RoundRobinQueue
    const sleepQueue: PQueue
    const taskMem: Pool.Allocator
    const sems: SemTable
    const mtxs: MtxTable

    ghost predicate Valid()
      reads sched.Repr, sleepQueue, sleepQueue.storage, taskMem.Repr, sems.Repr, mtxs.Repr
    {
      && n > 0
      && sched.Valid() && sched.tasks.Length == n
      && sleepQueue.Valid() && sleepQueue.storage.Length == n
      && taskMem.Valid() && |taskMem.items| == n
      && sems.Valid() && sems.cap == n
      && mtxs.Valid() && mtxs.cap == n
      && sched.Repr !! {sleepQueue, sleepQueue.storage} !! taskMem.Repr !! sems.Repr !! mtxs.Repr
    }

    /** The kernel state that the objects stand for. */
    ghost function State(): K.State
      reads sched.Repr, sleepQueue, sleepQueue.storage, taskMem.Repr, sems.Repr, mtxs.Repr
      requires Valid()
    {
      sched.View().(free := taskMem.FreeSlots(), sleep := sleepQueue.View(), sems := sems.View(), mtxs := mtxs.View())
    }

    /** Puts separate parts together. */
    constructor (q: RoundRobinQueue, h: PQueue, p: Pool.Allocator, ss: SemTable, ms: MtxTable)
      requires q.Valid() && h.Valid() && p.Valid() && ss.Valid() && ms.Valid()
      requires 0 < q.tasks.Length == h.storage.Length == |p.items| == ss.cap == ms.cap
      requires q.Repr !! {h, h.storage} !! p.Repr !! ss.Repr !! ms.Repr
      ensures Valid() && n == q.tasks.Length
      ensures State() == q.View().(free := p.FreeSlots(), sleep := h.View(), sems := ss.View(), mtxs := ms.View())
    {
      n := q.tasks.Length;
      sched, sleepQueue, taskMem, sems, mtxs := q, h, p, ss, ms;
    }

    /**
     A state in which the step op can be taken and is defined in C: it does not follow the iterator
     while that is NULL. All that is asked of the rest is what every reachable state has.
     */
    ghost predicate Ready(op: K.Op)
      reads sched.Repr, sleepQueue, sleepQueue.storage, taskMem.Repr, sems.Repr, mtxs.Repr
    {
      Valid() && WellFormed(State()) && K.Enabled(State(), op) && !K.FollowsNull(State(), op)
    }

    // ---------- single parts of the kernel ----------

    /** os_task_block */
    method TaskBlock(t: nat)
      requires Valid() && t < n && State().cursor != Lost
      modifies sched.Repr
      ensures Valid() && State() == K.Block(old(State()), t)
    {
      sched.Block(t);
    }

    /** os_task_unpause */
    method TaskUnpause(t: nat)
      requires Valid() && t < n
      modifies sched.Repr
      ensures Valid() && State() == K.Unpause(old(State()), t)
    {
      sched.Unpause(t);
    }

    /** os_task_pause of a task whose control block was updated before. */
    method TaskPause(t: nat)
      requires Valid() && t < n && State().cursor != Lost
      modifies sched.Repr
      ensures Valid() && State() == K.DelTask(old(State()), t)
    {
      var _ := sched.DelTaskMmang(t);
    }

    method AddTask(t: nat)
      requires Valid() && t < n
      modifies sched.Repr
      ensures Valid() && State() == K.AddTask(old(State()), t)
    {
      var _ := sched.AddTaskMmang(t);
    }

    method SetTask(t: nat, x: K.Task)
      requires Valid() && t < n
      modifies sched.Repr
      ensures Valid() && State() == K.SetTask(old(State()), t, x)
    {
      sched.tasks[t] := x;
    }

    method SetRun(run: K.Run)
      requires Valid()
      modifies sched.Repr
      ensures Valid() && State() == old(State()).(run := run)
    {
      sched.runPtr := run;
    }

    /** end_critical of the outermost section, which cannot undo what a failed create left open. */
    method EndCritical()
      requires Valid()
      modifies sched.Repr
      ensures Valid() && State() == K.EndCritical(old(State()))
    {
      if sched.leaked && sched.runPtr.Thread? {
        SetRun(K.Masked);
      }
    }

    /** What an early return from a critical section leaves. */
    method LeaveOpen()
      requires Valid()
      modifies sched.Repr
      ensures Valid()
      ensures var k := old(State()); State() == if k.run == K.Boot then k.(leaked := true) else k.(run := K.Masked)
    {
      if sched.runPtr == K.Boot {
        sched.leaked := true;
      } else {
        SetRun(K.Masked);
      }
    }

    method Boost(h: nat, t: nat)
      requires Valid() && h < n && t < n
      modifies sched.Repr
      ensures Valid() && State() == K.Boost(old(State()), h, t)
    {
      sched.Boost(h, t);
    }

    method Down(s: nat, t: nat) returns (blocks: bool)
      requires Valid() && s < |sems.sems|
      modifies sems.Repr
      ensures Valid()
      ensures var k := old(State()); var r := Wait(k.sems[s], t, n);
              State() == k.(sems := k.sems[s := r.sem]) && blocks == r.blocks
    {
      blocks := sems.Down(s, t);
    }

    method TryDown(s: nat) returns (ok: bool)
      requires Valid() && s < |sems.sems|
      modifies sems.Repr
      ensures Valid() && State() == K.DoSemTryWait(old(State()), s) && ok == (old(State()).sems[s].val > 0)
    {
      ok := sems.TryDown(s);
    }

    method Up(s: nat) returns (release: Release)
      requires Valid() && s < |sems.sems|
      modifies sems.Repr
      ensures Valid()
      ensures var k := old(State()); var p := Semaphores.Post(k.sems[s]);
              State() == k.(sems := k.sems[s := p.sem]) && release == p.release
    {
      release := sems.Up(s);
    }

    method Take(m: nat, t: nat)
      requires Valid() && m < |mtxs.mtxs|
      modifies mtxs.Repr
      ensures Valid()
      ensures var k := old(State()); State() == k.(mtxs := k.mtxs[m := k.mtxs[m].(holder := Some(t))])
    {
      mtxs.Take(m, t);
    }

    method QueueOn(m: nat, t: nat)
      requires Valid() && m < |mtxs.mtxs|
      modifies mtxs.Repr
      ensures Valid()
      ensures var k := old(State());
              State() == k.(mtxs := k.mtxs[m := k.mtxs[m].(wq := Semaphores.Enqueue(k.mtxs[m].wq, t, n))])
    {
      mtxs.Enqueue(m, t);
    }

    method PassOn(m: nat) returns (wakeup: Option<nat>)
      requires Valid() && m < |mtxs.mtxs|
      modifies mtxs.Repr
      ensures Valid()
      ensures var k := old(State()); var q := k.mtxs[m].wq;
              && wakeup == (if q == [] then None else Some(q[0]))
              && State() == k.(mtxs := k.mtxs[m := K.Mutex(wakeup, if q == [] then [] else q[1..])])
    {
      wakeup := mtxs.PassOn(m);
    }

    method PushSleeper(ticks: nat, t: nat)
      requires Valid()
      modifies sleepQueue, sleepQueue.storage
      ensures Valid()
      ensures var k := old(State());
              State() == k.(sleep := if |k.sleep| + 1 >= n then k.sleep else Push(k.sleep, ticks, NodeFor(t, ticks)))
    {
      var _ := sleepQueue.Push(ticks, t, ticks);
    }

    method AllocSlot() returns (ok: bool, t: nat)
      requires Valid()
      modifies taskMem.Repr
      ensures Valid() && ok == (old(State()).free != [])
      ensures var k := old(State());
              if ok then t < n && t == k.free[0] && State() == k.(free := k.free[1..]) else State() == k
    {
      ok, t := taskMem.Alloc();
    }

    method FreeSlot(t: nat)
      requires Valid() && t < n && t !in State().free
      modifies taskMem.Repr
      ensures Valid() && State() == old(State()).(free := [t] + old(State()).free)
    {
      taskMem.Free(t);
    }

    method ResetJoinSem(t: nat)
      requires Valid()
      modifies sems.Repr
      ensures Valid() && State() == K.ResetJoinSem(old(State()), t)
    {
      if t < |sems.sems| {
        var _ := sems.Init(t, 0);
      }
    }

    // ---------- semaphores ----------

    method SemWait(s: nat)
      requires Ready(K.SemWait(s))
      modifies sched.Repr, sems.Repr
      ensures Valid() && State() == K.Next(old(State()), K.SemWait(s))
    {
      var t := sched.runPtr.task;
      var blocks := Down(s, t);
      if blocks {
        TaskBlock(t);
      }
      EndCritical();
    }

    method SemTryWait(s: nat) returns (ok: bool)
      requires Ready(K.SemTryWait(s))
      modifies sched.Repr, sems.Repr
      ensures Valid() && State() == K.Next(old(State()), K.SemTryWait(s))
      ensures ok == (old(State()).sems[s].val > 0)
    {
      ok := TryDown(s);
      EndCritical();
    }

    /** sem_post on any semaphore. */
    method Post(s: nat)
      requires Valid() && WellFormed(State()) && s < |sems.sems|
      modifies sched.Repr, sems.Repr
      ensures Valid() && State() == K.DoSemPost(old(State()), s)
    {
      WaiterInPool(State(), s);
      var release := Up(s);
      match release {
        case Nobody =>
        case Waiter(w) => TaskUnpause(w);
        case Garbage => SetRun(K.Wild);
      }
    }

    method SemPost(s: nat)
      requires Ready(K.SemPost(s))
      modifies sched.Repr, sems.Repr
      ensures Valid() && State() == K.Next(old(State()), K.SemPost(s))
    {
      Post(s);
      EndCritical();
    }

    /** The wake loop of os_task_exit. */
    method Exit()
      requires Ready(K.Exit)
      modifies sched.Repr, sems.Repr
      ensures Valid() && State() == K.Next(old(State()), K.Exit)
    {
      WakeJoiners(sched.runPtr.task);
      EndCritical();
    }

    method WakeJoiners(t: nat)
      requires Valid() && JoinReady(State(), t)
      modifies sched.Repr, sems.Repr
      ensures Valid() && JoinReady(old(State()), t) && State() == K.WakeJoiners(old(State()), t)
    {
      ghost var k := State();
      var waiting := sems.Waiting(t);
      while waiting > 0
        invariant Valid() && State() == k && JoinReady(k, t) && waiting == |k.sems[t].wq|
        invariant K.WakeJoiners(k, t) == K.WakeJoiners(old(State()), t)
        decreases waiting
      {
        JoinStep(k, t);
        waiting := WakeOne(t);
        k := State();
      }
    }

    /** The body of the loop, and the next evaluation of its guard. */
    method WakeOne(t: nat) returns (waiting: nat)
      requires Valid() && JoinReady(State(), t) && State().sems[t].wq != []
      modifies sched.Repr, sems.Repr
      ensures Valid() && State() == K.DoSemPost(old(State()), t) && waiting == |State().sems[t].wq|
    {
      Post(t);
      waiting := sems.Waiting(t);
    }

    // ---------- mutexes ----------

    method Lock(m: nat)
      requires Ready(K.Lock(m))
      modifies sched.Repr, mtxs.Repr
      ensures Valid() && State() == K.Next(old(State()), K.Lock(m))
    {
      var t := sched.runPtr.task;
      var holder := mtxs.Holder(m);
      match holder {
        case None => Take(m, t);
        case Some(h) => Contend(m, h, t);
      }
      EndCritical();
    }

    /** The lock of m by t while h holds it. */
    method Contend(m: nat, h: nat, t: nat)
      requires Valid() && m < |mtxs.mtxs| && h < n && t < n && State().cursor != Lost
      modifies sched.Repr, mtxs.Repr
      ensures Valid()
      ensures var k := old(State()); var x := k.mtxs[m];
              State() == K.Block(K.Boost(k, h, t).(mtxs := k.mtxs[m := x.(wq := Semaphores.Enqueue(x.wq, t, n))]), t)
    {
      Boost(h, t);
      QueueOn(m, t);
      TaskBlock(t);
    }

    /** mtx_unlock; a caller that is not the holder ends in os_panic. */
    method Unlock(m: nat)
      requires Ready(K.Unlock(m))
      modifies sched.Repr, mtxs.Repr
      ensures Valid() && State() == K.Next(old(State()), K.Unlock(m))
    {
      var t := sched.runPtr.task;
      var holder := mtxs.Holder(m);
      if holder != Some(t) {
        SetRun(K.Panic);
      } else {
        Release(m, t);
      }
      EndCritical();
    }

    /** The unlock of m by its holder t. */
    method Release(m: nat, t: nat)
      requires Valid() && WellFormed(State()) && m < |mtxs.mtxs| && t < n && State().mtxs[m].holder == Some(t)
      modifies sched.Repr, mtxs.Repr
      ensures Valid() && State() == K.DoUnlock(old(State()), t, m)
    {
      ghost var k := State();
      var pass := sched.tasks[t].fixed;
      SetTask(t, sched.tasks[t].(fixed := sched.tasks[t].base));
      ghost var k1 := K.SetTask(k, t, K.TaskOf(k, t).(fixed := K.TaskOf(k, t).base));
      assert State() == k1;
      var wakeup := PassOn(m);
      if wakeup.Some? {
        var w := wakeup.value;
        WaiterNotRunning(k, m);
        SetTask(w, sched.tasks[w].(fixed := pass, working := pass));
        assert State() == K.SetTask(k1, w, K.TaskOf(k1, w).(fixed := pass, working := pass))
                          .(mtxs := k.mtxs[m := K.Mutex(Some(w), k.mtxs[m].wq[1..])]);
        TaskUnpause(w);
      }
    }

    // ---------- threads ----------

    /** thrd_sleep: zero ticks only yields, after thrd_current has entered and left a critical section. */
    method Sleep(ticks: nat)
      requires Ready(K.Sleep(ticks))
      modifies sched.Repr, sleepQueue, sleepQueue.storage
      ensures Valid() && State() == K.Next(old(State()), K.Sleep(ticks))
    {
      if ticks != 0 {
        TaskSleep(sched.runPtr.task, ticks);
      }
      EndCritical();
    }

    /** os_task_sleep; the result of the push is ignored. */
    method TaskSleep(t: nat, ticks: nat)
      requires Valid() && t < n && ticks > 0 && State().cursor != Lost
      modifies sched.Repr, sleepQueue, sleepQueue.storage
      ensures Valid() && State() == K.DoSleep(old(State()), t, ticks)
    {
      PushSleeper(ticks, t);
      SetTask(t, sched.tasks[t].(state := K.SLEEPING, working := sched.tasks[t].fixed));
      TaskPause(t);
    }

    /** thrd_create; it reports failure for priority 0 and for an empty pool. */
    method Create(priority: nat) returns (ok: bool)
      requires Ready(K.Create(priority))
      modifies sched.Repr, taskMem.Repr, sems.Repr
      ensures Valid() && State() == K.Next(old(State()), K.Create(priority))
      ensures ok == (priority != 0 && old(State()).free != [])
    {
      if priority == 0 {
        return false;
      }
      ok := Spawn(priority);
      EndCritical();
    }

    /** os_task_create links the new task, then thrd_init fills it in. */
    method Spawn(priority: nat) returns (ok: bool)
      requires Valid() && priority > 0
      modifies sched.Repr, taskMem.Repr, sems.Repr
      ensures Valid() && State() == K.DoCreate(old(State()), priority) && ok == (old(State()).free != [])
    {
      ghost var k := State();
      var got, t := AllocSlot();
      if !got {
        LeaveOpen();
        return false;
      }
      LinkThenFill(k, t, K.Task(priority, priority, priority, K.ACTIVE));
      Enlist(t, K.Task(priority, priority, priority, K.ACTIVE));
      return true;
    }

    method Enlist(t: nat, x: K.Task)
      requires Valid() && t < n
      modifies sched.Repr, sems.Repr
      ensures Valid() && State() == K.SetTask(K.ResetJoinSem(K.AddTask(old(State()), t), t), t, x)
    {
      AddTask(t);
      ResetJoinSem(t);
      SetTask(t, x);
    }

    /** os_task_kill of the running task. */
    method Kill()
      requires Ready(K.Kill)
      modifies sched.Repr, taskMem.Repr
      ensures Valid() && State() == K.Next(old(State()), K.Kill)
    {
      KillReady(State());
      Bury(sched.runPtr.task);
      EndCritical();
    }

    method Bury(t: nat)
      requires Valid() && t < n && t !in State().free && State().cursor != Lost
      modifies sched.Repr, taskMem.Repr
      ensures Valid() && State() == K.DoKill(old(State()), t)
    {
      ghost var k := State();
      TaskPause(t);
      assert State().free == k.free;
      FreeSlot(t);
    }

    // ---------- the tick ----------

    /** os_schedule */
    method Schedule()
      requires Valid() && (State().active > 0 && K.Switches(State()) ==> State().cursor != Lost)
      requires State().run.Thread? ==> State().run.task < n
      modifies sched.Repr
      ensures Valid() && State() == K.Schedule(old(State()))
    {
      ScheduleElsewhere(sched.View(), State());
      sched.Schedule();
    }

    /** os_first_task */
    method Launch()
      requires Ready(K.Launch)
      modifies sched.Repr
      ensures Valid() && State() == K.Next(old(State()), K.Launch)
    {
      sched.FirstTask();
    }

    /** The timer interrupt. */
    method Tick()
      requires Ready(K.Tick)
      modifies sched.Repr, sleepQueue, sleepQueue.storage
      ensures Valid() && State() == K.Next(old(State()), K.Tick)
    {
      UpdateWellFormed(State());
      Update();
      Schedule();
    }

    /** os_update: its wake loop over the sleep heap. */
    method Update()
      requires Valid() && WellFormed(State())
      modifies sched.Repr, sleepQueue, sleepQueue.storage
      ensures Valid() && State() == K.Update(old(State()))
    {
      var keep := sleepQueue.count / 2;
      SleepersInPool(State());
      RestStep(State(), keep);
      var due := RootDue(keep);
      while due
        invariant Valid() && SleepersBelow(State().sleep, n)
        invariant due ==> State().sleep != [] && Rest(WakeRoot(State()), keep) == K.Update(old(State()))
        invariant !due ==> State() == K.Update(old(State()))
        decreases |State().sleep|, due
      {
        WakeFirst();
        RestStep(State(), keep);
        due := RootDue(keep);
      }
    }

    /** The guard of the loop. */
    method RootDue(keep: nat) returns (due: bool)
      requires Valid()
      modifies sleepQueue.storage
      ensures Valid()
      ensures var k := old(State()); var d := if |k.sleep| > keep then DecRoot(k.sleep) else k.sleep;
              State() == k.(sleep := d) && due == (|k.sleep| > keep && d[0].priority <= 0)
      ensures SleepersBelow(old(State()).sleep, n) ==> SleepersBelow(State().sleep, n)
    {
      due := sleepQueue.RootDue(keep);
    }

    /** The body of the loop. */
    method WakeFirst()
      requires Valid() && State().sleep != [] && SleepersBelow(State().sleep, n)
      modifies sched.Repr, sleepQueue, sleepQueue.storage
      ensures Valid() && State() == WakeRoot(old(State())) && SleepersBelow(State().sleep, n)
    {
      WakesRoot(State());
      var deadline := PopSleeper();
      Wake(deadline.task);
      Rebase(deadline.ticks);
    }

    /** The woken task joins the run queue before its state is set. */
    method Wake(t: nat)
      requires Valid() && t < n
      modifies sched.Repr
      ensures Valid() && State() == K.Unpause(old(State()), t)
    {
      AddTask(t);
      SetTask(t, sched.tasks[t].(state := K.ACTIVE));
    }

    method PopSleeper() returns (item: Node)
      requires Valid() && State().sleep != []
      modifies sleepQueue, sleepQueue.storage
      ensures Valid() && item == old(State()).sleep[0] && State() == old(State()).(sleep := Pop(old(State()).sleep))
    {
      item := sleepQueue.Pop();
    }

    method Rebase(ticks: nat)
      requires Valid() && n > 1
      modifies sleepQueue.storage
      ensures Valid() && State() == old(State()).(sleep := SleepTick.Rebase(old(State()).sleep, ticks))
    {
      sleepQueue.RebaseRoot(ticks);
    }
  }

  /** os_init, with the user's semaphores and mutexes behind the join semaphores of the slots. */
  method OsInit(n: nat, values: seq<nat>, mutexes: nat) returns (os: System)
    requires n > 0 && forall i :: 0 <= i < |values| ==> values[i] <= n
    ensures os.Valid() && os.n == n && os.State() == K.Initial(n, values, mutexes)
  {
    var ss, ms := NewLocks(n, values, mutexes);
    var q, h, p := NewQueues(n);
    assert q.View().(free := p.FreeSlots(), sleep := h.View(), sems := ss.View(), mtxs := ms.View())
           == K.Initial(n, values, mutexes);
    os := new System(q, h, p, ss, ms);
  }

  method NewLocks(n: nat, values: seq<nat>, mutexes: nat) returns (ss: SemTable, ms: MtxTable)
    requires n > 0 && forall i :: 0 <= i < |values| ==> values[i] <= n
    ensures ss.Valid() && ms.Valid() && ss.cap == ms.cap == n && ss.Repr !! ms.Repr && fresh(ss.Repr) && fresh(ms.Repr)
    ensures ss.View() == K.Initial(n, values, mutexes).sems && ms.View() == K.Initial(n, values, mutexes).mtxs
  {
    ss := new SemTable(n, seq(n, _ => 0) + values);
    InitialSems(n, values, ss.View());
    ms := new MtxTable(n, mutexes);
  }

  /** The empty run queue and heap, and the pool with every slot free. */
  method NewQueues(n: nat) returns (q: RoundRobinQueue, h: PQueue, p: Pool.Allocator)
    requires n > 0
    ensures q.Valid() && h.Valid() && p.Valid() && q.tasks.Length == h.storage.Length == |p.items| == n
    ensures q.Repr !! {h, h.storage} !! p.Repr
    ensures fresh(q.Repr) && fresh({h, h.storage}) && fresh(p.Repr)
    ensures q.View() == K.State(n, seq(n, _ => K.Task(1, 1, 1, K.ACTIVE)), [], [], 0, Head, K.Boot, [], [], [])
    ensures h.View() == [] && p.FreeSlots() == Pool.Descending(n)
  {
    p := NewPool(n);
    q := new RoundRobinQueue(n);
    h := new PQueue(n);
  }

  /** pool_task_mem_init on new items. */
  method NewPool(n: nat) returns (p: Pool.Allocator)
    ensures p.Valid() && |p.items| == n && p.FreeSlots() == Pool.Descending(n)
    ensures fresh(p.Repr)
  {
    var items := NewItems(n);
    p := new Pool.Allocator(items);
  }
}
