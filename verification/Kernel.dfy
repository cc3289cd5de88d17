/**
 The kernel of os.c, semaphore.c and mutex.c as one state machine. A step is one outermost
 critical section of the running task, or one timer tick.
 */
module Kernel {
  import opened Cursors
  import opened SleepHeap
  import opened SleepTick
  import opened Semaphores
  import Pool

  datatype TaskState = ACTIVE | SLEEPING | BLOCKING

  /** A thread control block: the priority at creation, the current one, and what is left of the slice. */
  datatype Task = Task(base: nat, fixed: nat, working: nat, state: TaskState)

  datatype Mutex = Mutex(holder: Option<nat>, wq: seq<nat>)

  /**
   run_ptr: not launched yet, the idle thread, a task, the endless loop of os_panic, a pointer
   computed from a NULL or unset one, after which nothing is defined, or a kernel in a critical
   section that nobody leaves, so that no tick can follow.
   */
  datatype Run = Boot | Idle | Thread(task: nat) | Panic | Wild | Masked

  /**
   Tasks are the slots 0..n of the pool; sems[t] for t < n is the join semaphore of slot t. leaked
   says that main has left a critical section open: the tick runs until a task enters another.
   */
  datatype State = State(
    n: nat,
    tasks: seq<Task>,
    free: seq<nat>,
    runq: seq<nat>,
    active: nat,
    cursor: Cursor,
    run: Run,
    sleep: seq<Node>,
    sems: seq<Sem>,
    mtxs: seq<Mutex>,
    leaked: bool := false)

  datatype Op =
    | Create(priority: nat)
    | Launch
    | Tick
    | Sleep(ticks: nat)
    | SemWait(sem: nat)
    | SemTryWait(sem: nat)
    | SemPost(sem: nat)
    | Lock(mtx: nat)
    | Unlock(mtx: nat)
    | Exit
    | Kill

  /** The control block of a slot. Only slots below n are ever looked up (see Conservation.Shape). */
  function TaskOf(k: State, t: nat): Task {
    if t < |k.tasks| then k.tasks[t] else Task(1, 1, 1, ACTIVE)
  }

  function SetTask(k: State, t: nat, x: Task): (r: State)
    ensures |r.tasks| == |k.tasks|
  {
    if t < |k.tasks| then k.(tasks := k.tasks[t := x]) else k
  }

  /** A task that blocks, sleeps or dies leaves the run queue and only the tick can follow. */
  ghost predicate Runnable(k: State) {
    k.run.Thread? && k.run.task in k.runq
  }

  ghost predicate Enabled(k: State, op: Op) {
    match op
    case Create(_) => k.run == Boot || Runnable(k)
    case Launch => k.run == Boot
    case Tick => k.run == Idle || k.run.Thread?
    case Sleep(ticks) => Runnable(k) && ticks < WORD
    case SemWait(s) => Runnable(k) && s < |k.sems|
    case SemTryWait(s) => Runnable(k) && s < |k.sems|
    case SemPost(s) => Runnable(k) && s < |k.sems|
    case Lock(m) => Runnable(k) && m < |k.mtxs|
    case Unlock(m) => Runnable(k) && m < |k.mtxs|
    // the wake loop compares the queue, the post the count
    case Exit => Runnable(k) && k.run.task < |k.sems| && Agrees(k.sems[k.run.task])
    case Kill => Runnable(k)
  }

  // ---------- run queue (os_add_task_mmang, os_del_task_mmang) ----------

  function SetState(k: State, t: nat, s: TaskState): State {
    SetTask(k, t, TaskOf(k, t).(state := s))
  }

  /** An add to an empty queue rebuilds the iterator; a member is not added again. */
  function AddTask(k: State, t: nat): State {
    var c := if k.active == 0 then Head else k.cursor;
    if t in k.runq then k.(cursor := c) else
    k.(cursor := c, runq := k.runq + [t], active := k.active + 1)
  }

  /** The iterator steps back first, whatever it stands on. */
  function DelTask(k: State, t: nat): State {
    var c := Backward(k.runq, k.cursor);
    if t !in k.runq || k.active == 0 then k.(cursor := c) else
    k.(cursor := c, runq := Without(k.runq, t), active := k.active - 1)
  }

  /** os_task_unpause, and the same two steps in os_update. */
  function Unpause(k: State, t: nat): State {
    AddTask(SetState(k, t, ACTIVE), t)
  }

  function Block(k: State, t: nat): State {
    DelTask(SetState(k, t, BLOCKING), t)
  }

  // ---------- the tick (os_update, os_schedule) ----------

  function WakeAll(k: State, ts: seq<nat>): State
    decreases |ts|
  {
    if ts == [] then k else WakeAll(Unpause(k, ts[0]), ts[1..])
  }

  function Update(k: State): State {
    var d := HeapTick(k.sleep);
    WakeAll(k.(sleep := d.heap), d.woken)
  }

  /** os_change_task: the element after the iterator; the pseudo head is no task. */
  function ChangeTask(k: State): State {
    var c := Forward(k.runq, k.cursor);
    k.(cursor := c, run := if c.On? then Thread(c.task) else Wild)
  }

  /** os_next: a task that cannot run, or whose slice is used up, gets a new slice and is replaced. */
  function NextTask(k: State): State {
    // the idle thread has a slice of one tick
    if !k.run.Thread? then ChangeTask(k) else
    var t := k.run.task;
    var x := TaskOf(k, t);
    if x.state != ACTIVE || x.working == 1 then ChangeTask(SetTask(k, t, x.(working := x.fixed)))
    else SetTask(k, t, x.(working := if x.working == 0 then WORD - 1 else x.working - 1))
  }

  /** Whether os_next moves the iterator on. */
  predicate Switches(k: State) {
    !k.run.Thread? || TaskOf(k, k.run.task).state != ACTIVE || TaskOf(k, k.run.task).working == 1
  }

  function Schedule(k: State): State {
    if k.active > 0 then NextTask(k) else k.(run := Idle)
  }

  function DoTick(k: State): State {
    Schedule(Update(k))
  }

  // ---------- what the running task does ----------

  /** thrd_init sets up the join semaphore inside the control block. */
  function ResetJoinSem(k: State, t: nat): (r: State)
    ensures |r.sems| == |k.sems|
  {
    if t < |k.sems| then k.(sems := k.sems[t := Sem(0, [])]) else k
  }

  /**
   thrd_create: a slot from the pool, a fresh control block, a fresh join semaphore. With an empty
   pool os_task_create returns without leaving its critical section. In a task interrupts then stay
   off; when main does it, os_start still turns them on.
   */
  function DoCreate(k: State, priority: nat): State {
    if priority == 0 then k else
    if k.free == [] then (if k.run == Boot then k.(leaked := true) else k.(run := Masked)) else
    var t := k.free[0];
    var k' := ResetJoinSem(k.(free := k.free[1..]), t);
    AddTask(SetTask(k', t, Task(priority, priority, priority, ACTIVE)), t)
  }

  /** os_task_sleep; zero ticks only yields. A full heap refuses, and the refusal is ignored. */
  function DoSleep(k: State, t: nat, ticks: nat): State {
    if ticks == 0 then k else
    var h := if |k.sleep| + 1 >= k.n then k.sleep else Push(k.sleep, ticks, NodeFor(t, ticks));
    var x := TaskOf(k, t);
    DelTask(SetTask(k.(sleep := h), t, x.(state := SLEEPING, working := x.fixed)), t)
  }

  function DoSemWait(k: State, t: nat, s: nat): State
    requires s < |k.sems|
  {
    var r := Wait(k.sems[s], t, k.n);
    var k' := k.(sems := k.sems[s := r.sem]);
    if r.blocks then Block(k', t) else k'
  }

  function DoSemTryWait(k: State, s: nat): State
    requires s < |k.sems|
  {
    k.(sems := k.sems[s := TryWait(k.sems[s]).sem])
  }

  function DoSemPost(k: State, s: nat): (r: State)
    requires s < |k.sems|
    ensures r.n == k.n && |r.tasks| == |k.tasks| && r.sems == k.sems[s := Post(k.sems[s]).sem]
  {
    var p := Post(k.sems[s]);
    var k' := k.(sems := k.sems[s := p.sem]);
    match p.release
    case Nobody => k'
    case Waiter(t) => Unpause(k', t)
    case Garbage => k'.(run := Wild)
  }

  /** The holder's slice and priority rise to those of a caller with a higher priority. */
  function Boost(k: State, h: nat, t: nat): State {
    var x, check := TaskOf(k, h), TaskOf(k, t).fixed;
    if check > x.fixed then
      SetTask(k, h, x.(working := x.working + (check - x.fixed), fixed := check))
    else k
  }

  function DoLock(k: State, t: nat, m: nat): State
    requires m < |k.mtxs|
  {
    var x := k.mtxs[m];
    match x.holder
    case None => k.(mtxs := k.mtxs[m := x.(holder := Some(t))])
    case Some(h) =>
      Block(Boost(k, h, t).(mtxs := k.mtxs[m := x.(wq := Enqueue(x.wq, t, k.n))]), t)
  }

  /** Only the holder may unlock; it hands priority and mutex to the longest waiter. */
  function DoUnlock(k: State, t: nat, m: nat): State
    requires m < |k.mtxs|
  {
    var x := k.mtxs[m];
    if x.holder != Some(t) then k.(run := Panic) else
    var pass := TaskOf(k, t).fixed;
    var k' := SetTask(k, t, TaskOf(k, t).(fixed := TaskOf(k, t).base));
    if x.wq == [] then k'.(mtxs := k.mtxs[m := Mutex(None, [])]) else
    var w := x.wq[0];
    var k'' := SetTask(k', w, TaskOf(k', w).(fixed := pass, working := pass));
    Unpause(k''.(mtxs := k.mtxs[m := Mutex(Some(w), x.wq[1..])]), w)
  }

  /** The wake loop of os_task_exit on the join semaphore of slot t. */
  function WakeJoiners(k: State, t: nat): State
    requires t < |k.sems| && Agrees(k.sems[t])
    decreases if t < |k.sems| then |k.sems[t].wq| else 0
  {
    if k.sems[t].wq == [] then k else
    assert Agrees(Post(k.sems[t]).sem) by { PostAgrees(k.sems[t]); }
    WakeJoiners(DoSemPost(k, t), t)
  }

  /** os_task_kill: the state of the dead task stays ACTIVE. */
  function DoKill(k: State, t: nat): State {
    var d := DelTask(k, t);
    d.(free := [t] + d.free)
  }

  /**
   end_critical of the outermost section. With a section left open before the launch the count does
   not come down to 0, and interrupts stay off.
   */
  function EndCritical(k: State): State {
    if k.leaked && k.run.Thread? then k.(run := Masked) else k
  }

  /** The tick and the start run outside critical sections, and priority 0 is refused before one. */
  predicate Critical(op: Op) {
    !op.Tick? && !op.Launch? && (op.Create? ==> op.priority > 0)
  }

  /** One step: what the operation does, and the end of its critical section. */
  function Next(k: State, op: Op): State
    requires Enabled(k, op)
  {
    if Critical(op) then EndCritical(Act(k, op)) else Act(k, op)
  }

  /** The step before the section is left. */
  function Act(k: State, op: Op): State
    requires Enabled(k, op)
  {
    match op
    case Create(priority) => DoCreate(k, priority)
    case Launch => if k.active > 0 then ChangeTask(k) else k.(run := Idle)
    case Tick => DoTick(k)
    case Sleep(ticks) => DoSleep(k, k.run.task, ticks)
    case SemWait(s) => DoSemWait(k, k.run.task, s)
    case SemTryWait(s) => DoSemTryWait(k, s)
    case SemPost(s) => DoSemPost(k, s)
    case Lock(m) => DoLock(k, k.run.task, m)
    case Unlock(m) => DoUnlock(k, k.run.task, m)
    case Exit => WakeJoiners(k, k.run.task)
    case Kill => DoKill(k, k.run.task)
  }

  /** Whether a step follows the iterator while it is NULL, after which the C program is undefined. */
  ghost predicate FollowsNull(k: State, op: Op)
    requires Enabled(k, op)
  {
    match op
    case Launch => k.active > 0 && k.cursor == Lost
    case Tick => Update(k).active > 0 && Switches(Update(k)) && Update(k).cursor == Lost
    case Sleep(ticks) => ticks > 0 && k.cursor == Lost
    case SemWait(s) => Wait(k.sems[s], k.run.task, k.n).blocks && k.cursor == Lost
    case Lock(m) => k.mtxs[m].holder.Some? && k.cursor == Lost
    case Kill => k.cursor == Lost
    case _ => false
  }

  // ---------- runs ----------

  /** os_init: n free slots, join semaphores at zero, the user's semaphores and mutexes. */
  function Initial(n: nat, values: seq<nat>, mutexes: nat): State {
    State(n, seq(n, _ => Task(1, 1, 1, ACTIVE)), Pool.Descending(n), [], 0, Head, Boot, [],
          seq(n, _ => Sem(0, [])) + seq(|values|, i requires 0 <= i < |values| => Sem(values[i], [])),
          seq(mutexes, _ => Mutex(None, [])))
  }

  ghost predicate IsRun(k: State, ops: seq<Op>)
    decreases |ops|
  {
    ops == [] || (Enabled(k, ops[0]) && IsRun(Next(k, ops[0]), ops[1..]))
  }

  function Exec(k: State, ops: seq<Op>): State
    requires IsRun(k, ops)
    decreases |ops|
  {
    if ops == [] then k else Exec(Next(k, ops[0]), ops[1..])
  }
}
