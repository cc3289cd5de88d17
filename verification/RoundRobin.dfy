/**
 Weighted round robin: while no task joins or leaves the run queue, tasks run in list order,
 each for its slice, and with full slices the schedule repeats.
 */
module RoundRobin {
  import opened Sequences
  import opened Cursors
  import opened SleepHeap
  import opened SleepTick
  import opened Semaphores
  import opened Kernel
  import opened Conservation
  import opened Steps
  import opened Dispatch

  // ---------- slices are never empty ----------

  /** thrd_create rejects priority 0; from then on no priority and no slice is ever 0. */
  ghost predicate Positive(k: State) {
    forall t :: 0 <= t < |k.tasks| ==> PositiveTask(k.tasks[t])
  }

  predicate PositiveTask(x: Task) {
    x.base >= 1 && x.fixed >= 1 && x.working >= 1
  }

  lemma {:induction false} WakeAllPositive(k: State, ts: seq<nat>)
    requires Positive(k)
    ensures Positive(WakeAll(k, ts))
    decreases |ts|
  {
    if ts != [] {
      WakeAllPositive(Unpause(k, ts[0]), ts[1..]);
    }
  }

  lemma {:induction false} JoinersPositive(k: State, t: nat)
    requires Positive(k) && t < |k.sems| && Agrees(k.sems[t])
    ensures Positive(WakeJoiners(k, t))
    decreases |k.sems[t].wq|
  {
    if k.sems[t].wq != [] {
      PostAgrees(k.sems[t]);
      JoinersPositive(DoSemPost(k, t), t);
    }
  }

  lemma TickPositive(k: State)
    requires Positive(k)
    ensures Positive(DoTick(k))
  {
    WakeAllPositive(k.(sleep := HeapTick(k.sleep).heap), HeapTick(k.sleep).woken);
    var u := Update(k);
    assert u.run.Thread? ==> PositiveTask(TaskOf(u, u.run.task));
  }

  lemma LockPositive(k: State, t: nat, m: nat)
    requires Positive(k) && m < |k.mtxs|
    ensures Positive(DoLock(k, t, m))
  {
  }

  lemma UnlockPositive(k: State, t: nat, m: nat)
    requires Positive(k) && m < |k.mtxs|
    ensures Positive(DoUnlock(k, t, m))
  {
    assert PositiveTask(TaskOf(k, t));
  }

  lemma CreatePositive(k: State, priority: nat)
    requires Positive(k)
    ensures Positive(DoCreate(k, priority))
  {
  }

  lemma SleepPositive(k: State, t: nat, ticks: nat)
    requires Positive(k)
    ensures Positive(DoSleep(k, t, ticks))
  {
    assert PositiveTask(TaskOf(k, t));
  }

  lemma WaitPositive(k: State, t: nat, s: nat)
    requires Positive(k) && s < |k.sems|
    ensures Positive(DoSemWait(k, t, s))
  {
    assert PositiveTask(TaskOf(k, t));
  }

  lemma ActPositive(k: State, op: Op)
    requires Positive(k) && Enabled(k, op)
    ensures Positive(Act(k, op))
  {
    hide DoCreate, DoTick, DoSleep, DoSemWait, DoLock, DoUnlock, WakeJoiners;
    match op
    case Create(priority) => CreatePositive(k, priority);
    case Tick => TickPositive(k);
    case Sleep(ticks) => SleepPositive(k, k.run.task, ticks);
    case SemWait(s) => WaitPositive(k, k.run.task, s);
    case Lock(m) => LockPositive(k, k.run.task, m);
    case Unlock(m) => UnlockPositive(k, k.run.task, m);
    case Exit => JoinersPositive(k, k.run.task);
    case _ =>
  }

  lemma StepPositive(k: State, op: Op)
    requires Positive(k) && Enabled(k, op)
    ensures Positive(Next(k, op))
  {
    ActPositive(k, op);
  }

  lemma {:induction false} RunPositive(k: State, ops: seq<Op>)
    requires Positive(k) && IsRun(k, ops)
    ensures Positive(Exec(k, ops))
    decreases |ops|
  {
    if ops != [] {
      StepPositive(k, ops[0]);
      RunPositive(Next(k, ops[0]), ops[1..]);
    }
  }

  /** No priority and no slice is 0 in any state reachable from os_init. */
  lemma PositiveFromInit(n: nat, values: seq<nat>, mutexes: nat, ops: seq<Op>)
    requires IsRun(Initial(n, values, mutexes), ops)
    ensures Positive(Exec(Initial(n, values, mutexes), ops))
  {
    RunPositive(Initial(n, values, mutexes), ops);
  }

  // ---------- ticks that wake nobody ----------

  function Iterate<T>(f: T -> T, x: T, n: nat): T
    decreases n
  {
    if n == 0 then x else Iterate(f, f(x), n - 1)
  }

  lemma {:induction false} IterateAdd<T>(f: T -> T, x: T, a: nat, b: nat)
    ensures Iterate(f, x, a + b) == Iterate(f, Iterate(f, x, a), b)
    decreases a
  {
    if a > 0 {
      IterateAdd(f, f(x), a - 1, b);
    }
  }

  /** The kernel after n ticks in which no task does anything. */
  function Ticks(k: State, n: nat): State {
    Iterate(DoTick, k, n)
  }

  lemma TicksChain(k: State, k': State, a: nat, b: nat)
    requires Ticks(k, a) == k'
    ensures Ticks(k, a + b) == Ticks(k', b)
  {
    IterateAdd(DoTick, k, a, b);
  }

  /** No sleeper is due within n ticks. */
  ghost predicate NotDue(h: seq<Node>, n: nat) {
    h == [] || n < h[0].priority < INT_LIMIT
  }

  /** The heap after n ticks in which nobody is due. */
  function Later(h: seq<Node>, n: nat): seq<Node> {
    if h == [] then [] else h[0 := h[0].(priority := h[0].priority - n)]
  }

  /** A tick that wakes nobody is a call of the scheduler. */
  lemma QuietTick(k: State)
    requires NotDue(k.sleep, 1)
    ensures DoTick(k) == Schedule(k.(sleep := Later(k.sleep, 1)))
  {
    assert HeapTick(k.sleep) == Drained(Later(k.sleep, 1), []);
  }

  /** A running task at position i of the run queue with the iterator on it. */
  ghost predicate RunsAt(k: State, i: nat) {
    i < |k.runq| && k.active == |k.runq| && Distinct(k.runq)
    && k.run == Thread(k.runq[i]) && k.cursor == On(k.runq[i])
    && (forall j :: 0 <= j < |k.runq| ==> k.runq[j] < |k.tasks| && TaskOf(k, k.runq[j]).state == ACTIVE)
    && Positive(k) && PositiveTask(TaskOf(k, k.runq[i]))
  }

  /** In every sound and coupled state a runnable task runs at its place in the run queue. */
  lemma RunsAtPlace(k: State)
    requires Sound(k) && Coupled(k) && Positive(k) && Runnable(k)
    ensures RunsAt(k, IndexOf(k.runq, k.run.task))
  {
    QueuesDistinct(k);
    forall j | 0 <= j < |k.runq| ensures k.runq[j] < |k.tasks| && TaskOf(k, k.runq[j]).state == ACTIVE {
      RunnableIsOnlyThere(k, k.runq[j]);
    }
  }

  /** After every harmless run from os_init that leaves a runnable task running. */
  lemma RunsAtPlaceFromInit(n: nat, values: seq<nat>, mutexes: nat, ops: seq<Op>)
    requires n <= VAL_MAX && forall i :: 0 <= i < |values| ==> Init(values[i], n) != None
    requires IsRun(Initial(n, values, mutexes), ops) && HarmlessRun(Initial(n, values, mutexes), ops)
    ensures var k := Exec(Initial(n, values, mutexes), ops);
            Runnable(k) ==> RunsAt(k, IndexOf(k.runq, k.run.task))
  {
    var k := Exec(Initial(n, values, mutexes), ops);
    HealthyFromInit(n, values, mutexes, ops);
    PositiveFromInit(n, values, mutexes, ops);
    if Runnable(k) {
      RunsAtPlace(k);
    }
  }

  /** k after the slice of its running task was set to w, with the heap n ticks later. */
  function WithSlice(k: State, i: nat, w: nat, n: nat): State
    requires i < |k.runq|
  {
    SetTask(k, k.runq[i], TaskOf(k, k.runq[i]).(working := w)).(sleep := Later(k.sleep, n))
  }

  lemma WithSliceRuns(k: State, i: nat, w: nat, n: nat)
    requires RunsAt(k, i) && w >= 1
    ensures RunsAt(WithSlice(k, i, w, n), i)
  {
  }

  lemma OneMore(k: State, n: nat)
    ensures Ticks(k, n + 1) == DoTick(Ticks(k, n))
  {
    IterateAdd(DoTick, k, n, 1);
    assert Iterate(DoTick, Ticks(k, n), 1) == Iterate(DoTick, DoTick(Ticks(k, n)), 0);
  }

  lemma QuietSlice(k: State, i: nat)
    requires RunsAt(k, i) && TaskOf(k, k.runq[i]).working > 1 && NotDue(k.sleep, 1)
    ensures DoTick(k) == WithSlice(k, i, TaskOf(k, k.runq[i]).working - 1, 1)
  {
    QuietTick(k);
  }

  lemma WithSliceAgain(k: State, i: nat, v: nat, w: nat, n: nat)
    requires i < |k.runq|
    ensures WithSlice(WithSlice(k, i, v, n), i, w, 1) == WithSlice(k, i, w, n + 1)
  {
    assert Later(Later(k.sleep, n), 1) == Later(k.sleep, n + 1);
    var t := k.runq[i];
    if t < |k.tasks| {
      var x := TaskOf(k, t);
      assert k.tasks[t := x.(working := v)][t := x.(working := w)] == k.tasks[t := x.(working := w)];
    }
  }

  lemma OneMoreInSlice(k: State, i: nat, v: nat, n: nat)
    requires RunsAt(k, i) && v > 1 && NotDue(k.sleep, n + 1)
    ensures DoTick(WithSlice(k, i, v, n)) == WithSlice(k, i, v - 1, n + 1)
  {
    WithSliceRuns(k, i, v, n);
    QuietSlice(WithSlice(k, i, v, n), i);
    WithSliceAgain(k, i, v, v - 1, n);
  }

  lemma SameSlice(k: State, i: nat)
    requires RunsAt(k, i)
    ensures WithSlice(k, i, TaskOf(k, k.runq[i]).working, 0) == k == Ticks(k, 0)
  {
    assert k.tasks[k.runq[i] := k.tasks[k.runq[i]]] == k.tasks;
  }

  /** Inside its slice the running task keeps running. */
  lemma {:induction false} InsideSlice(k: State, i: nat, n: nat)
    requires RunsAt(k, i) && n < TaskOf(k, k.runq[i]).working && NotDue(k.sleep, n)
    ensures Ticks(k, n) == WithSlice(k, i, TaskOf(k, k.runq[i]).working - n, n)
    decreases n
  {
    hide DoTick, Ticks;
    if n == 0 {
      SameSlice(k, i);
    } else {
      InsideSlice(k, i, n - 1);
      OneMore(k, n - 1);
      OneMoreInSlice(k, i, TaskOf(k, k.runq[i]).working - n + 1, n - 1);
    }
  }

  /** k with its running task, at i, given a full slice and the next one run, n ticks later. */
  function Advanced(k: State, i: nat, n: nat): State
    requires i < |k.runq|
  {
    var next := k.runq[Succ(i, |k.runq|)];
    WithSlice(k, i, TaskOf(k, k.runq[i]).fixed, n).(cursor := On(next), run := Thread(next))
  }

  lemma LastTick(k: State, i: nat)
    requires RunsAt(k, i) && TaskOf(k, k.runq[i]).working == 1 && NotDue(k.sleep, 1)
    ensures DoTick(k) == Advanced(k, i, 1)
  {
    QuietTick(k);
    ForwardAt(k.runq, i);
  }

  lemma AdvancedRuns(k: State, i: nat, n: nat)
    requires RunsAt(k, i)
    ensures RunsAt(Advanced(k, i, n), Succ(i, |k.runq|))
  {
    WithSliceRuns(k, i, TaskOf(k, k.runq[i]).fixed, n);
    var r, j := Advanced(k, i, n), Succ(i, |k.runq|);
    assert PositiveTask(TaskOf(r, r.runq[j])) by {
      assert r.runq[j] < |r.tasks|;
    }
  }

  lemma AdvancedAgain(k: State, i: nat, n: nat)
    requires RunsAt(k, i)
    ensures Advanced(WithSlice(k, i, 1, n), i, 1) == Advanced(k, i, n + 1)
  {
    var x := TaskOf(k, k.runq[i]);
    WithSliceAgain(k, i, 1, x.fixed, n);
  }

  lemma SliceOver(k: State, i: nat, n: nat)
    requires RunsAt(k, i) && NotDue(k.sleep, n + 1)
    ensures DoTick(WithSlice(k, i, 1, n)) == Advanced(k, i, n + 1)
  {
    WithSliceRuns(k, i, 1, n);
    LastTick(WithSlice(k, i, 1, n), i);
    AdvancedAgain(k, i, n);
  }

  lemma SliceEndsAfter(k: State, i: nat, n: nat)
    requires RunsAt(k, i) && TaskOf(k, k.runq[i]).working == n + 1 && NotDue(k.sleep, n + 1)
    ensures Ticks(k, n + 1) == Advanced(k, i, n + 1)
  {
    OneMore(k, n);
    assert Ticks(k, n) == WithSlice(k, i, 1, n) by {
      InsideSlice(k, i, n);
    }
    SliceOver(k, i, n);
  }

  /** At the end of its slice the running task gets a new one, and its circular successor runs. */
  lemma SliceEnds(k: State, i: nat)
    requires RunsAt(k, i) && NotDue(k.sleep, TaskOf(k, k.runq[i]).working)
    ensures var w := TaskOf(k, k.runq[i]).working;
            Ticks(k, w) == Advanced(k, i, w)
  {
    SliceEndsAfter(k, i, TaskOf(k, k.runq[i]).working - 1);
  }

  // ---------- rounds ----------

  /** The run queue from position i on, once round. */
  function Rotation(s: seq<nat>, i: nat): (r: seq<nat>)
    requires i <= |s|
    ensures |r| == |s|
  {
    s[i..] + s[..i]
  }

  /** Where the c-th task of the rotation stands. */
  function Place(i: nat, c: nat, m: nat): nat
    requires i < m
  {
    if i + c < m then i + c else if i + c - m < m then i + c - m else 0
  }

  /** What is left of the slices of some tasks, together. */
  function SliceSum(k: State, ts: seq<nat>): nat {
    if ts == [] then 0 else SliceSum(k, ts[..|ts| - 1]) + TaskOf(k, ts[|ts| - 1]).working
  }

  lemma {:induction false} SlicesConcat(k: State, a: seq<nat>, b: seq<nat>)
    ensures SliceSum(k, a + b) == SliceSum(k, a) + SliceSum(k, b)
    decreases |b|
  {
    if b == [] {
      assert a + b == a;
    } else {
      assert (a + b)[..|a + b| - 1] == a + b[..|b| - 1];
      SlicesConcat(k, a, b[..|b| - 1]);
    }
  }

  /** The time before the c-th task of the rotation runs. */
  function Elapsed(k: State, i: nat, c: nat): nat
    requires i < |k.runq| && c <= |k.runq|
  {
    SliceSum(k, Rotation(k.runq, i)[..c])
  }

  lemma ElapsedNext(k: State, i: nat, c: nat)
    requires i < |k.runq| && c < |k.runq|
    ensures Elapsed(k, i, c + 1) == Elapsed(k, i, c) + TaskOf(k, k.runq[Place(i, c, |k.runq|)]).working
  {
    var r := Rotation(k.runq, i);
    assert r[..c + 1][..c] == r[..c];
    assert r[c] == k.runq[Place(i, c, |k.runq|)];
  }

  lemma {:induction false} ElapsedMonotone(k: State, i: nat, c: nat, d: nat)
    requires i < |k.runq| && c <= d <= |k.runq|
    ensures Elapsed(k, i, c) <= Elapsed(k, i, d)
    decreases d
  {
    if c < d {
      ElapsedNext(k, i, d - 1);
      ElapsedMonotone(k, i, c, d - 1);
    }
  }

  lemma WholeRound(k: State, i: nat)
    requires i < |k.runq|
    ensures Elapsed(k, i, |k.runq|) == SliceSum(k, k.runq)
  {
    var s := k.runq;
    SlicesConcat(k, s[i..], s[..i]);
    SlicesConcat(k, s[..i], s[i..]);
    assert s[..i] + s[i..] == s;
    assert Rotation(s, i)[..|s|] == s[i..] + s[..i];
  }

  /** The control blocks after the first c tasks of the rotation have had their slices renewed. */
  function Renewed(k: State, i: nat, c: nat): (r: seq<Task>)
    requires i < |k.runq|
    ensures |r| == |k.tasks|
  {
    if c == 0 then k.tasks else
    var t := k.runq[Place(i, c - 1, |k.runq|)];
    var r := Renewed(k, i, c - 1);
    if t < |r| then r[t := r[t].(working := r[t].fixed)] else r
  }

  /** A task that is not among the first c of the rotation keeps its slice. */
  lemma {:induction false} RenewedLater(k: State, i: nat, c: nat, d: nat)
    requires i < |k.runq| && c <= d < |k.runq| && Distinct(k.runq)
    requires k.runq[Place(i, d, |k.runq|)] < |k.tasks|
    ensures Renewed(k, i, c)[k.runq[Place(i, d, |k.runq|)]] == TaskOf(k, k.runq[Place(i, d, |k.runq|)])
    decreases c
  {
    if c > 0 {
      RenewedLater(k, i, c - 1, d);
      assert Place(i, c - 1, |k.runq|) != Place(i, d, |k.runq|);
    }
  }

  /** The state when the first c tasks of the rotation have used up their slices. */
  function AfterSlices(k: State, i: nat, c: nat): State
    requires i < |k.runq| && c <= |k.runq|
  {
    var t := k.runq[Place(i, c, |k.runq|)];
    k.(tasks := Renewed(k, i, c), sleep := Later(k.sleep, Elapsed(k, i, c)), cursor := On(t), run := Thread(t))
  }

  lemma SuccPlace(i: nat, c: nat, m: nat)
    requires i < m && c < m
    ensures Place(i, c + 1, m) == Succ(Place(i, c, m), m)
  {
  }

  lemma AdvanceAfter(k: State, i: nat, c: nat)
    requires RunsAt(k, i) && c < |k.runq|
    ensures var p := Place(i, c, |k.runq|); var w := TaskOf(k, k.runq[p]).working;
            && Advanced(AfterSlices(k, i, c), p, w) == AfterSlices(k, i, c + 1)
            && TaskOf(AfterSlices(k, i, c), k.runq[p]).working == w
  {
    var p := Place(i, c, |k.runq|);
    var w := TaskOf(k, k.runq[p]).working;
    ElapsedNext(k, i, c);
    RenewedLater(k, i, c, c);
    SuccPlace(i, c, |k.runq|);
    assert Later(Later(k.sleep, Elapsed(k, i, c)), w) == Later(k.sleep, Elapsed(k, i, c + 1));
  }

  lemma AfterNone(k: State, i: nat)
    requires RunsAt(k, i)
    ensures Elapsed(k, i, 0) == 0 && AfterSlices(k, i, 0) == k == Ticks(k, 0)
  {
    assert Rotation(k.runq, i)[..0] == [];
    assert Later(k.sleep, 0) == k.sleep;
  }

  lemma NextRound(k: State, i: nat, c: nat, k': State)
    requires RunsAt(k, i) && c < |k.runq| && NotDue(k.sleep, Elapsed(k, i, c + 1))
    requires k' == AfterSlices(k, i, c) && RunsAt(k', Place(i, c, |k.runq|))
    ensures Ticks(k', TaskOf(k, k.runq[Place(i, c, |k.runq|)]).working) == AfterSlices(k, i, c + 1)
    ensures RunsAt(AfterSlices(k, i, c + 1), Place(i, c + 1, |k.runq|))
  {
    var p := Place(i, c, |k.runq|);
    var w := TaskOf(k, k.runq[p]).working;
    ElapsedNext(k, i, c);
    AdvanceAfter(k, i, c);
    SuccPlace(i, c, |k.runq|);
    assert NotDue(k'.sleep, w);
    SliceEnds(k', p);
    AdvancedRuns(k', p, w);
  }

  lemma RoundChain(k: State, i: nat, c: nat)
    requires i < |k.runq| && c < |k.runq|
    requires Ticks(k, Elapsed(k, i, c)) == AfterSlices(k, i, c)
    ensures Ticks(k, Elapsed(k, i, c + 1)) ==
            Ticks(AfterSlices(k, i, c), TaskOf(k, k.runq[Place(i, c, |k.runq|)]).working)
  {
    hide DoTick, AfterSlices;
    ElapsedNext(k, i, c);
    TicksChain(k, AfterSlices(k, i, c), Elapsed(k, i, c), TaskOf(k, k.runq[Place(i, c, |k.runq|)]).working);
  }

  lemma StillNotDue(k: State, i: nat, c: nat)
    requires i < |k.runq| && c < |k.runq| && NotDue(k.sleep, Elapsed(k, i, c + 1))
    ensures NotDue(k.sleep, Elapsed(k, i, c))
  {
    ElapsedNext(k, i, c);
  }

  lemma {:induction false} Rounds(k: State, i: nat, c: nat)
    requires RunsAt(k, i) && c <= |k.runq| && NotDue(k.sleep, Elapsed(k, i, c))
    ensures Ticks(k, Elapsed(k, i, c)) == AfterSlices(k, i, c)
    ensures RunsAt(AfterSlices(k, i, c), Place(i, c, |k.runq|))
    decreases c
  {
    hide Ticks, AfterSlices, DoTick;
    if c == 0 {
      AfterNone(k, i);
    } else {
      StillNotDue(k, i, c - 1);
      Rounds(k, i, c - 1);
      NextRound(k, i, c - 1, AfterSlices(k, i, c - 1));
      RoundChain(k, i, c - 1);
    }
  }

  /**
   Weighted round robin on a stable run queue, from any slices: the c-th task after the running one
   runs when exactly the slices of the c tasks before it have passed, and keeps running through its
   own, so each runnable task runs within the sum of all slices.
   */
  lemma WeightedRoundRobin(k: State, i: nat, c: nat, j: nat)
    requires RunsAt(k, i) && c < |k.runq|
    requires j < TaskOf(k, k.runq[Place(i, c, |k.runq|)]).working
    requires NotDue(k.sleep, Elapsed(k, i, c) + j)
    ensures var r := Ticks(k, Elapsed(k, i, c) + j); var t := k.runq[Place(i, c, |k.runq|)];
            && r.run == Thread(t) && r.runq == k.runq
            && TaskOf(r, t).working == TaskOf(k, t).working - j
    ensures Elapsed(k, i, c) + j < SliceSum(k, k.runq)
  {
    var k' := AfterSlices(k, i, c);
    Rounds(k, i, c);
    RenewedLater(k, i, c, c);
    InsideSlice(k', Place(i, c, |k.runq|), j);
    TicksChain(k, k', Elapsed(k, i, c), j);
    RoundBound(k, i, c);
  }

  lemma RoundBound(k: State, i: nat, c: nat)
    requires i < |k.runq| && c < |k.runq|
    ensures Elapsed(k, i, c) + TaskOf(k, k.runq[Place(i, c, |k.runq|)]).working <= SliceSum(k, k.runq)
  {
    ElapsedNext(k, i, c);
    ElapsedMonotone(k, i, c + 1, |k.runq|);
    WholeRound(k, i);
  }

  /** Every task on the run queue has a full slice, its priority. */
  ghost predicate FullSlices(k: State) {
    forall t :: t in k.runq ==> TaskOf(k, t).working == TaskOf(k, t).fixed
  }

  function Priorities(k: State, ts: seq<nat>): nat {
    if ts == [] then 0 else Priorities(k, ts[..|ts| - 1]) + TaskOf(k, ts[|ts| - 1]).fixed
  }

  lemma {:induction false} FullSum(k: State, ts: seq<nat>)
    requires forall t :: t in ts ==> TaskOf(k, t).working == TaskOf(k, t).fixed
    ensures SliceSum(k, ts) == Priorities(k, ts)
    decreases |ts|
  {
    if ts != [] {
      FullSum(k, ts[..|ts| - 1]);
    }
  }

  lemma {:induction false} RenewedFull(k: State, i: nat, c: nat)
    requires i < |k.runq| && FullSlices(k)
    ensures Renewed(k, i, c) == k.tasks
    decreases c
  {
    if c > 0 {
      RenewedFull(k, i, c - 1);
      assert k.runq[Place(i, c - 1, |k.runq|)] in k.runq;
    }
  }

  /** k with its sleepers n ticks closer to their end. */
  function Aged(k: State, n: nat): State {
    k.(sleep := Later(k.sleep, n))
  }

  lemma OnePeriod(k: State, i: nat)
    requires RunsAt(k, i) && FullSlices(k) && NotDue(k.sleep, Priorities(k, k.runq))
    ensures Ticks(k, Priorities(k, k.runq)) == Aged(k, Priorities(k, k.runq))
  {
    WholeRound(k, i);
    FullSum(k, k.runq);
    Rounds(k, i, |k.runq|);
    RenewedFull(k, i, |k.runq|);
  }

  lemma {:induction false} SamePrioritySum(k: State, k': State, ts: seq<nat>)
    requires k'.tasks == k.tasks
    ensures Priorities(k', ts) == Priorities(k, ts)
    decreases |ts|
  {
    if ts != [] {
      SamePrioritySum(k, k', ts[..|ts| - 1]);
    }
  }

  lemma AgedRuns(k: State, i: nat, n: nat)
    requires RunsAt(k, i) && FullSlices(k)
    ensures RunsAt(Aged(k, n), i) && FullSlices(Aged(k, n))
    ensures Priorities(Aged(k, n), k.runq) == Priorities(k, k.runq)
  {
    var k' := Aged(k, n);
    SamePrioritySum(k, k', k.runq);
    forall t | t in k'.runq ensures TaskOf(k', t).working == TaskOf(k', t).fixed {
      assert t in k.runq;
    }
  }

  lemma AgedTwice(k: State, m: nat, n: nat)
    ensures Aged(Aged(k, m), n) == Aged(k, m + n)
    ensures NotDue(k.sleep, m + n) ==> NotDue(k.sleep, m) && NotDue(Aged(k, m).sleep, n)
  {
    assert Later(Later(k.sleep, m), n) == Later(k.sleep, m + n);
  }

  /**
   With full slices, and while no sleeper is due, the schedule has the sum of the priorities as its
   period: only the sleepers get closer.
   */
  lemma {:induction false} Periodic(k: State, i: nat, rounds: nat)
    requires RunsAt(k, i) && FullSlices(k) && NotDue(k.sleep, rounds * Priorities(k, k.runq))
    ensures Ticks(k, rounds * Priorities(k, k.runq)) == Aged(k, rounds * Priorities(k, k.runq))
    decreases rounds
  {
    if rounds == 0 {
      assert Later(k.sleep, 0) == k.sleep;
    } else {
      var p, rest := Priorities(k, k.runq), (rounds - 1) * Priorities(k, k.runq);
      assert rounds * p == p + rest;
      AgedTwice(k, p, rest);
      OnePeriod(k, i);
      AgedRuns(k, i, p);
      Periodic(Aged(k, p), i, rounds - 1);
      TicksChain(k, Aged(k, p), p, rest);
    }
  }
}
