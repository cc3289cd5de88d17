/** Semaphore conservation in runs of the whole kernel: the calls that a run makes on one semaphore. */
module Grants {
  import opened Semaphores
  import opened Kernel
  import opened Conservation
  import opened Steps
  import opened Invariants

  /** The calls on semaphore s in a step. The wake loop of os_task_exit posts once for each joiner. */
  function Calls(k: State, op: Op, s: nat): seq<Event> {
    match op
    case SemWait(r) => if r == s && k.run.Thread? then [WaitBy(k.run.task)] else []
    case SemTryWait(r) => if r == s then [Try] else []
    case SemPost(r) => if r == s then [PostOne] else []
    case Exit => if k.run == Thread(s) && s < |k.sems| then seq(|k.sems[s].wq|, _ => PostOne) else []
    case _ => []
  }

  /** Steps that leave the run of calls: the reset of a join semaphore, and a post at the top of the count. */
  predicate Breaks(k: State, op: Op, s: nat) {
    || (op.Create? && op.priority > 0 && k.free != [] && k.free[0] == s)
    || (op == SemPost(s) && s < |k.sems| && k.sems[s].val == VAL_MAX)
  }

  lemma {:induction false} JoinersElsewhere(k: State, t: nat, s: nat)
    requires t < |k.sems| && Agrees(k.sems[t]) && s < |k.sems| && s != t
    ensures |WakeJoiners(k, t).sems| == |k.sems| && WakeJoiners(k, t).sems[s] == k.sems[s]
    decreases |k.sems[t].wq|
  {
    if k.sems[t].wq != [] {
      PostAgrees(k.sems[t]);
      JoinersElsewhere(DoSemPost(k, t), t, s);
    }
  }

  lemma {:induction false} JoinersRecorded(k: State, t: nat, l: Log, cap: nat)
    requires t < |k.sems| && Agrees(k.sems[t]) && l.sem == k.sems[t]
    ensures var es := seq(|k.sems[t].wq|, _ => PostOne); var r := WakeJoiners(k, t);
            InBounds(l, es, cap) && |r.sems| == |k.sems| && RecordAll(l, es, cap).sem == r.sems[t]
    decreases |k.sems[t].wq|
  {
    if k.sems[t].wq != [] {
      var es := seq(|k.sems[t].wq|, _ => PostOne);
      PostAgrees(k.sems[t]);
      assert es[0] == PostOne && es[1..] == seq(|k.sems[t].wq| - 1, _ => PostOne);
      JoinersRecorded(DoSemPost(k, t), t, Record(l, PostOne, cap), cap);
    }
  }

  lemma OneCall(l: Log, e: Event, cap: nat)
    ensures RecordAll(l, [e], cap) == Record(l, e, cap)
    ensures InBounds(l, [e], cap) <==> (e == PostOne ==> l.sem.val < VAL_MAX) && (e.WaitBy? ==> |l.sem.wq| < cap)
  {
    assert [e][1..] == [];
  }

  lemma CreatedElsewhere(k: State, priority: nat, s: nat)
    requires s < |k.sems| && !(priority > 0 && k.free != [] && k.free[0] == s)
    ensures |DoCreate(k, priority).sems| == |k.sems| && DoCreate(k, priority).sems[s] == k.sems[s]
  {
  }

  lemma WaitedElsewhere(k: State, t: nat, r: nat, s: nat)
    requires s < |k.sems| && r < |k.sems| && r != s
    ensures |DoSemWait(k, t, r).sems| == |k.sems| && DoSemWait(k, t, r).sems[s] == k.sems[s]
  {
  }

  /** A step that makes no call on s leaves it alone. */
  lemma Uncalled(k: State, op: Op, s: nat)
    requires WellFormed(k) && Enabled(k, op) && s < |k.sems| && !Breaks(k, op, s)
    requires op != SemWait(s) && op != SemTryWait(s) && op != SemPost(s) && (op == Exit ==> k.run.task != s)
    ensures |Next(k, op).sems| == |k.sems| && Next(k, op).sems[s] == k.sems[s]
  {
    hide DoCreate, DoTick, DoSemWait, DoSemPost, DoSleep, DoLock, DoUnlock, DoKill, WakeJoiners;
    match op
    case Create(priority) => CreatedElsewhere(k, priority, s);
    case SemWait(r) => WaitedElsewhere(k, k.run.task, r, s);
    case SemTryWait(_) =>
    case SemPost(_) =>
    case Exit => JoinersElsewhere(k, k.run.task, s);
    case _ => OtherSems(k, op);
  }

  /** The semaphore after a step is the semaphore after the calls of that step. */
  lemma StepRecorded(k: State, op: Op, s: nat, l: Log)
    requires WellFormed(k) && Enabled(k, op) && s < |k.sems| && l.sem == k.sems[s]
    requires Agrees(k.sems[s]) && !Breaks(k, op, s)
    ensures InBounds(l, Calls(k, op, s), k.n)
    ensures |Next(k, op).sems| == |k.sems| && RecordAll(l, Calls(k, op, s), k.n).sem == Next(k, op).sems[s]
  {
    if op == SemWait(s) {
      QueueHasRoom(k, k.run.task);
      OneCall(l, WaitBy(k.run.task), k.n);
    } else if op == SemTryWait(s) {
      OneCall(l, Try, k.n);
    } else if op == SemPost(s) {
      OneCall(l, PostOne, k.n);
    } else if op == Exit && k.run.task == s {
      JoinersRecorded(k, s, l, k.n);
    } else {
      Uncalled(k, op, s);
    }
  }

  lemma {:induction false} RecordConcat(l: Log, a: seq<Event>, b: seq<Event>, cap: nat)
    requires InBounds(l, a, cap) && InBounds(RecordAll(l, a, cap), b, cap)
    ensures InBounds(l, a + b, cap) && RecordAll(l, a + b, cap) == RecordAll(RecordAll(l, a, cap), b, cap)
    decreases |a|
  {
    if a == [] {
      assert a + b == b;
    } else {
      assert (a + b)[0] == a[0] && (a + b)[1..] == a[1..] + b;
      RecordConcat(Record(l, a[0], cap), a[1..], b, cap);
    }
  }

  // ---------- every run ----------

  ghost function RunCalls(k: State, ops: seq<Op>, s: nat): seq<Event>
    requires IsRun(k, ops)
    decreases |ops|
  {
    if ops == [] then [] else Calls(k, ops[0], s) + RunCalls(Next(k, ops[0]), ops[1..], s)
  }

  ghost predicate Unbroken(k: State, ops: seq<Op>, s: nat)
    requires IsRun(k, ops)
    decreases |ops|
  {
    ops == [] || (!Breaks(k, ops[0], s) && Unbroken(Next(k, ops[0]), ops[1..], s))
  }

  /** A semaphore that is in step stays so under its calls. */
  lemma StaysInStep(l: Log, es: seq<Event>, cap: nat)
    requires Agrees(l.sem) && InBounds(l, es, cap) && cap <= VAL_MAX
    ensures Agrees(RecordAll(l, es, cap).sem)
    decreases |es|
  {
    if es != [] {
      match es[0]
      case WaitBy(t) => WaitAgrees(l.sem, t, cap);
      case Try =>
      case PostOne => PostAgrees(l.sem);
      StaysInStep(Record(l, es[0], cap), es[1..], cap);
    }
  }

  lemma {:induction false} RunRecorded(k: State, ops: seq<Op>, s: nat, l: Log)
    requires WellFormed(k) && IsRun(k, ops) && Unbroken(k, ops, s)
    requires s < |k.sems| && l.sem == k.sems[s] && Agrees(l.sem)
    ensures InBounds(l, RunCalls(k, ops, s), k.n)
    ensures s < |Exec(k, ops).sems| && RecordAll(l, RunCalls(k, ops, s), k.n).sem == Exec(k, ops).sems[s]
    decreases |ops|
  {
    if ops != [] {
      var k', es := Next(k, ops[0]), Calls(k, ops[0], s);
      var m := RecordAll(l, es, k.n);
      StepRecorded(k, ops[0], s, l);
      StaysInStep(l, es, k.n);
      StepWellFormed(k, ops[0]);
      StepSize(k, ops[0]);
      RunRecorded(k', ops[1..], s, m);
      RecordConcat(l, es, RunCalls(k', ops[1..], s), k.n);
    }
  }

  /**
   In every run from os_init that does not post at the top of semaphore s, nor reuse the slot whose
   join semaphore s is: initial value + posts - grants = max(val, 0), the queue is as long as the
   count is below zero, and the tasks that blocked leave it in the order they came. No wait queue is
   ever full.
   */
  lemma ConservationInKernel(n: nat, values: seq<nat>, mutexes: nat, ops: seq<Op>, s: nat)
    requires n <= VAL_MAX && (forall i :: 0 <= i < |values| ==> Init(values[i], n) != None) && s < n + |values|
    requires IsRun(Initial(n, values, mutexes), ops) && Unbroken(Initial(n, values, mutexes), ops, s)
    ensures var start := Initial(n, values, mutexes); var initial := if s < n then 0 else values[s - n];
            var l := RecordAll(NewLog(initial), RunCalls(start, ops, s), n);
            s < |Exec(start, ops).sems| && l.sem == Exec(start, ops).sems[s] && Conserves(l, initial)
  {
    var start, initial := Initial(n, values, mutexes), if s < n then 0 else values[s - n];
    InitialSound(n, values, mutexes);
    RunRecorded(start, ops, s, NewLog(initial));
    ConservationFromInit(initial, RunCalls(start, ops, s), n);
  }
}
