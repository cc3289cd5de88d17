/** Mutexes: exclusion, FIFO hand-off and priority inheritance over runs of the whole kernel. */
module Mutexes {
  import opened Semaphores
  import opened Kernel
  import opened Conservation
  import opened Invariants

  predicate Holds(k: State, t: nat, m: nat)
    requires m < |k.mtxs|
  {
    k.mtxs[m].holder == Some(t)
  }

  ghost predicate HoldsNothing(k: State, t: nat) {
    forall m :: 0 <= m < |k.mtxs| ==> !Holds(k, t, m)
  }

  // ---------- exclusion ----------

  /**
   A history of lock calls: owed[m] holds the tasks that called mtx_lock on m and have not called
   mtx_unlock since. A task in owed[m] that is not waiting has returned from its lock call.
   */
  function Owe(k: State, owed: seq<set<nat>>, op: Op): (r: seq<set<nat>>)
    requires Enabled(k, op) && |owed| == |k.mtxs|
    ensures |r| == |owed|
  {
    match op
    case Lock(m) => owed[m := owed[m] + {k.run.task}]
    case Unlock(m) => if Holds(k, k.run.task, m) then owed[m := owed[m] - {k.run.task}] else owed
    case _ => owed
  }

  /** Locks are not recursive, and no task dies owing an unlock. */
  ghost predicate NonRecursive(k: State, owed: seq<set<nat>>, op: Op)
    requires Enabled(k, op) && |owed| == |k.mtxs|
  {
    && (op.Lock? ==> k.run.task !in owed[op.mtx])
    && (op == Kill ==> forall m :: 0 <= m < |owed| ==> k.run.task !in owed[m])
  }

  ghost predicate NonRecursiveRun(k: State, owed: seq<set<nat>>, ops: seq<Op>)
    requires IsRun(k, ops) && |owed| == |k.mtxs|
    decreases |ops|
  {
    ops == [] || (&& NonRecursive(k, owed, ops[0])
                  && |Next(k, ops[0]).mtxs| == |owed|
                  && NonRecursiveRun(Next(k, ops[0]), Owe(k, owed, ops[0]), ops[1..]))
  }

  function Members(s: seq<nat>): set<nat> { set t | t in s }

  /** A free mutex has no waiters, and exactly the holder and the waiters owe an unlock. */
  ghost predicate Exclusive(k: State, owed: seq<set<nat>>) {
    && |owed| == |k.mtxs|
    && (forall m :: 0 <= m < |k.mtxs| ==>
          && (k.mtxs[m].holder == None ==> k.mtxs[m].wq == [])
          && (k.mtxs[m].holder.Some? ==> k.mtxs[m].holder.value !in k.mtxs[m].wq)
          && owed[m] == Members(k.mtxs[m].wq) + (if k.mtxs[m].holder.Some? then {k.mtxs[m].holder.value} else {}))
  }

  lemma NotWaiting(k: State, t: nat, m: nat)
    requires Single(k) && t in k.runq && m < |k.mtxs|
    ensures t !in k.mtxs[m].wq && |k.mtxs[m].wq| < k.n
  {
    QueueHasRoom(k, t);
    MtxUpdate(k, m, k.mtxs[m], t);
    TimesIn(k.mtxs[m].wq, t);
    TimesIn(k.runq, t);
    assert Places(k, t) <= if t < k.n then 1 else 0;
  }

  lemma LockExclusive(k: State, owed: seq<set<nat>>, m: nat)
    requires WellFormed(k) && Exclusive(k, owed) && Enabled(k, Lock(m)) && NonRecursive(k, owed, Lock(m))
    ensures Exclusive(Next(k, Lock(m)), Owe(k, owed, Lock(m)))
  {
    var t, x := k.run.task, k.mtxs[m];
    NotWaiting(k, t, m);
    var y := Next(k, Lock(m)).mtxs[m];
    if x.holder.Some? {
      assert y == x.(wq := x.wq + [t]);
      assert Members(y.wq) == Members(x.wq) + {t};
    }
  }

  lemma UnlockExclusive(k: State, owed: seq<set<nat>>, m: nat)
    requires WellFormed(k) && Exclusive(k, owed) && Enabled(k, Unlock(m))
    ensures Exclusive(DoUnlock(k, k.run.task, m), Owe(k, owed, Unlock(m)))
  {
    var t, x := k.run.task, k.mtxs[m];
    NotWaiting(k, t, m);
    QueuesDistinct(k);
    if Holds(k, t, m) && x.wq != [] {
      var y := DoUnlock(k, t, m).mtxs[m];
      assert y == Mutex(Some(x.wq[0]), x.wq[1..]);
      assert x.wq == [x.wq[0]] + x.wq[1..];
      assert x.wq[0] !in x.wq[1..];
      assert Members(x.wq) == Members(y.wq) + {x.wq[0]};
    }
  }

  lemma StepExclusive(k: State, owed: seq<set<nat>>, op: Op)
    requires WellFormed(k) && Exclusive(k, owed) && Enabled(k, op) && NonRecursive(k, owed, op)
    ensures Exclusive(Next(k, op), Owe(k, owed, op))
  {
    match op
    case Lock(m) => LockExclusive(k, owed, m);
    case Unlock(m) => UnlockExclusive(k, owed, m);
    case Create(_) =>
    case _ => OtherPriorities(k, op);
  }

  /** A runnable task that owes an unlock is the holder: it came out of its lock call with the mutex. */
  lemma ResumesAsHolder(k: State, owed: seq<set<nat>>, m: nat)
    requires WellFormed(k) && Exclusive(k, owed) && m < |k.mtxs|
    ensures forall t :: t in owed[m] && t in k.runq ==> k.mtxs[m].holder == Some(t)
    ensures forall t, u :: t in owed[m] && u in owed[m] && t !in k.mtxs[m].wq && u !in k.mtxs[m].wq ==> t == u
  {
    forall t | t in owed[m] && t in k.runq ensures k.mtxs[m].holder == Some(t) {
      NotWaiting(k, t, m);
    }
  }

  function OweAll(k: State, owed: seq<set<nat>>, ops: seq<Op>): seq<set<nat>>
    requires IsRun(k, ops) && |owed| == |k.mtxs| && NonRecursiveRun(k, owed, ops)
    decreases |ops|
  {
    if ops == [] then owed else OweAll(Next(k, ops[0]), Owe(k, owed, ops[0]), ops[1..])
  }

  /**
   Mutual exclusion over every run with non-recursive locking: of the tasks between a returned
   mtx_lock and their mtx_unlock there is at most one, the holder.
   */
  lemma {:induction false} MutualExclusion(k: State, owed: seq<set<nat>>, ops: seq<Op>)
    requires WellFormed(k) && Exclusive(k, owed) && IsRun(k, ops)
    requires NonRecursiveRun(k, owed, ops)
    ensures var r := Exec(k, ops); var o := OweAll(k, owed, ops);
            && WellFormed(r) && Exclusive(r, o)
            && (forall m, t :: 0 <= m < |r.mtxs| && t in o[m] && t in r.runq ==> r.mtxs[m].holder == Some(t))
    decreases |ops|
  {
    if ops == [] {
      forall m, t | 0 <= m < |k.mtxs| && t in owed[m] && t in k.runq ensures k.mtxs[m].holder == Some(t) {
        ResumesAsHolder(k, owed, m);
      }
    } else {
      StepWellFormed(k, ops[0]);
      StepExclusive(k, owed, ops[0]);
      MutualExclusion(Next(k, ops[0]), Owe(k, owed, ops[0]), ops[1..]);
    }
  }

  /** Nobody owes an unlock when the kernel starts. */
  function NoDebts(mutexes: nat): (r: seq<set<nat>>)
    ensures |r| == mutexes
  {
    seq(mutexes, _ => {})
  }

  /** Mutual exclusion in every state that such a run reaches from os_init. */
  lemma MutualExclusionFromInit(n: nat, values: seq<nat>, mutexes: nat, ops: seq<Op>, m: nat)
    requires n <= VAL_MAX && IsRun(Initial(n, values, mutexes), ops)
    requires NonRecursiveRun(Initial(n, values, mutexes), NoDebts(mutexes), ops) && m < mutexes
    ensures var r := Exec(Initial(n, values, mutexes), ops);
            var o := OweAll(Initial(n, values, mutexes), NoDebts(mutexes), ops);
            && |o| == |r.mtxs| == mutexes
            && o[m] == Members(r.mtxs[m].wq) + (if r.mtxs[m].holder.Some? then {r.mtxs[m].holder.value} else {})
            && (forall t :: t in o[m] && t in r.runq ==> r.mtxs[m].holder == Some(t))
  {
    var k := Initial(n, values, mutexes);
    InitialSound(n, values, mutexes);
    MutualExclusion(k, NoDebts(mutexes), ops);
    RunWellFormed(k, ops);
  }

  // ---------- FIFO hand-off ----------

  predicate HandsOn(k: State, op: Op, m: nat)
    requires m < |k.mtxs|
  {
    op == Unlock(m) && k.run.Thread? && Holds(k, k.run.task, m)
  }

  /** How many unlocks of m by its holder a run contains. */
  ghost function HandOns(k: State, ops: seq<Op>, m: nat): nat
    requires IsRun(k, ops) && m < |k.mtxs|
    decreases |ops|
  {
    if ops == [] then 0 else
    StepSize(k, ops[0]);
    (if HandsOn(k, ops[0], m) then 1 else 0) + HandOns(Next(k, ops[0]), ops[1..], m)
  }

  lemma CreateQueue(k: State, priority: nat)
    ensures DoCreate(k, priority).mtxs == k.mtxs
  {
  }

  lemma LockQueue(k: State, t: nat, l: nat, m: nat)
    requires Single(k) && t in k.runq && l < |k.mtxs| && m < |k.mtxs|
    ensures |DoLock(k, t, l).mtxs| == |k.mtxs| && k.mtxs[m].wq <= DoLock(k, t, l).mtxs[m].wq
  {
    NotWaiting(k, t, l);
  }

  lemma UnlockQueue(k: State, t: nat, l: nat, m: nat)
    requires l < |k.mtxs| && m < |k.mtxs| && k.mtxs[m].wq != []
    ensures var r, x := DoUnlock(k, t, l), k.mtxs[m];
            && |r.mtxs| == |k.mtxs|
            && if l == m && Holds(k, t, m) then r.mtxs[m] == Mutex(Some(x.wq[0]), x.wq[1..]) else r.mtxs[m] == x
  {
  }

  lemma StepQueue(k: State, op: Op, m: nat)
    requires WellFormed(k) && Enabled(k, op) && m < |k.mtxs| && k.mtxs[m].wq != []
    ensures |Next(k, op).mtxs| == |k.mtxs|
    ensures var q := Next(k, op).mtxs[m].wq;
            if HandsOn(k, op, m) then q == k.mtxs[m].wq[1..] && Next(k, op).mtxs[m].holder == Some(k.mtxs[m].wq[0])
            else k.mtxs[m].wq <= q
  {
    hide DoCreate, DoTick, DoSleep, DoSemWait, DoSemPost, DoLock, DoUnlock, DoKill, WakeJoiners;
    StepSize(k, op);
    match op
    case Create(priority) => CreateQueue(k, priority);
    case Lock(l) => LockQueue(k, k.run.task, l, m);
    case Unlock(l) => UnlockQueue(k, k.run.task, l, m);
    case _ => OtherPriorities(k, op);
  }

  /** Where the waiter at position p stands after a step. */
  function Moved(k: State, op: Op, m: nat, p: nat): int
    requires m < |k.mtxs|
  {
    if HandsOn(k, op, m) then p - 1 else p
  }

  lemma WaiterMoves(k: State, op: Op, m: nat, p: nat)
    requires WellFormed(k) && Enabled(k, op) && m < |k.mtxs| && p < |k.mtxs[m].wq| && Moved(k, op, m, p) >= 0
    ensures var k' := Next(k, op); var q := Moved(k, op, m, p);
            m < |k'.mtxs| && q < |k'.mtxs[m].wq| && k'.mtxs[m].wq[q] == k.mtxs[m].wq[p]
  {
    StepQueue(k, op, m);
  }

  lemma HandOnsTail(k: State, ops: seq<Op>, m: nat)
    requires IsRun(k, ops) && m < |k.mtxs| && ops != []
    ensures m < |Next(k, ops[0]).mtxs|
    ensures HandOns(k, ops, m) == HandOns(Next(k, ops[0]), ops[1..], m) + if HandsOn(k, ops[0], m) then 1 else 0
  {
    StepSize(k, ops[0]);
  }

  /** Task w waits at position q of the queue of m; at position 0 the next hand-on makes it the holder. */
  ghost predicate WaitsAt(k: State, m: nat, q: nat, w: nat) {
    && m < |k.mtxs| && q < |k.mtxs[m].wq| && k.mtxs[m].wq[q] == w
    && (q == 0 && Enabled(k, Unlock(m)) && HandsOn(k, Unlock(m), m) ==>
          |Next(k, Unlock(m)).mtxs| == |k.mtxs| && Next(k, Unlock(m)).mtxs[m].holder == Some(w))
  }

  lemma WaiterAt(k: State, m: nat, q: nat)
    requires WellFormed(k) && m < |k.mtxs| && q < |k.mtxs[m].wq|
    ensures WaitsAt(k, m, q, k.mtxs[m].wq[q])
  {
    if Enabled(k, Unlock(m)) {
      StepQueue(k, Unlock(m), m);
    }
  }

  /**
   The waiter at position p stays queued, p - h places from the front, while the run has handed the
   mutex on h <= p times; the next hand-on after the p-th makes it the holder.
   */
  lemma {:induction false} FifoHandOff(k: State, ops: seq<Op>, m: nat, p: nat)
    requires WellFormed(k) && IsRun(k, ops) && m < |k.mtxs| && p < |k.mtxs[m].wq|
    requires HandOns(k, ops, m) <= p
    ensures WaitsAt(Exec(k, ops), m, p - HandOns(k, ops, m), k.mtxs[m].wq[p])
    decreases |ops|
  {
    hide Next, Enabled, HandsOn, WellFormed, WaitsAt;
    if ops == [] {
      WaiterAt(k, m, p);
    } else {
      StepWellFormed(k, ops[0]);
      HandOnsTail(k, ops, m);
      WaiterMoves(k, ops[0], m, p);
      FifoHandOff(Next(k, ops[0]), ops[1..], m, Moved(k, ops[0], m, p));
    }
  }
}
