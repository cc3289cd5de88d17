/** Priority inheritance, over runs in which no task locks a mutex while it holds one. */
module Inheritance {
  import opened Semaphores
  import opened Kernel
  import opened Conservation
  import opened Steps
  import opened Invariants
  import opened Mutexes

  function Fixed(k: State, t: nat): nat { TaskOf(k, t).fixed }

  function Base(k: State, t: nat): nat { TaskOf(k, t).base }

  /** The holder of m is alive, at least as urgent as it was created, and as each of its waiters. */
  ghost predicate Inherits(k: State, m: nat)
    requires m < |k.mtxs|
  {
    var x := k.mtxs[m];
    match x.holder
    case None => x.wq == []
    case Some(h) =>
      && h < k.n && h !in k.free && h !in x.wq
      && Fixed(k, h) >= Base(k, h)
      && (forall i :: 0 <= i < |x.wq| ==> Fixed(k, x.wq[i]) <= Fixed(k, h))
  }

  /** Nobody holds two mutexes, and no holder waits. */
  ghost predicate Separate(mtxs: seq<Mutex>) {
    forall m, l :: 0 <= m < |mtxs| && 0 <= l < |mtxs| && mtxs[m].holder.Some? ==>
      (mtxs[m].holder == mtxs[l].holder ==> m == l) && mtxs[m].holder.value !in mtxs[l].wq
  }

  /**
   Every holder inherits; nobody holds two mutexes or waits while holding one; and a task that
   holds nothing has the priority it was created with.
   */
  ghost predicate PriorityInv(k: State) {
    && |k.tasks| == k.n
    && (forall m :: 0 <= m < |k.mtxs| ==> Inherits(k, m))
    && Separate(k.mtxs)
    && (forall t :: 0 <= t < k.n && HoldsNothing(k, t) ==> Fixed(k, t) == Base(k, t))
  }

  /** A task locks only when it holds nothing, and dies only then. */
  ghost predicate OneAtATime(k: State, op: Op)
    requires Enabled(k, op)
  {
    op.Lock? || op == Kill ==> HoldsNothing(k, k.run.task)
  }

  lemma SamePrioritiesInv(k: State, k': State)
    requires PriorityInv(k) && SamePriorities(k, k')
    requires forall m :: 0 <= m < |k.mtxs| && k.mtxs[m].holder.Some? ==> k.mtxs[m].holder.value !in k'.free
    ensures PriorityInv(k')
  {
    assert forall t: nat :: Fixed(k', t) == Fixed(k, t) && Base(k', t) == Base(k, t);
    forall m | 0 <= m < |k'.mtxs| ensures Inherits(k', m) {
      assert Inherits(k, m);
    }
    forall t | 0 <= t < k'.n && HoldsNothing(k', t) ensures Fixed(k', t) == Base(k', t) {
      forall m | 0 <= m < |k.mtxs| ensures !Holds(k, t, m) {
        assert !Holds(k', t, m);
      }
      assert HoldsNothing(k, t);
    }
  }

  /** No holder is dead, also after the death of tasks that hold nothing. */
  lemma HoldersAlive(k: State, dead: seq<nat>)
    requires PriorityInv(k) && forall t :: t in dead ==> HoldsNothing(k, t)
    ensures forall m :: 0 <= m < |k.mtxs| && k.mtxs[m].holder.Some? ==> k.mtxs[m].holder.value !in dead + k.free
  {
    forall m | 0 <= m < |k.mtxs| && k.mtxs[m].holder.Some? ensures k.mtxs[m].holder.value !in dead + k.free {
      assert Inherits(k, m);
      assert Holds(k, k.mtxs[m].holder.value, m);
    }
  }

  lemma UntouchedInherits(k: State, k': State)
    requires PriorityInv(k) && SamePriorities(k, k') && k'.free == k.free
    ensures PriorityInv(k')
  {
    HoldersAlive(k, []);
    assert [] + k.free == k.free;
    SamePrioritiesInv(k, k');
  }

  lemma FreeHoldsNothing(k: State, t: nat)
    requires PriorityInv(k) && t in k.free
    ensures HoldsNothing(k, t)
  {
    forall m | 0 <= m < |k.mtxs| ensures !Holds(k, t, m) {
      assert Inherits(k, m);
    }
  }

  /** A free slot is on no wait queue. */
  lemma FreeNotWaiting(k: State, t: nat, m: nat)
    requires Single(k) && t in k.free && m < |k.mtxs|
    ensures t !in k.mtxs[m].wq
  {
    MtxUpdate(k, m, k.mtxs[m], t);
    TimesIn(k.mtxs[m].wq, t);
    TimesIn(k.free, t);
    assert Places(k, t) <= if t < k.n then 1 else 0;
  }

  /** What a create changes: the slot it takes, which holds and awaits nothing. */
  lemma CreateShape(k: State, priority: nat)
    requires WellFormed(k) && Enabled(k, Create(priority)) && priority > 0 && k.free != []
    ensures var k' := Next(k, Create(priority)); var s := k.free[0];
            && k'.n == k.n && |k'.tasks| == k.n && k'.free == k.free[1..] && k'.mtxs == k.mtxs
            && Fixed(k', s) == Base(k', s)
            && (forall u: nat :: u != s ==> Fixed(k', u) == Fixed(k, u) && Base(k', u) == Base(k, u))
  {
  }

  lemma CreateInherits(k: State, priority: nat)
    requires WellFormed(k) && PriorityInv(k) && Enabled(k, Create(priority)) && priority > 0 && k.free != []
    ensures PriorityInv(Next(k, Create(priority)))
  {
    var k', s := Next(k, Create(priority)), k.free[0];
    CreateShape(k, priority);
    FreeHoldsNothing(k, s);
    forall m | 0 <= m < |k'.mtxs| ensures Inherits(k', m) {
      assert Inherits(k, m) && !Holds(k, s, m);
      FreeNotWaiting(k, s, m);
    }
    forall t | 0 <= t < k'.n && HoldsNothing(k', t) ensures Fixed(k', t) == Base(k', t) {
      forall m | 0 <= m < |k.mtxs| ensures !Holds(k, t, m) {
        assert !Holds(k', t, m);
      }
      assert HoldsNothing(k, t);
    }
  }

  lemma TakeInherits(k: State, m: nat)
    requires WellFormed(k) && PriorityInv(k) && Enabled(k, Lock(m)) && HoldsNothing(k, k.run.task)
    requires k.mtxs[m].holder == None
    ensures PriorityInv(Next(k, Lock(m)))
  {
    var k', t := Next(k, Lock(m)), k.run.task;
    RunnableIsOnlyThere(k, t);
    TimesIn(k.free, t);
    forall l | 0 <= l < |k'.mtxs| ensures Inherits(k', l) && t !in k'.mtxs[l].wq {
      assert Inherits(k, l);
      NotWaiting(k, t, l);
    }
    forall l | 0 <= l < |k.mtxs| ensures k.mtxs[l].holder != Some(t) {
      assert !Holds(k, t, l);
    }
    forall u | 0 <= u < k'.n && HoldsNothing(k', u) ensures Fixed(k', u) == Base(k', u) {
      assert !Holds(k', u, m);
      forall l | 0 <= l < |k.mtxs| ensures !Holds(k, u, l) {
        assert !Holds(k', u, l);
      }
      assert HoldsNothing(k, u);
    }
  }

  /** What a lock of a taken mutex changes: the caller queues, and the holder takes over a higher priority. */
  lemma WaitShape(k: State, m: nat)
    requires WellFormed(k) && Enabled(k, Lock(m)) && k.mtxs[m].holder.Some?
    ensures var k' := Next(k, Lock(m)); var t := k.run.task; var h := k.mtxs[m].holder.value;
            && k'.n == k.n && |k'.tasks| == k.n && k'.free == k.free
            && k'.mtxs == k.mtxs[m := k.mtxs[m].(wq := k.mtxs[m].wq + [t])]
            && (forall u: nat :: u != h ==> Fixed(k', u) == Fixed(k, u) && Base(k', u) == Base(k, u))
            && Fixed(k', h) == (if Fixed(k, t) > Fixed(k, h) then Fixed(k, t) else Fixed(k, h))
            && Base(k', h) == Base(k, h)
  {
    RunnableIsOnlyThere(k, k.run.task);
    QueueHasRoom(k, k.run.task);
  }

  lemma WaitInherits(k: State, m: nat)
    requires WellFormed(k) && PriorityInv(k) && Enabled(k, Lock(m)) && HoldsNothing(k, k.run.task)
    requires k.mtxs[m].holder.Some?
    ensures PriorityInv(Next(k, Lock(m)))
  {
    var k', t, h := Next(k, Lock(m)), k.run.task, k.mtxs[m].holder.value;
    WaitShape(k, m);
    assert Holds(k, h, m) && !Holds(k, t, m);
    assert Inherits(k, m);
    forall l | 0 <= l < |k'.mtxs| ensures Inherits(k', l) {
      assert Inherits(k, l);
      assert l != m ==> !Holds(k, h, l);
      assert h !in k.mtxs[l].wq;
    }
    forall a | 0 <= a < |k'.mtxs| && k'.mtxs[a].holder.Some? ensures k'.mtxs[a].holder.value != t {
      assert !Holds(k, t, a);
    }
    forall u | 0 <= u < k'.n && HoldsNothing(k', u) ensures Fixed(k', u) == Base(k', u) {
      forall l | 0 <= l < |k.mtxs| ensures !Holds(k, u, l) {
        assert !Holds(k', u, l);
      }
      assert HoldsNothing(k, u);
    }
  }

  lemma FreeUnlockShape(k: State, m: nat)
    requires WellFormed(k) && Enabled(k, Unlock(m)) && k.mtxs[m].holder == Some(k.run.task) && k.mtxs[m].wq == []
    ensures var k' := Next(k, Unlock(m)); var t := k.run.task;
            && k'.n == k.n && |k'.tasks| == k.n && k'.free == k.free && k'.mtxs == k.mtxs[m := Mutex(None, [])]
            && Fixed(k', t) == Base(k, t) == Base(k', t)
            && (forall u: nat :: u != t ==> Fixed(k', u) == Fixed(k, u) && Base(k', u) == Base(k, u))
  {
    RunnableIsOnlyThere(k, k.run.task);
  }

  lemma HandOverShape(k: State, m: nat)
    requires WellFormed(k) && Enabled(k, Unlock(m)) && k.mtxs[m].holder == Some(k.run.task) && k.mtxs[m].wq != []
    ensures var k' := Next(k, Unlock(m)); var t := k.run.task; var q := k.mtxs[m].wq; var w := q[0];
            && k'.n == k.n && |k'.tasks| == k.n && k'.free == k.free && w != t && w < k.n
            && k'.mtxs == k.mtxs[m := Mutex(Some(w), q[1..])]
            && Fixed(k', t) == Base(k, t) == Base(k', t)
            && Fixed(k', w) == Fixed(k, t) && Base(k', w) == Base(k, w)
            && (forall u: nat :: u != t && u != w ==> Fixed(k', u) == Fixed(k, u) && Base(k', u) == Base(k, u))
  {
    RunnableIsOnlyThere(k, k.run.task);
    WaiterNotRunning(k, m);
  }

  /** An unlock gives the unlocker its own priority back and never lowers the task it hands the mutex to. */
  lemma UnlockInherits(k: State, m: nat)
    requires WellFormed(k) && PriorityInv(k) && Enabled(k, Unlock(m))
    ensures PriorityInv(Next(k, Unlock(m)))
    ensures var k' := Next(k, Unlock(m)); var t := k.run.task; var q := k.mtxs[m].wq;
            k.mtxs[m].holder == Some(t) ==>
              && Fixed(k', t) == Base(k, t)
              && (q != [] ==> k'.mtxs[m].holder == Some(q[0]) && Fixed(k', q[0]) == Fixed(k, t) >= Fixed(k, q[0]))
  {
    var k' := Next(k, Unlock(m));
    assert Inherits(k, m);
    if k.mtxs[m].holder != Some(k.run.task) {
      UntouchedInherits(k, k');
    } else if k.mtxs[m].wq == [] {
      FreeUnlockShape(k, m);
      UnlockedInherits(k, k', m);
    } else {
      HandOverShape(k, m);
      WaiterAlive(k, m);
      WaiterHoldsNothing(k, m);
      HandedInherits(k, k', m);
    }
  }

  lemma WaiterAlive(k: State, m: nat)
    requires Single(k) && m < |k.mtxs| && k.mtxs[m].wq != []
    ensures k.mtxs[m].wq[0] !in k.free && k.mtxs[m].wq[0] !in k.mtxs[m].wq[1..]
    ensures forall l :: 0 <= l < |k.mtxs| && l != m ==> k.mtxs[m].wq[0] !in k.mtxs[l].wq
  {
    var w := k.mtxs[m].wq[0];
    MtxUpdate(k, m, k.mtxs[m], w);
    TimesTail(k.mtxs[m].wq, w);
    TimesIn(k.mtxs[m].wq[1..], w);
    TimesIn(k.free, w);
    assert Places(k, w) <= if w < k.n then 1 else 0;
    forall l | 0 <= l < |k.mtxs| && l != m ensures w !in k.mtxs[l].wq {
      OnceOnMtxs(k, m, l, w);
    }
  }

  /** A task that waits on one mutex once waits on no other. */
  lemma OnceOnMtxs(k: State, m: nat, l: nat, w: nat)
    requires Single(k) && m < |k.mtxs| && l < |k.mtxs| && l != m && w in k.mtxs[m].wq
    ensures w !in k.mtxs[l].wq
  {
    var none := k.mtxs[m].(wq := []);
    var k' := k.(mtxs := k.mtxs[m := none]);
    MtxUpdate(k, m, none, w);
    MtxUpdate(k', l, k'.mtxs[l], w);
    TimesIn(k.mtxs[m].wq, w);
    TimesIn(k.mtxs[l].wq, w);
    assert Places(k, w) <= if w < k.n then 1 else 0;
  }

  lemma WaiterHoldsNothing(k: State, m: nat)
    requires PriorityInv(k) && m < |k.mtxs| && k.mtxs[m].wq != []
    ensures HoldsNothing(k, k.mtxs[m].wq[0])
  {
    var w := k.mtxs[m].wq[0];
    forall l | 0 <= l < |k.mtxs| ensures !Holds(k, w, l) {
      assert w in k.mtxs[m].wq;
    }
  }

  lemma UnlockedInherits(k: State, k': State, m: nat)
    requires PriorityInv(k) && m < |k.mtxs| && k.mtxs[m].holder.Some?
    requires k'.n == k.n && |k'.tasks| == k.n && k'.free == k.free && k'.mtxs == k.mtxs[m := Mutex(None, [])]
    requires var t := k.mtxs[m].holder.value;
             && Fixed(k', t) == Base(k, t) == Base(k', t)
             && (forall u: nat :: u != t ==> Fixed(k', u) == Fixed(k, u) && Base(k', u) == Base(k, u))
    ensures PriorityInv(k')
  {
    var t := k.mtxs[m].holder.value;
    forall l | 0 <= l < |k'.mtxs| ensures Inherits(k', l) {
      assert Inherits(k, l);
    }
    forall u | 0 <= u < k'.n && HoldsNothing(k', u) ensures Fixed(k', u) == Base(k', u) {
      if u != t {
        forall l | 0 <= l < |k.mtxs| ensures !Holds(k, u, l) {
          assert !Holds(k', u, l);
        }
        assert HoldsNothing(k, u);
      }
    }
  }

  lemma HandedInherits(k: State, k': State, m: nat)
    requires PriorityInv(k) && m < |k.mtxs| && k.mtxs[m].holder.Some? && k.mtxs[m].wq != []
    requires k'.n == k.n && |k'.tasks| == k.n && k'.free == k.free
    requires var t := k.mtxs[m].holder.value; var q := k.mtxs[m].wq; var w := q[0];
             && k'.mtxs == k.mtxs[m := Mutex(Some(w), q[1..])]
             && w < k.n && w !in k.free && w !in q[1..] && w != t && HoldsNothing(k, w)
             && (forall l :: 0 <= l < |k.mtxs| && l != m ==> w !in k.mtxs[l].wq)
             && Fixed(k', t) == Base(k, t) == Base(k', t)
             && Fixed(k', w) == Fixed(k, t) && Base(k', w) == Base(k, w)
             && (forall u: nat :: u != t && u != w ==> Fixed(k', u) == Fixed(k, u) && Base(k', u) == Base(k, u))
    ensures PriorityInv(k')
  {
    var t, q := k.mtxs[m].holder.value, k.mtxs[m].wq;
    var w := q[0];
    assert forall l :: 0 <= l < |k.mtxs| ==> !Holds(k, w, l);
    assert Inherits(k, m);
    forall l | 0 <= l < |k'.mtxs| ensures Inherits(k', l) {
      assert Inherits(k, l);
      if l == m {
        forall i | 0 <= i < |q[1..]| ensures Fixed(k', q[1..][i]) <= Fixed(k', w) {
          assert q[1..][i] == q[i + 1] && q[i + 1] in q;
        }
      }
    }
    forall u | 0 <= u < k'.n && HoldsNothing(k', u) ensures Fixed(k', u) == Base(k', u) {
      if u != t {
        assert !Holds(k', u, m);
        forall l | 0 <= l < |k.mtxs| ensures !Holds(k, u, l) {
          assert !Holds(k', u, l);
        }
        assert HoldsNothing(k, u);
      }
    }
  }

  // ---------- every step, every run ----------

  lemma StepInherits(k: State, op: Op)
    requires WellFormed(k) && PriorityInv(k) && Enabled(k, op) && OneAtATime(k, op)
    ensures PriorityInv(Next(k, op))
  {
    match op
    case Create(priority) =>
      if priority > 0 && k.free != [] {
        CreateInherits(k, priority);
      } else {
        UntouchedInherits(k, Next(k, op));
      }
    case Lock(m) => if k.mtxs[m].holder == None { TakeInherits(k, m); } else { WaitInherits(k, m); }
    case Unlock(m) => UnlockInherits(k, m);
    case Kill =>
      OtherPriorities(k, op);
      HoldersAlive(k, [k.run.task]);
      SamePrioritiesInv(k, Next(k, op));
    case _ =>
      OtherPriorities(k, op);
      UntouchedInherits(k, Next(k, op));
  }

  /** Every priority ever given to a task is at most p. */
  ghost predicate Bounded(k: State, p: nat) {
    forall t :: 0 <= t < |k.tasks| ==> k.tasks[t].base <= p && k.tasks[t].fixed <= p
  }

  lemma LockBounded(k: State, t: nat, m: nat, p: nat)
    requires Bounded(k, p) && m < |k.mtxs| && t < |k.tasks|
    ensures Bounded(DoLock(k, t, m), p)
  {
    assert k.tasks[t].base <= p && k.tasks[t].fixed <= p;
  }

  lemma UnlockBounded(k: State, t: nat, m: nat, p: nat)
    requires Bounded(k, p) && m < |k.mtxs| && t < |k.tasks|
    ensures Bounded(DoUnlock(k, t, m), p)
  {
    assert k.tasks[t].base <= p && k.tasks[t].fixed <= p;
  }

  /** No priority ever exceeds the largest one given at creation. */
  lemma StepBounded(k: State, op: Op, p: nat)
    requires Bounded(k, p) && Enabled(k, op) && (op.Create? ==> op.priority <= p) && Shape(k)
    ensures Bounded(Next(k, op), p)
  {
    match op
    case Create(_) =>
    case Lock(m) => LockBounded(k, k.run.task, m, p);
    case Unlock(m) => UnlockBounded(k, k.run.task, m, p);
    case _ => OtherPriorities(k, op);
  }

  ghost predicate Disciplined(k: State, ops: seq<Op>, p: nat)
    requires IsRun(k, ops)
    decreases |ops|
  {
    ops == [] || (&& OneAtATime(k, ops[0]) && (ops[0].Create? ==> ops[0].priority <= p)
                  && Disciplined(Next(k, ops[0]), ops[1..], p))
  }

  /**
   Priority inheritance over every run in which tasks hold one mutex at a time: a holder is at
   least as urgent as each of its waiters and as its own creation priority, a task holding nothing
   has its creation priority, and no priority exceeds the largest creation priority.
   */
  lemma {:induction false} PriorityInheritance(k: State, ops: seq<Op>, p: nat)
    requires WellFormed(k) && PriorityInv(k) && Bounded(k, p) && IsRun(k, ops) && Disciplined(k, ops, p)
    ensures var r := Exec(k, ops); WellFormed(r) && PriorityInv(r) && Bounded(r, p)
    decreases |ops|
  {
    if ops != [] {
      StepWellFormed(k, ops[0]);
      StepInherits(k, ops[0]);
      StepBounded(k, ops[0], p);
      PriorityInheritance(Next(k, ops[0]), ops[1..], p);
    }
  }

  lemma InitialInherits(n: nat, values: seq<nat>, mutexes: nat, p: nat)
    requires p >= 1
    ensures PriorityInv(Initial(n, values, mutexes)) && Bounded(Initial(n, values, mutexes), p)
  {
  }

  /** Priority inheritance in every state that such a run reaches from os_init. */
  lemma PriorityInheritanceFromInit(n: nat, values: seq<nat>, mutexes: nat, ops: seq<Op>, p: nat)
    requires n <= VAL_MAX && p >= 1
    requires IsRun(Initial(n, values, mutexes), ops) && Disciplined(Initial(n, values, mutexes), ops, p)
    ensures var r := Exec(Initial(n, values, mutexes), ops); PriorityInv(r) && Bounded(r, p)
  {
    InitialSound(n, values, mutexes);
    InitialInherits(n, values, mutexes, p);
    PriorityInheritance(Initial(n, values, mutexes), ops, p);
  }

  // ---------- where the discipline is needed ----------

  /**
   An unlock resets the caller to its creation priority even if it holds another mutex: that mutex
   keeps its inheritance exactly when none of its waiters is more urgent than that.
   */
  lemma NestedUnlock(k: State, m: nat, l: nat)
    requires WellFormed(k) && Enabled(k, Unlock(m)) && l < |k.mtxs| && l != m
    requires Holds(k, k.run.task, m) && Holds(k, k.run.task, l) && Inherits(k, l)
    ensures Inherits(Next(k, Unlock(m)), l) <==>
            forall i :: 0 <= i < |k.mtxs[l].wq| ==> Fixed(k, k.mtxs[l].wq[i]) <= Base(k, k.run.task)
  {
    NestedRelease(k, m, l);
  }

  lemma NestedRelease(k: State, m: nat, l: nat)
    requires WellFormed(k) && Runnable(k) && m < |k.mtxs| && l < |k.mtxs| && l != m
    requires Holds(k, k.run.task, m) && Holds(k, k.run.task, l) && Inherits(k, l)
    ensures Inherits(DoUnlock(k, k.run.task, m), l) <==>
            forall i :: 0 <= i < |k.mtxs[l].wq| ==> Fixed(k, k.mtxs[l].wq[i]) <= Base(k, k.run.task)
  {
    var k', t, q := DoUnlock(k, k.run.task, m), k.run.task, k.mtxs[l].wq;
    RunnableIsOnlyThere(k, t);
    NotWaiting(k, t, l);
    if k.mtxs[m].wq != [] {
      WaiterAlive(k, m);
      WaiterNotRunning(k, m);
    }
    assert Fixed(k', t) == Base(k, t) == Base(k', t);
    forall i | 0 <= i < |q| ensures Fixed(k', q[i]) == Fixed(k, q[i]) {
      assert q[i] in q;
    }
  }

  /**
   A holder that itself waits for another mutex passes no boost on: the mutex it waits for keeps
   its inheritance exactly when the new waiter is no more urgent than the holder of that mutex.
   */
  lemma BoostStopsAtWaiter(k: State, m: nat, l: nat, i: nat)
    requires WellFormed(k) && Enabled(k, Lock(m)) && m < |k.mtxs| && l < |k.mtxs| && l != m
    requires k.mtxs[m].holder.Some? && k.mtxs[l].holder.Some? && Inherits(k, l)
    requires i < |k.mtxs[l].wq| && k.mtxs[l].wq[i] == k.mtxs[m].holder.value
    ensures Inherits(Next(k, Lock(m)), l) <==> Fixed(k, k.run.task) <= Fixed(k, k.mtxs[l].holder.value)
  {
    var k', t, h, q := Next(k, Lock(m)), k.run.task, k.mtxs[m].holder.value, k.mtxs[l].wq;
    NotWaiting(k, t, l);
    MtxUpdate(k, l, k.mtxs[l], h);
    TimesIn(q, h);
    assert h in q;
    assert Places(k, h) <= if h < k.n then 1 else 0;
    WaitShape(k, m);
    assert Fixed(k, q[i]) <= Fixed(k, k.mtxs[l].holder.value);
    if Fixed(k, t) > Fixed(k, k.mtxs[l].holder.value) {
      assert Fixed(k', q[i]) == Fixed(k, t);
    } else {
      forall j | 0 <= j < |q| ensures Fixed(k', q[j]) <= Fixed(k', k.mtxs[l].holder.value) {
        assert Fixed(k, q[j]) <= Fixed(k, k.mtxs[l].holder.value);
      }
    }
  }
}
