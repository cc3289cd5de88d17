/**
 Task conservation: every slot of the pool is at every moment in exactly one place, once: the
 free list, the run queue, the sleep heap, one semaphore queue or one mutex queue, and its
 state says which.
 */
module Conservation {
  import opened Sequences
  import opened Cursors
  import opened SleepTick
  import opened Semaphores
  import opened Kernel
  import Pool

  // ---------- places ----------

  function SemQueues(sems: seq<Sem>): (r: seq<seq<nat>>)
    ensures |r| == |sems|
  {
    seq(|sems|, i requires 0 <= i < |sems| => sems[i].wq)
  }

  function MtxQueues(mtxs: seq<Mutex>): (r: seq<seq<nat>>)
    ensures |r| == |mtxs|
  {
    seq(|mtxs|, i requires 0 <= i < |mtxs| => mtxs[i].wq)
  }

  /** How often t occurs in a sequence, and in a sequence of queues. */
  function Times(s: seq<nat>, t: nat): nat { multiset(s)[t] }

  function Queued(qs: seq<seq<nat>>, t: nat): nat {
    if qs == [] then 0 else Times(qs[0], t) + Queued(qs[1..], t)
  }

  function OnSems(k: State, t: nat): nat { Queued(SemQueues(k.sems), t) }

  function OnMtxs(k: State, t: nat): nat { Queued(MtxQueues(k.mtxs), t) }

  /** In how many places slot t is. */
  function Places(k: State, t: nat): nat {
    Times(k.free, t) + Times(k.runq, t) + Times(Tasks(k.sleep), t) + OnSems(k, t) + OnMtxs(k, t)
  }

  ghost predicate Conserved(k: State) {
    forall t: nat :: Places(k, t) == if t < k.n then 1 else 0
  }

  /** The state of a task is the kind of place it is in. */
  ghost predicate Fits(k: State, t: nat) {
    && (Times(k.runq, t) > 0 ==> TaskOf(k, t).state == ACTIVE)
    && (Times(Tasks(k.sleep), t) > 0 ==> TaskOf(k, t).state == SLEEPING)
    && (OnSems(k, t) > 0 || OnMtxs(k, t) > 0 ==> TaskOf(k, t).state == BLOCKING)
  }

  ghost predicate StatesFit(k: State) {
    forall t: nat :: t < k.n ==> Fits(k, t)
  }

  ghost predicate Shape(k: State) {
    && |k.tasks| == k.n <= VAL_MAX
    && k.n <= |k.sems|
    && k.active == |k.runq|
    && (k.run.Thread? ==> k.run.task < k.n)
    && (forall m :: 0 <= m < |k.mtxs| && k.mtxs[m].holder.Some? ==> k.mtxs[m].holder.value < k.n)
  }

  ghost predicate Sound(k: State) {
    Shape(k) && Conserved(k) && StatesFit(k)
  }

  /** No slot is in two places, and nothing but a slot is in any. */
  ghost predicate Single(k: State) {
    forall t: nat :: Places(k, t) <= if t < k.n then 1 else 0
  }

  /** What every state has, also one in which tasks were lost. */
  ghost predicate WellFormed(k: State) {
    Shape(k) && Single(k)
  }

  lemma SoundWellFormed(k: State)
    requires Conserved(k)
    ensures Single(k)
  {
    forall t: nat ensures Places(k, t) <= if t < k.n then 1 else 0 {
      assert Places(k, t) == if t < k.n then 1 else 0;
    }
  }

  // ---------- counting ----------

  lemma {:induction false} QueuedUpdate(qs: seq<seq<nat>>, i: nat, q: seq<nat>, t: nat)
    requires i < |qs|
    ensures Queued(qs[i := q], t) + Times(qs[i], t) == Queued(qs, t) + Times(q, t)
    ensures Times(qs[i], t) <= Queued(qs, t)
    decreases |qs|
  {
    if i > 0 {
      assert qs[i := q][1..] == qs[1..][i - 1 := q];
      QueuedUpdate(qs[1..], i - 1, q, t);
    }
  }

  lemma SemUpdate(k: State, s: nat, x: Sem, t: nat)
    requires s < |k.sems|
    ensures Queued(SemQueues(k.sems[s := x]), t) + Times(k.sems[s].wq, t) == OnSems(k, t) + Times(x.wq, t)
    ensures Times(k.sems[s].wq, t) <= OnSems(k, t)
  {
    assert SemQueues(k.sems[s := x]) == SemQueues(k.sems)[s := x.wq];
    QueuedUpdate(SemQueues(k.sems), s, x.wq, t);
  }

  lemma MtxUpdate(k: State, m: nat, x: Mutex, t: nat)
    requires m < |k.mtxs|
    ensures Queued(MtxQueues(k.mtxs[m := x]), t) + Times(k.mtxs[m].wq, t) == OnMtxs(k, t) + Times(x.wq, t)
    ensures Times(k.mtxs[m].wq, t) <= OnMtxs(k, t)
  {
    assert MtxQueues(k.mtxs[m := x]) == MtxQueues(k.mtxs)[m := x.wq];
    QueuedUpdate(MtxQueues(k.mtxs), m, x.wq, t);
  }

  lemma TimesAppend(s: seq<nat>, x: nat, t: nat)
    ensures Times(s + [x], t) == Times(s, t) + if x == t then 1 else 0
  {
  }

  lemma TimesPrepend(s: seq<nat>, x: nat, t: nat)
    ensures Times([x] + s, t) == Times(s, t) + if x == t then 1 else 0
  {
  }

  lemma TimesTail(s: seq<nat>, t: nat)
    requires s != []
    ensures Times(s, t) == Times(s[1..], t) + if s[0] == t then 1 else 0
  {
    MultisetOfHead(s);
  }

  lemma TimesWithout(s: seq<nat>, x: nat, t: nat)
    requires x in s
    ensures Times(s, t) == Times(Without(s, x), t) + if x == t then 1 else 0
  {
    MultisetOfSplit(s, IndexOf(s, x));
  }

  lemma TimesIn(s: seq<nat>, t: nat)
    ensures t in s <==> Times(s, t) > 0
  {
    assert t in s <==> t in multiset(s);
  }

  lemma {:induction false} SingleIsDistinct(s: seq<nat>)
    requires forall t :: Times(s, t) <= 1
    ensures Distinct(s)
    decreases |s|
  {
    if s != [] {
      forall t ensures Times(s[1..], t) <= 1 {
        TimesTail(s, t);
        assert Times(s, t) <= 1;
      }
      SingleIsDistinct(s[1..]);
      TimesTail(s, s[0]);
      TimesIn(s[1..], s[0]);
      forall i, j | 0 <= i < j < |s| ensures s[i] != s[j] {
        assert s[j] == s[1..][j - 1];
        if i > 0 {
          assert s[i] == s[1..][i - 1];
        }
      }
    }
  }

  /** A sequence of distinct numbers below n has at most n members. */
  lemma {:induction false} DistinctBound(s: seq<nat>, n: nat)
    requires Distinct(s) && forall i :: 0 <= i < |s| ==> s[i] < n
    ensures |s| <= n
    decreases n
  {
    if s != [] {
      assert s[0] < n;
      if i :| 0 <= i < |s| && s[i] == n - 1 {
        RemoveDistinct(s, i);
        DistinctBound(RemoveAt(s, i), n - 1);
      } else {
        DistinctBound(s, n - 1);
      }
    }
  }

  /** The run queue and all wait queues of a well-formed state are without repetition. */
  lemma QueuesDistinct(k: State)
    requires Single(k)
    ensures Distinct(k.runq) && Distinct(k.free) && Distinct(Tasks(k.sleep))
    ensures forall s :: 0 <= s < |k.sems| ==> Distinct(k.sems[s].wq)
    ensures forall m :: 0 <= m < |k.mtxs| ==> Distinct(k.mtxs[m].wq)
  {
    forall t ensures Times(k.runq, t) <= 1 && Times(k.free, t) <= 1 && Times(Tasks(k.sleep), t) <= 1 {
      assert Places(k, t) <= 1;
    }
    SingleIsDistinct(k.runq);
    SingleIsDistinct(k.free);
    SingleIsDistinct(Tasks(k.sleep));
    forall s | 0 <= s < |k.sems| ensures Distinct(k.sems[s].wq) {
      forall t ensures Times(k.sems[s].wq, t) <= 1 {
        SemUpdate(k, s, k.sems[s], t);
        assert Places(k, t) <= 1;
      }
      SingleIsDistinct(k.sems[s].wq);
    }
    forall m | 0 <= m < |k.mtxs| ensures Distinct(k.mtxs[m].wq) {
      forall t ensures Times(k.mtxs[m].wq, t) <= 1 {
        MtxUpdate(k, m, k.mtxs[m], t);
        assert Places(k, t) <= 1;
      }
      SingleIsDistinct(k.mtxs[m].wq);
    }
  }

  /** A queue in which no task occurs twice, and t not at all, is shorter than the number of tasks. */
  lemma RoomFor(q: seq<nat>, t: nat, n: nat)
    requires forall u: nat :: Times(q, u) + (if u == t then 1 else 0) <= (if u < n then 1 else 0)
    ensures |q| < n
  {
    var r := q + [t];
    forall u: nat ensures Times(r, u) <= 1 && (u in r ==> u < n) {
      TimesAppend(q, t, u);
      TimesIn(r, u);
      assert Times(q, u) + (if u == t then 1 else 0) <= (if u < n then 1 else 0);
    }
    SingleIsDistinct(r);
    forall i | 0 <= i < |r| ensures r[i] < n {
      assert r[i] in r;
    }
    DistinctBound(r, n);
  }

  /** While a task is runnable no wait queue is full, so the ignored result of a push is always success. */
  lemma QueueHasRoom(k: State, t: nat)
    requires Single(k) && t in k.runq
    ensures forall s :: 0 <= s < |k.sems| ==> |k.sems[s].wq| < k.n
    ensures forall m :: 0 <= m < |k.mtxs| ==> |k.mtxs[m].wq| < k.n
  {
    TimesIn(k.runq, t);
    forall s | 0 <= s < |k.sems| ensures |k.sems[s].wq| < k.n {
      forall u: nat ensures Times(k.sems[s].wq, u) + (if u == t then 1 else 0) <= (if u < k.n then 1 else 0) {
        SemUpdate(k, s, k.sems[s], u);
        assert Places(k, u) <= if u < k.n then 1 else 0;
      }
      RoomFor(k.sems[s].wq, t, k.n);
    }
    forall m | 0 <= m < |k.mtxs| ensures |k.mtxs[m].wq| < k.n {
      forall u: nat ensures Times(k.mtxs[m].wq, u) + (if u == t then 1 else 0) <= (if u < k.n then 1 else 0) {
        MtxUpdate(k, m, k.mtxs[m], u);
        assert Places(k, u) <= if u < k.n then 1 else 0;
      }
      RoomFor(k.mtxs[m].wq, t, k.n);
    }
  }

  // ---------- the state that os_init leaves ----------

  lemma {:induction false} DescendingTimes(n: nat, t: nat)
    ensures Times(Pool.Descending(n), t) == if t < n then 1 else 0
  {
    if n > 0 {
      var rest := Pool.Descending(n - 1);
      DescendingTimes(n - 1, t);
      TimesPrepend(rest, n - 1, t);
      assert Pool.Descending(n) == [n - 1] + rest;
    }
  }

  lemma {:induction false} NothingQueued(qs: seq<seq<nat>>, t: nat)
    requires forall i :: 0 <= i < |qs| ==> qs[i] == []
    ensures Queued(qs, t) == 0
    decreases |qs|
  {
    if qs != [] {
      assert Times([], t) == 0;
      NothingQueued(qs[1..], t);
    }
  }

  /** os_init puts every slot on the free list. */
  lemma InitialSound(n: nat, values: seq<nat>, mutexes: nat)
    requires n <= VAL_MAX
    ensures Sound(Initial(n, values, mutexes))
  {
    var k := Initial(n, values, mutexes);
    forall t: nat ensures Places(k, t) == (if t < n then 1 else 0) && (t < n ==> Fits(k, t)) {
      DescendingTimes(n, t);
      NothingQueued(SemQueues(k.sems), t);
      NothingQueued(MtxQueues(k.mtxs), t);
      assert Times(k.runq, t) == 0 && Tasks(k.sleep) == [];
    }
  }
}
