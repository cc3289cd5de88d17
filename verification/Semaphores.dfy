/** Counting semaphores (semaphore.c): a signed count and a FIFO of waiting tasks. */
module Semaphores {

  /** A non-negative count is free resources, a negative one the number of waiters. */
  datatype Sem = Sem(val: int, wq: seq<nat>)

  // the count is an int16_t
  const VAL_MAX := 0x7fff

  function Wrap16(v: int): int {
    (v + 0x8000) % 0x1_0000 - 0x8000
  }

  /** queue_wait_push: a full queue refuses, and the callers ignore the refusal. */
  function Enqueue(wq: seq<nat>, t: nat, cap: nat): seq<nat> {
    if |wq| < cap then wq + [t] else wq
  }

  datatype Option<T> = None | Some(value: T)

  /** sem_init refuses more resources than there are threads. */
  function Init(value: nat, cap: nat): Option<Sem> {
    if value > cap then None else Some(Sem(value, []))
  }

  datatype Waited = Waited(sem: Sem, blocks: bool)

  /** sem_wait called by task t. */
  function Wait(s: Sem, t: nat, cap: nat): Waited {
    var v := Wrap16(s.val - 1);
    if v < 0 then Waited(Sem(v, Enqueue(s.wq, t, cap)), true) else Waited(Sem(v, s.wq), false)
  }

  datatype Tried = Tried(sem: Sem, ok: bool)

  function TryWait(s: Sem): Tried {
    if s.val > 0 then Tried(Sem(s.val - 1, s.wq), true) else Tried(s, false)
  }

  /** Whom a post wakes: Garbage if it looks for a waiter in an empty queue. */
  datatype Release = Nobody | Waiter(task: nat) | Garbage

  datatype Posted = Posted(sem: Sem, release: Release)

  function Post(s: Sem): Posted {
    var v := Wrap16(s.val + 1);
    if v > 0 then Posted(Sem(v, s.wq), Nobody)
    else if s.wq == [] then Posted(Sem(v, []), Garbage)
    else Posted(Sem(v, s.wq[1..]), Waiter(s.wq[0]))
  }

  // ---------- the invariant ----------

  /** The queue holds exactly as many tasks as the count is below zero. */
  predicate Agrees(s: Sem) {
    -VAL_MAX <= s.val <= VAL_MAX && |s.wq| == if s.val < 0 then -s.val else 0
  }

  /** A semaphore is accepted exactly up to one resource for each thread; it starts in step, with nobody queued. */
  lemma InitAgrees(value: nat, cap: nat)
    requires cap <= VAL_MAX
    ensures Init(value, cap).Some? <==> value <= cap
    ensures value <= cap ==> var s := Init(value, cap).value; Agrees(s) && s.val == value && s.wq == []
  {
  }

  lemma WaitAgrees(s: Sem, t: nat, cap: nat)
    requires Agrees(s) && |s.wq| < cap <= VAL_MAX
    ensures var r := Wait(s, t, cap);
            && Agrees(r.sem) && r.sem.val == s.val - 1
            && (r.blocks <==> s.val <= 0)
            && r.sem.wq == if r.blocks then s.wq + [t] else s.wq
  {
  }

  /** A post keeps count and queue in step exactly when the count is not at the top of its range. */
  lemma PostAgrees(s: Sem)
    requires Agrees(s)
    ensures Agrees(Post(s).sem) <==> s.val < VAL_MAX
    ensures Post(s).release == Garbage <==> s.val == VAL_MAX
    ensures s.val < VAL_MAX ==> Post(s).sem.val == s.val + 1 && (s.wq != [] <==> Post(s).release.Waiter?)
  {
  }

  // ---------- conservation and FIFO order over every run ----------

  datatype Event = WaitBy(task: nat) | Try | PostOne

  /** A semaphore with its history: posts, grants, and the tasks that blocked and were released. */
  datatype Log = Log(sem: Sem, posts: nat, grants: nat, blocked: seq<nat>, released: seq<nat>)

  function Record(l: Log, e: Event, cap: nat): Log {
    match e
    case WaitBy(t) =>
      var r := Wait(l.sem, t, cap);
      if r.blocks then l.(sem := r.sem, blocked := l.blocked + [t]) else l.(sem := r.sem, grants := l.grants + 1)
    case Try =>
      var r := TryWait(l.sem);
      l.(sem := r.sem, grants := l.grants + if r.ok then 1 else 0)
    case PostOne =>
      var r := Post(l.sem);
      if r.release.Waiter? then
        l.(sem := r.sem, posts := l.posts + 1, grants := l.grants + 1, released := l.released + [r.release.task])
      else
        l.(sem := r.sem, posts := l.posts + 1)
  }

  function RecordAll(l: Log, es: seq<Event>, cap: nat): Log
    decreases |es|
  {
    if es == [] then l else RecordAll(Record(l, es[0], cap), es[1..], cap)
  }

  /** No post at the top of the range and no wait on a full queue. */
  ghost predicate InBounds(l: Log, es: seq<Event>, cap: nat)
    decreases |es|
  {
    es == [] || (&& (es[0] == PostOne ==> l.sem.val < VAL_MAX)
                 && (es[0].WaitBy? ==> |l.sem.wq| < cap)
                 && InBounds(Record(l, es[0], cap), es[1..], cap))
  }

  /** Every resource is free or granted, and waiters leave in the order they came. */
  ghost predicate Conserves(l: Log, initial: nat) {
    && Agrees(l.sem)
    && initial + l.posts - l.grants == (if l.sem.val > 0 then l.sem.val else 0)
    && l.blocked == l.released + l.sem.wq
  }

  lemma RecordConserves(l: Log, e: Event, cap: nat, initial: nat)
    requires Conserves(l, initial) && InBounds(l, [e], cap) && cap <= VAL_MAX
    ensures Conserves(Record(l, e, cap), initial)
  {
    match e
    case WaitBy(t) => WaitAgrees(l.sem, t, cap);
    case Try =>
    case PostOne =>
      PostAgrees(l.sem);
      if l.sem.wq != [] {
        assert l.sem.wq == [l.sem.wq[0]] + l.sem.wq[1..];
      }
  }

  /** Over every run: initial value + posts - grants = max(val, 0), and FIFO order. */
  lemma {:induction false} SemaphoreConservation(l: Log, es: seq<Event>, cap: nat, initial: nat)
    requires Conserves(l, initial) && InBounds(l, es, cap) && cap <= VAL_MAX
    ensures Conserves(RecordAll(l, es, cap), initial)
    decreases |es|
  {
    if es != [] {
      assert InBounds(l, [es[0]], cap);
      RecordConserves(l, es[0], cap, initial);
      SemaphoreConservation(Record(l, es[0], cap), es[1..], cap, initial);
    }
  }

  /** The history of a semaphore begins with sem_init. */
  function NewLog(value: nat): Log {
    Log(Sem(value, []), 0, 0, [], [])
  }

  /** Conservation over every run of one semaphore from sem_init on. */
  lemma ConservationFromInit(value: nat, es: seq<Event>, cap: nat)
    requires Init(value, cap).Some? && cap <= VAL_MAX && InBounds(NewLog(value), es, cap)
    ensures NewLog(value).sem == Init(value, cap).value && Conserves(RecordAll(NewLog(value), es, cap), value)
  {
    SemaphoreConservation(NewLog(value), es, cap, value);
  }

  function Posts(es: seq<Event>): nat {
    if es == [] then 0 else (if es[0] == PostOne then 1 else 0) + Posts(es[1..])
  }

  /**
   While a run holds p posts, no more than there are waiters, it releases exactly the first p
   waiters, in order: the waiter at position k is released by the (k+1)-th post.
   */
  lemma {:induction false} FifoRelease(l: Log, es: seq<Event>, cap: nat, initial: nat)
    requires Conserves(l, initial) && InBounds(l, es, cap) && cap <= VAL_MAX
    requires Posts(es) <= |l.sem.wq|
    ensures var r := RecordAll(l, es, cap);
            r.released == l.released + l.sem.wq[..Posts(es)] && l.sem.wq[Posts(es)..] <= r.sem.wq
    decreases |es|
  {
    if es != [] {
      var m := Record(l, es[0], cap);
      assert InBounds(l, [es[0]], cap);
      RecordConserves(l, es[0], cap, initial);
      if es[0].WaitBy? {
        WaitAgrees(l.sem, es[0].task, cap);
      } else if es[0] == PostOne {
        PostAgrees(l.sem);
      }
      var p, q := Posts(es), Posts(es[1..]);
      FifoRelease(m, es[1..], cap, initial);
      if es[0] == PostOne {
        assert l.sem.wq[..p] == [l.sem.wq[0]] + l.sem.wq[1..][..q];
        assert l.sem.wq[p..] == l.sem.wq[1..][q..];
      } else {
        assert m.sem.wq[..q] == l.sem.wq[..p];
        assert l.sem.wq[p..] <= m.sem.wq[q..];
      }
    }
  }
}
