/**
 The reusable barrier of barrier.c: val threads that call barrier_wait over and over, interleaved
 in any order. A step is one call of a semaphore operation or one update of the shared count.
 */
module Barrier {
  import opened Sequences
  import opened SleepHeap
  import opened Semaphores

  /** Where a thread is in barrier_wait. The queue states are inside a sem_wait that blocked. */
  datatype Pc =
    | Outside                 // before sem_wait(mutex) of phase 1
    | MutexQueue1
    | Arriving                // before ++count
    | Opening1(posted: nat)   // in the loop that opens turnstile1
    | Leaving1                // before sem_post(mutex)
    | AtGate1                 // before sem_wait(turnstile1)
    | GateQueue1
    | Passed1                 // before sem_wait(mutex) of phase 2
    | MutexQueue2
    | Departing               // before --count
    | Opening2(posted: nat)   // in the loop that opens turnstile2
    | Leaving2                // before sem_post(mutex)
    | AtGate2                 // before sem_wait(turnstile2)
    | GateQueue2

  /** calls[t] counts the completed calls of thread t; cap is NUM_THREADS. */
  datatype State = State(
    val: nat,
    cap: nat,
    count: nat,
    mutex: Sem,
    turnstile1: Sem,
    turnstile2: Sem,
    pc: seq<Pc>,
    calls: seq<nat>)

  /** barrier_init, which refuses more threads than there are tasks. */
  function InitBarrier(val: nat, cap: nat): Option<State> {
    if val > cap || cap < 1 then None else
    Some(State(val, cap, 0, Sem(1, []), Sem(0, []), Sem(0, []), seq(val, _ => Outside), seq(val, _ => 0)))
  }

  /** A barrier is accepted exactly up to one participant for each thread, and starts with all of them outside. */
  lemma InitAccepts(val: nat, cap: nat)
    requires cap >= 1
    ensures InitBarrier(val, cap).Some? <==> val <= cap
    ensures val <= cap ==>
              var b := InitBarrier(val, cap).value;
              b.val == val && b.cap == cap && b.pc == seq(val, _ => Outside) && b.calls == seq(val, _ => 0)
  {
  }

  predicate Queueing(p: Pc) {
    p.MutexQueue1? || p.GateQueue1? || p.MutexQueue2? || p.GateQueue2?
  }

  /** A thread can step unless it waits in a semaphore queue. */
  predicate CanStep(b: State, t: nat) {
    t < |b.pc| == |b.calls| && !Queueing(b.pc[t])
  }

  function SetPc(b: State, t: nat, p: Pc): State
    requires t < |b.pc|
  {
    b.(pc := b.pc[t := p])
  }

  /** barrier_wait returns. */
  function Return(b: State, t: nat): State
    requires t < |b.pc| == |b.calls|
  {
    b.(pc := b.pc[t := Outside], calls := b.calls[t := b.calls[t] + 1])
  }

  /** A thread taken off a semaphore queue goes on behind its sem_wait. */
  function Resume(b: State, r: Release): State
    requires |b.pc| == |b.calls|
  {
    if !r.Waiter? || r.task >= |b.pc| then b else
    match b.pc[r.task]
    case MutexQueue1 => SetPc(b, r.task, Arriving)
    case GateQueue1 => SetPc(b, r.task, Passed1)
    case MutexQueue2 => SetPc(b, r.task, Departing)
    case GateQueue2 => Return(b, r.task)
    case _ => b
  }

  /** The next step of thread t. */
  function Step(b: State, t: nat): State
    requires CanStep(b, t)
  {
    match b.pc[t]
    case Outside =>
      var w := Wait(b.mutex, t, b.cap);
      SetPc(b.(mutex := w.sem), t, if w.blocks then MutexQueue1 else Arriving)
    case Arriving =>
      SetPc(b.(count := b.count + 1), t, if b.count + 1 == b.val then Opening1(0) else Leaving1)
    case Opening1(i) =>
      var p := Post(b.turnstile1);
      Resume(SetPc(b.(turnstile1 := p.sem), t, if i + 1 < b.val then Opening1(i + 1) else Leaving1), p.release)
    case Leaving1 =>
      var p := Post(b.mutex);
      Resume(SetPc(b.(mutex := p.sem), t, AtGate1), p.release)
    case AtGate1 =>
      var w := Wait(b.turnstile1, t, b.cap);
      SetPc(b.(turnstile1 := w.sem), t, if w.blocks then GateQueue1 else Passed1)
    case Passed1 =>
      var w := Wait(b.mutex, t, b.cap);
      SetPc(b.(mutex := w.sem), t, if w.blocks then MutexQueue2 else Departing)
    case Departing =>
      var count := if b.count == 0 then WORD - 1 else b.count - 1;
      SetPc(b.(count := count), t, if count == 0 then Opening2(0) else Leaving2)
    case Opening2(i) =>
      var p := Post(b.turnstile2);
      Resume(SetPc(b.(turnstile2 := p.sem), t, if i + 1 < b.val then Opening2(i + 1) else Leaving2), p.release)
    case Leaving2 =>
      var p := Post(b.mutex);
      Resume(SetPc(b.(mutex := p.sem), t, AtGate2), p.release)
    case AtGate2 =>
      var w := Wait(b.turnstile2, t, b.cap);
      if w.blocks then SetPc(b.(turnstile2 := w.sem), t, GateQueue2) else Return(b.(turnstile2 := w.sem), t)
    case _ => b
  }

  /** A schedule names the thread of each step. */
  ghost predicate IsSchedule(b: State, ts: seq<nat>)
    decreases |ts|
  {
    ts == [] || (CanStep(b, ts[0]) && IsSchedule(Step(b, ts[0]), ts[1..]))
  }

  function Run(b: State, ts: seq<nat>): State
    requires IsSchedule(b, ts)
    decreases |ts|
  {
    if ts == [] then b else Run(Step(b, ts[0]), ts[1..])
  }

  // ---------- counting threads ----------

  /** Classes of threads, and the posts that a thread still has to make. */
  datatype Class =
    | InMutex | OnMutex
    | Before | Arrived | Inside | Gone
    | OnGate1 | OnGate2 | Ready1 | Ready2
    | Pending1 | Pending2

  function Weight(c: Class, val: nat, p: Pc): nat {
    match c
    case InMutex =>
      if p.Arriving? || p.Opening1? || p.Leaving1? || p.Departing? || p.Opening2? || p.Leaving2? then 1 else 0
    case OnMutex => if p.MutexQueue1? || p.MutexQueue2? then 1 else 0
    // not yet counted in the current call
    case Before => if p.Outside? || p.MutexQueue1? || p.Arriving? then 1 else 0
    // counted, and not past turnstile1
    case Arrived => if p.Opening1? || p.Leaving1? || p.AtGate1? || p.GateQueue1? then 1 else 0
    // past turnstile1, and still counted
    case Inside => if p.Passed1? || p.MutexQueue2? || p.Departing? then 1 else 0
    // counted down, and not past turnstile2
    case Gone => if p.Opening2? || p.Leaving2? || p.AtGate2? || p.GateQueue2? then 1 else 0
    case OnGate1 => if p.GateQueue1? then 1 else 0
    case OnGate2 => if p.GateQueue2? then 1 else 0
    case Ready1 => if p.Opening1? || p.Leaving1? || p.AtGate1? then 1 else 0
    case Ready2 => if p.Opening2? || p.Leaving2? || p.AtGate2? then 1 else 0
    case Pending1 => if p.Opening1? && p.posted < val then val - p.posted else 0
    case Pending2 => if p.Opening2? && p.posted < val then val - p.posted else 0
  }

  function Total(c: Class, val: nat, pc: seq<Pc>): nat {
    if pc == [] then 0 else Weight(c, val, pc[0]) + Total(c, val, pc[1..])
  }

  lemma {:induction false} TotalUpdate(c: Class, val: nat, pc: seq<Pc>, t: nat, p: Pc)
    requires t < |pc|
    ensures Total(c, val, pc[t := p]) + Weight(c, val, pc[t]) == Total(c, val, pc) + Weight(c, val, p)
    ensures Weight(c, val, pc[t]) <= Total(c, val, pc)
    decreases |pc|
  {
    if t > 0 {
      assert pc[t := p][1..] == pc[1..][t - 1 := p];
      TotalUpdate(c, val, pc[1..], t - 1, p);
    }
  }

  lemma PartitionOne(val: nat, p: Pc)
    ensures Weight(Before, val, p) + Weight(Arrived, val, p) + Weight(Inside, val, p) + Weight(Gone, val, p) == 1
    ensures Weight(Arrived, val, p) == Weight(Ready1, val, p) + Weight(OnGate1, val, p)
    ensures Weight(Gone, val, p) == Weight(Ready2, val, p) + Weight(OnGate2, val, p)
    ensures Weight(Arrived, val, p) == 0 ==> Weight(Pending1, val, p) == 0
    ensures Weight(Gone, val, p) == 0 ==> Weight(Pending2, val, p) == 0
  {
  }

  /** Every thread is before, arrived, inside or gone; those at a gate wait on it or are ready to. */
  lemma {:induction false} Partition(val: nat, pc: seq<Pc>)
    ensures Total(Before, val, pc) + Total(Arrived, val, pc) + Total(Inside, val, pc) + Total(Gone, val, pc) == |pc|
    ensures Total(Arrived, val, pc) == Total(Ready1, val, pc) + Total(OnGate1, val, pc)
    ensures Total(Gone, val, pc) == Total(Ready2, val, pc) + Total(OnGate2, val, pc)
    ensures Total(Arrived, val, pc) == 0 ==> Total(Pending1, val, pc) == 0
    ensures Total(Gone, val, pc) == 0 ==> Total(Pending2, val, pc) == 0
    decreases |pc|
  {
    if pc != [] {
      PartitionOne(val, pc[0]);
      Partition(val, pc[1..]);
    }
  }

  /** A queue class that misses one thread is smaller than the number of threads. */
  lemma {:induction false} QueueRoom(on: Class, val: nat, pc: seq<Pc>, t: nat)
    requires on == OnMutex || on == OnGate1 || on == OnGate2
    ensures Total(on, val, pc) <= |pc|
    ensures t < |pc| && Weight(on, val, pc[t]) == 0 ==> Total(on, val, pc) < |pc|
    decreases |pc|
  {
    if pc != [] {
      QueueRoom(on, val, pc[1..], if t > 0 then t - 1 else 0);
      if t == 0 {
        QueueRoom(on, val, pc[1..], |pc|);
      }
    }
  }

  /** The sizes of all classes. */
  datatype Tally = Tally(
    inMutex: int, onMutex: int,
    before: int, arrived: int, inside: int, gone: int,
    onGate1: int, onGate2: int, ready1: int, ready2: int,
    pending1: int, pending2: int)

  function TallyOf(val: nat, pc: seq<Pc>): Tally {
    Tally(Total(InMutex, val, pc), Total(OnMutex, val, pc),
          Total(Before, val, pc), Total(Arrived, val, pc), Total(Inside, val, pc), Total(Gone, val, pc),
          Total(OnGate1, val, pc), Total(OnGate2, val, pc), Total(Ready1, val, pc), Total(Ready2, val, pc),
          Total(Pending1, val, pc), Total(Pending2, val, pc))
  }

  // ---------- the invariant ----------

  /** A semaphore queue holds distinct threads, each in the queue state of that semaphore. */
  ghost predicate QueueOk(b: State, s: Sem, on: Class) {
    && Agrees(s) && Distinct(s.wq) && |s.wq| == Total(on, b.val, b.pc)
    && (forall i :: 0 <= i < |s.wq| ==> s.wq[i] < |b.pc| && Weight(on, b.val, b.pc[s.wq[i]]) == 1)
  }

  ghost predicate Queues(b: State) {
    QueueOk(b, b.mutex, OnMutex) && QueueOk(b, b.turnstile1, OnGate1) && QueueOk(b, b.turnstile2, OnGate2)
  }

  /** A thread in a posting loop has a post left to make. */
  ghost predicate Posting(b: State) {
    forall t :: 0 <= t < |b.pc| ==> (b.pc[t].Opening1? || b.pc[t].Opening2? ==> b.pc[t].posted < b.val)
  }

  ghost predicate Sizes(b: State) {
    1 <= b.val <= b.cap <= VAL_MAX && |b.pc| == |b.calls| == b.val
  }

  /** At most one thread is in the mutex, and the count is that of the threads it has to count. */
  ghost predicate Counts(b: State, y: Tally) {
    && b.mutex.val + y.inMutex + y.onMutex == 1
    && b.count == y.arrived + y.inside
  }

  ghost predicate Common(b: State) {
    Sizes(b) && Queues(b) && Posting(b) && Counts(b, TallyOf(b.val, b.pc))
  }

  /**
   Filling: threads arrive and stay behind turnstile1, while stragglers of the generation before
   leave through turnstile2, which has or will get exactly one token for each of them.
   */
  ghost predicate FillTokens(b: State, y: Tally) {
    && b.count < b.val && y.inside == 0 && y.pending1 == 0
    && b.turnstile1.val + y.onGate1 == 0
    && b.turnstile2.val + y.pending2 == y.ready2
  }

  /**
   Draining: all threads have arrived, and turnstile1 has or will get exactly one token for each that
   is not past it; those that are gone wait behind turnstile2.
   */
  ghost predicate DrainTokens(b: State, y: Tally) {
    && b.count > 0 && y.before == 0 && y.pending2 == 0
    && b.turnstile1.val + y.pending1 == y.ready1
    && b.turnstile2.val + y.onGate2 == 0
  }

  /** All threads have completed g calls, but the stragglers one less. */
  ghost predicate FillCalls(b: State, g: nat) {
    forall t :: 0 <= t < |b.pc| ==> t < |b.calls| && b.calls[t] + Weight(Gone, b.val, b.pc[t]) == g
  }

  ghost predicate DrainCalls(b: State, g: nat) {
    forall t :: 0 <= t < |b.calls| ==> b.calls[t] == g
  }

  ghost predicate Filling(b: State, g: nat) {
    Common(b) && FillTokens(b, TallyOf(b.val, b.pc)) && FillCalls(b, g)
  }

  ghost predicate Draining(b: State, g: nat) {
    Common(b) && DrainTokens(b, TallyOf(b.val, b.pc)) && DrainCalls(b, g)
  }

  ghost predicate Inv(b: State, g: nat) {
    Filling(b, g) || Draining(b, g)
  }

  // ---------- what a step does to one queue ----------

  /** A move between two states outside a queue leaves the queue as it is. */
  lemma KeepQueue(b: State, b': State, s: Sem, on: Class, t: nat, p: Pc)
    requires QueueOk(b, s, on) && t < |b.pc| && b'.pc == b.pc[t := p] && b'.val == b.val
    requires Weight(on, b.val, b.pc[t]) == 0 == Weight(on, b.val, p)
    ensures QueueOk(b', s, on)
  {
    TotalUpdate(on, b.val, b.pc, t, p);
  }

  /** sem_wait by a thread that moves into the queue exactly when it blocks. */
  lemma JoinQueue(b: State, b': State, s: Sem, on: Class, t: nat, p: Pc)
    requires QueueOk(b, s, on) && t < |b.pc| <= b.cap <= VAL_MAX && b'.pc == b.pc[t := p] && b'.val == b.val
    requires on == OnMutex || on == OnGate1 || on == OnGate2
    requires Weight(on, b.val, b.pc[t]) == 0
    requires Weight(on, b.val, p) == if Wait(s, t, b.cap).blocks then 1 else 0
    ensures var r := Wait(s, t, b.cap);
            QueueOk(b', r.sem, on) && r.sem.val == s.val - 1 && (r.blocks <==> s.val <= 0)
  {
    QueueRoom(on, b.val, b.pc, t);
    WaitAgrees(s, t, b.cap);
    TotalUpdate(on, b.val, b.pc, t, p);
    var q := Wait(s, t, b.cap).sem.wq;
    forall i | 0 <= i < |q| ensures q[i] < |b'.pc| && Weight(on, b'.val, b'.pc[q[i]]) == 1 {
      if i < |s.wq| {
        assert q[i] == s.wq[i] && s.wq[i] != t;
      }
    }
  }

  /** sem_post by thread t, which moves to p, and the move of the released thread, if any, to q. */
  lemma LeaveQueue(b: State, b1: State, b': State, s: Sem, on: Class, t: nat, p: Pc, q: Pc)
    requires QueueOk(b, s, on) && t < |b.pc| && b1.pc == b.pc[t := p] && b1.val == b.val == b'.val && s.val < VAL_MAX
    requires Weight(on, b.val, b.pc[t]) == 0 == Weight(on, b.val, p) && Weight(on, b.val, q) == 0
    requires b'.pc == if s.wq == [] then b1.pc else b1.pc[s.wq[0] := q]
    ensures QueueOk(b', Post(s).sem, on) && Post(s).sem.val == s.val + 1
    ensures s.wq != [] ==> Post(s).release == Waiter(s.wq[0]) && s.wq[0] != t
    ensures s.wq == [] ==> Post(s).release == Nobody
  {
    PostAgrees(s);
    KeepQueue(b, b1, s, on, t, p);
    if s.wq != [] {
      var w := s.wq[0];
      TotalUpdate(on, b.val, b1.pc, w, q);
      var r := s.wq[1..];
      forall i | 0 <= i < |r| ensures r[i] < |b'.pc| && Weight(on, b'.val, b'.pc[r[i]]) == 1 {
        assert r[i] == s.wq[i + 1] && s.wq[i + 1] != w;
      }
    }
  }
}
