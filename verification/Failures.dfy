/** Runs from os_init in which the kernel does not keep a promise: one short run for each. */
module Failures {
  import opened Cursors
  import opened SleepHeap
  import opened SleepTick
  import opened Semaphores
  import opened Kernel
  import opened Conservation
  import opened Invariants
  import opened Inheritance
  import opened Slices
  import Pool

  // ---------- runs written out ----------

  ghost predicate Leads(k: State, op: Op, r: State) {
    Enabled(k, op) && Next(k, op) == r
  }

  /** The states that a run goes through. */
  ghost predicate Trace(states: seq<State>, ops: seq<Op>) {
    |states| == |ops| + 1 && forall i :: 0 <= i < |ops| ==> Leads(states[i], ops[i], states[i + 1])
  }

  lemma {:induction false} TraceRuns(states: seq<State>, ops: seq<Op>)
    requires Trace(states, ops)
    ensures IsRun(states[0], ops) && Exec(states[0], ops) == states[|ops|]
    decreases |ops|
  {
    if ops != [] {
      assert Leads(states[0], ops[0], states[1]);
      forall i | 0 <= i < |ops[1..]| ensures Leads(states[1..][i], ops[1..][i], states[1..][i + 1]) {
        assert Leads(states[i + 1], ops[i + 1], states[i + 2]);
      }
      TraceRuns(states[1..], ops[1..]);
    }
  }

  lemma {:induction false} RunsOn(k: State, a: seq<Op>, b: seq<Op>)
    requires IsRun(k, a) && IsRun(Exec(k, a), b)
    ensures IsRun(k, a + b) && Exec(k, a + b) == Exec(Exec(k, a), b)
    decreases |a|
  {
    hide Next, Enabled;
    if a == [] {
      assert a + b == b;
    } else {
      assert (a + b)[0] == a[0] && (a + b)[1..] == a[1..] + b;
      RunsOn(Next(k, a[0]), a[1..], b);
    }
  }

  const LOW := Task(1, 1, 1, ACTIVE)
  const HIGH := Task(2, 2, 2, ACTIVE)
  const NONE := Sem(0, [])

  /** Taking the first of two tasks off the run queue. */
  lemma FirstOfTwo(a: nat, b: nat)
    requires a != b
    ensures Without([a, b], a) == [b] && Backward([a, b], On(a)) == On(b)
  {
    assert IndexOf([a, b], a) == 0;
  }

  /** Taking the second of two or three off it. */
  lemma SecondOf(a: nat, b: nat, rest: seq<nat>)
    requires a != b
    ensures Without([a, b] + rest, b) == [a] + rest && Backward([a, b] + rest, On(b)) == On(a)
  {
    var s := [a, b] + rest;
    assert s[1..][0] == b;
    assert IndexOf(s, b) == 1;
  }

  /** A tick while nobody sleeps only schedules. */
  lemma TickAwake(k: State)
    requires k.sleep == []
    ensures DoTick(k) == Schedule(k)
  {
    assert HeapTick([]) == Drained([], []);
    assert k.(sleep := []) == k;
  }

  // ---------- the sleep heap is full ----------

  const FULL: seq<State> := [
    State(1, [LOW], [0], [], 0, Head, Boot, [], [NONE], []),
    State(1, [LOW], [], [0], 1, Head, Boot, [], [NONE], []),
    State(1, [LOW], [], [0], 1, On(0), Thread(0), [], [NONE], []),
    State(1, [Task(1, 1, 1, SLEEPING)], [], [], 0, On(0), Thread(0), [], [NONE], [])]

  /** With one thread the heap has no slot at all: the first sleep is the last. */
  lemma FullHeap()
    ensures var ops := [Create(1), Launch, Sleep(1)];
            IsRun(Initial(1, [], 0), ops) && Nowhere(Exec(Initial(1, [], 0), ops), 0)
  {
    var ops := [Create(1), Launch, Sleep(1)];
    assert Pool.Descending(1) == [0];
    assert Initial(1, [], 0) == FULL[0];
    assert Leads(FULL[0], ops[0], FULL[1]);
    assert Leads(FULL[1], ops[1], FULL[2]);
    assert Leads(FULL[2], ops[2], FULL[3]);
    TraceRuns(FULL, ops);
    assert SemQueues(FULL[3].sems) == [[]];
  }

  // ---------- a reused slot forgets a joiner ----------

  const JOINED := [NONE, NONE, Sem(-1, [1])]
  const BLOCKED := Task(1, 1, 1, BLOCKING)

  const REUSE: seq<State> := [
    State(3, [LOW, LOW, LOW], [2, 1, 0], [], 0, Head, Boot, [], [NONE, NONE, NONE], []),
    State(3, [LOW, LOW, LOW], [1, 0], [2], 1, Head, Boot, [], [NONE, NONE, NONE], []),
    State(3, [LOW, LOW, LOW], [0], [2, 1], 2, Head, Boot, [], [NONE, NONE, NONE], []),
    State(3, [LOW, LOW, LOW], [], [2, 1, 0], 3, Head, Boot, [], [NONE, NONE, NONE], []),
    State(3, [LOW, LOW, LOW], [], [2, 1, 0], 3, On(2), Thread(2), [], [NONE, NONE, NONE], []),
    State(3, [LOW, LOW, LOW], [], [2, 1, 0], 3, On(2), Thread(2), [], [NONE, NONE, NONE], []),
    State(3, [LOW, LOW, LOW], [], [2, 1, 0], 3, On(1), Thread(1), [], [NONE, NONE, NONE], []),
    State(3, [LOW, BLOCKED, LOW], [], [2, 0], 2, On(2), Thread(1), [], JOINED, []),
    State(3, [LOW, BLOCKED, LOW], [], [2, 0], 2, On(0), Thread(0), [], JOINED, []),
    State(3, [LOW, BLOCKED, LOW], [], [2, 0], 2, On(2), Thread(2), [], JOINED, []),
    State(3, [LOW, BLOCKED, LOW], [2], [0], 1, On(0), Thread(2), [], JOINED, []),
    State(3, [LOW, BLOCKED, LOW], [2], [0], 1, On(0), Thread(0), [], JOINED, []),
    State(3, [LOW, BLOCKED, LOW], [], [0, 2], 2, On(0), Thread(0), [], [NONE, NONE, NONE], [])]

  const REUSING := [Create(1), Create(1), Create(1), Launch, Exit, Tick, SemWait(2), Tick, Tick, Kill, Tick, Create(1)]

  lemma ReuseStarts()
    ensures Initial(3, [], 0) == REUSE[0]
    ensures Leads(REUSE[0], Create(1), REUSE[1]) && Leads(REUSE[1], Create(1), REUSE[2])
  {
    assert Pool.Descending(3) == [2, 1, 0];
  }

  lemma ReuseLaunches()
    ensures Leads(REUSE[2], Create(1), REUSE[3]) && Leads(REUSE[3], Launch, REUSE[4])
  {
  }

  lemma ReuseExits()
    ensures Leads(REUSE[4], Exit, REUSE[5])
  {
  }

  lemma ReuseSwitches()
    ensures Leads(REUSE[5], Tick, REUSE[6])
  {
    TickAwake(REUSE[5]);
  }

  lemma ReuseJoins()
    ensures Leads(REUSE[6], SemWait(2), REUSE[7])
  {
    assert [] + [1] == [1] && Without([2, 1, 0], 1) == [2, 0];
    assert Wait(NONE, 1, 3) == Waited(Sem(-1, [1]), true);
  }

  lemma ReuseReturns()
    ensures Leads(REUSE[7], Tick, REUSE[8]) && Leads(REUSE[8], Tick, REUSE[9])
  {
    TickAwake(REUSE[7]);
    TickAwake(REUSE[8]);
  }

  lemma ReuseKills()
    ensures Leads(REUSE[9], Kill, REUSE[10])
  {
    hide Without, Backward;
    FirstOfTwo(2, 0);
  }

  lemma ReuseMoves()
    ensures Leads(REUSE[10], Tick, REUSE[11])
  {
    TickAwake(REUSE[10]);
  }

  lemma ReuseForgets()
    ensures Leads(REUSE[11], Create(1), REUSE[12])
  {
  }

  lemma ReuseTrace()
    ensures Initial(3, [], 0) == REUSE[0] && Trace(REUSE, REUSING)
  {
    ReuseStarts();
    ReuseLaunches();
    ReuseExits();
    ReuseSwitches();
    ReuseJoins();
    ReuseReturns();
    ReuseKills();
    ReuseMoves();
    ReuseForgets();
  }

  lemma JoinerIsNowhere()
    ensures Nowhere(REUSE[12], 1)
  {
    var k := REUSE[12];
    NothingQueued(SemQueues(k.sems), 1);
    NothingQueued(MtxQueues(k.mtxs), 1);
    TimesIn(k.free, 1);
    TimesIn(k.runq, 1);
    TimesIn(Tasks(k.sleep), 1);
  }

  /**
   A thread that has woken its joiners and is about to die gets one more; its slot is reused, and
   that joiner is lost.
   */
  lemma ForgottenJoiner()
    ensures IsRun(Initial(3, [], 0), REUSING) && Nowhere(Exec(Initial(3, [], 0), REUSING), 1)
  {
    ReuseTrace();
    TraceRuns(REUSE, REUSING);
    JoinerIsNowhere();
  }

  // ---------- a killed task runs on ----------

  const LINGER: seq<State> := [
    State(2, [LOW, LOW], [1, 0], [], 0, Head, Boot, [], [NONE, NONE], []),
    State(2, [LOW, HIGH], [0], [1], 1, Head, Boot, [], [NONE, NONE], []),
    State(2, [LOW, HIGH], [], [1, 0], 2, Head, Boot, [], [NONE, NONE], []),
    State(2, [LOW, HIGH], [], [1, 0], 2, On(1), Thread(1), [], [NONE, NONE], []),
    State(2, [LOW, HIGH], [1], [0], 1, On(0), Thread(1), [], [NONE, NONE], []),
    State(2, [LOW, Task(2, 2, 1, ACTIVE)], [1], [0], 1, On(0), Thread(1), [], [NONE, NONE], [])]

  /** A task of priority 2 dies in its first tick and runs on in its second, while its slot is free. */
  lemma RunsOnDead()
    ensures var ops := [Create(2), Create(1), Launch, Kill, Tick];
            && IsRun(Initial(2, [], 0), ops)
            && Exec(Initial(2, [], 0), ops).run == Thread(1) && 1 in Exec(Initial(2, [], 0), ops).free
  {
    var ops := [Create(2), Create(1), Launch, Kill, Tick];
    LingerStarts();
    LingerDies();
    LingerRuns();
    TraceRuns(LINGER, ops);
  }

  lemma LingerStarts()
    ensures Initial(2, [], 0) == LINGER[0]
    ensures Leads(LINGER[0], Create(2), LINGER[1]) && Leads(LINGER[1], Create(1), LINGER[2])
  {
    assert Pool.Descending(2) == [1, 0];
  }

  lemma LingerDies()
    ensures Leads(LINGER[2], Launch, LINGER[3]) && Leads(LINGER[3], Kill, LINGER[4])
  {
    assert Without([1, 0], 1) == [0];
  }

  lemma LingerRuns()
    ensures Leads(LINGER[4], Tick, LINGER[5])
  {
    TickAwake(LINGER[4]);
  }

  // ---------- the last task to block keeps its rest ----------

  const REST: seq<State> := [
    State(1, [LOW], [0], [], 0, Head, Boot, [], [NONE, NONE], []),
    State(1, [HIGH], [], [0], 1, Head, Boot, [], [NONE, NONE], []),
    State(1, [HIGH], [], [0], 1, On(0), Thread(0), [], [NONE, NONE], []),
    State(1, [Task(2, 2, 1, ACTIVE)], [], [0], 1, On(0), Thread(0), [], [NONE, NONE], []),
    State(1, [Task(2, 2, 1, BLOCKING)], [], [], 0, On(0), Thread(0), [], [NONE, Sem(-1, [0])], []),
    State(1, [Task(2, 2, 1, BLOCKING)], [], [], 0, On(0), Idle, [], [NONE, Sem(-1, [0])], [])]

  /** A task of priority 2 blocks in its second tick, goes idle, and has one tick instead of two before it. */
  lemma KeepsRest()
    ensures var ops := [Create(2), Launch, Tick, SemWait(1), Tick];
            && IsRun(Initial(1, [0], 0), ops)
            && var r := Exec(Initial(1, [0], 0), ops); r.run == Idle && 0 !in r.free && !Full(r, 0)
  {
    var ops := [Create(2), Launch, Tick, SemWait(1), Tick];
    RestStarts();
    RestBlocks();
    RestGoesIdle();
    TraceRuns(REST, ops);
  }

  lemma RestStarts()
    ensures Initial(1, [0], 0) == REST[0]
    ensures Leads(REST[0], Create(2), REST[1]) && Leads(REST[1], Launch, REST[2]) && Leads(REST[2], Tick, REST[3])
  {
    assert Pool.Descending(1) == [0];
    TickAwake(REST[2]);
  }

  lemma RestBlocks()
    ensures Leads(REST[3], SemWait(1), REST[4])
  {
    var k, r := REST[3], REST[4];
    assert Wait(NONE, 0, 1) == Waited(Sem(-1, [0]), true);
    assert Without(k.runq, 0) == [] && Backward(k.runq, On(0)) == On(0);
    var x := Next(k, SemWait(1));
    assert x.sems == r.sems && x.tasks == r.tasks && x.runq == r.runq && x.cursor == r.cursor;
  }

  lemma RestGoesIdle()
    ensures Leads(REST[4], Tick, REST[5])
  {
    TickAwake(REST[4]);
  }

  // ---------- two mutexes in one hand ----------

  const FREE_MTX := Mutex(None, [])

  const NESTED: seq<State> := [
    State(2, [LOW, LOW], [1, 0], [], 0, Head, Boot, [], [NONE, NONE], [FREE_MTX, FREE_MTX]),
    State(2, [LOW, LOW], [0], [1], 1, Head, Boot, [], [NONE, NONE], [FREE_MTX, FREE_MTX]),
    State(2, [HIGH, LOW], [], [1, 0], 2, Head, Boot, [], [NONE, NONE], [FREE_MTX, FREE_MTX]),
    State(2, [HIGH, LOW], [], [1, 0], 2, On(1), Thread(1), [], [NONE, NONE], [FREE_MTX, FREE_MTX]),
    State(2, [HIGH, LOW], [], [1, 0], 2, On(1), Thread(1), [], [NONE, NONE], [Mutex(Some(1), []), FREE_MTX]),
    State(2, [HIGH, LOW], [], [1, 0], 2, On(1), Thread(1), [], [NONE, NONE], [Mutex(Some(1), []), Mutex(Some(1), [])]),
    State(2, [HIGH, LOW], [], [1, 0], 2, On(0), Thread(0), [], [NONE, NONE], [Mutex(Some(1), []), Mutex(Some(1), [])]),
    State(2, [Task(2, 2, 2, BLOCKING), Task(1, 2, 2, ACTIVE)], [], [1], 1, On(1), Thread(0), [], [NONE, NONE],
          [Mutex(Some(1), [0]), Mutex(Some(1), [])]),
    State(2, [Task(2, 2, 2, BLOCKING), Task(1, 2, 2, ACTIVE)], [], [1], 1, On(1), Thread(1), [], [NONE, NONE],
          [Mutex(Some(1), [0]), Mutex(Some(1), [])]),
    State(2, [Task(2, 2, 2, BLOCKING), Task(1, 1, 2, ACTIVE)], [], [1], 1, On(1), Thread(1), [], [NONE, NONE],
          [Mutex(Some(1), [0]), FREE_MTX])]

  const NESTING := [Create(1), Create(2), Launch, Lock(0), Lock(1), Tick, Lock(0), Tick, Unlock(1)]

  lemma NestedStarts()
    ensures Initial(2, [], 2) == NESTED[0]
    ensures Leads(NESTED[0], Create(1), NESTED[1]) && Leads(NESTED[1], Create(2), NESTED[2])
  {
    assert Pool.Descending(2) == [1, 0];
  }

  lemma NestedLaunches()
    ensures Leads(NESTED[2], Launch, NESTED[3]) && Leads(NESTED[3], Lock(0), NESTED[4])
  {
  }

  lemma NestedHolds()
    ensures Leads(NESTED[4], Lock(1), NESTED[5]) && Leads(NESTED[5], Tick, NESTED[6])
  {
    TickAwake(NESTED[5]);
  }

  lemma NestedUnlocks()
    ensures Leads(NESTED[7], Tick, NESTED[8]) && Leads(NESTED[8], Unlock(1), NESTED[9])
  {
    TickAwake(NESTED[7]);
  }

  lemma NestedLocks()
    ensures Leads(NESTED[6], Lock(0), NESTED[7])
  {
    assert [] + [0] == [0] && Without([1, 0], 0) == [1];
  }

  /** The unlock of the second mutex takes back the priority inherited through the first. */
  lemma NestedLosesInheritance()
    ensures IsRun(Initial(2, [], 2), NESTING) && |Exec(Initial(2, [], 2), NESTING).mtxs| == 2
    ensures !Inherits(Exec(Initial(2, [], 2), NESTING), 0)
  {
    hide Leads, IsRun, Exec;
    NestedStarts();
    NestedLaunches();
    NestedHolds();
    NestedLocks();
    NestedUnlocks();
    TraceRuns(NESTED, NESTING);
    var r := NESTED[9];
    assert Fixed(r, r.mtxs[0].wq[0]) == 2 && Fixed(r, 1) == 1;
  }

  // ---------- a chain of two mutexes ----------

  const CHAIN: seq<State> := [
    State(3, [LOW, LOW, LOW], [2, 1, 0], [], 0, Head, Boot, [], [NONE, NONE, NONE], [FREE_MTX, FREE_MTX]),
    State(3, [LOW, LOW, LOW], [1, 0], [2], 1, Head, Boot, [], [NONE, NONE, NONE], [FREE_MTX, FREE_MTX]),
    State(3, [LOW, LOW, LOW], [0], [2, 1], 2, Head, Boot, [], [NONE, NONE, NONE], [FREE_MTX, FREE_MTX]),
    State(3, [HIGH, LOW, LOW], [], [2, 1, 0], 3, Head, Boot, [], [NONE, NONE, NONE], [FREE_MTX, FREE_MTX]),
    State(3, [HIGH, LOW, LOW], [], [2, 1, 0], 3, On(2), Thread(2), [], [NONE, NONE, NONE], [FREE_MTX, FREE_MTX]),
    State(3, [HIGH, LOW, LOW], [], [2, 1, 0], 3, On(2), Thread(2), [], [NONE, NONE, NONE],
          [Mutex(Some(2), []), FREE_MTX]),
    State(3, [HIGH, LOW, LOW], [], [2, 1, 0], 3, On(1), Thread(1), [], [NONE, NONE, NONE],
          [Mutex(Some(2), []), FREE_MTX]),
    State(3, [HIGH, LOW, LOW], [], [2, 1, 0], 3, On(1), Thread(1), [], [NONE, NONE, NONE],
          [Mutex(Some(2), []), Mutex(Some(1), [])]),
    State(3, [HIGH, BLOCKED, LOW], [], [2, 0], 2, On(2), Thread(1), [], [NONE, NONE, NONE],
          [Mutex(Some(2), [1]), Mutex(Some(1), [])]),
    State(3, [HIGH, BLOCKED, LOW], [], [2, 0], 2, On(0), Thread(0), [], [NONE, NONE, NONE],
          [Mutex(Some(2), [1]), Mutex(Some(1), [])]),
    State(3, [Task(2, 2, 2, BLOCKING), Task(1, 2, 2, BLOCKING), LOW], [], [2], 1, On(2), Thread(0), [],
          [NONE, NONE, NONE], [Mutex(Some(2), [1]), Mutex(Some(1), [0])])]

  const CHAINING := [Create(1), Create(1), Create(2), Launch, Lock(0), Tick, Lock(1), Lock(0), Tick, Lock(1)]

  lemma ChainStarts()
    ensures Initial(3, [], 2) == CHAIN[0]
    ensures Leads(CHAIN[0], Create(1), CHAIN[1]) && Leads(CHAIN[1], Create(1), CHAIN[2])
  {
    assert Pool.Descending(3) == [2, 1, 0];
  }

  lemma ChainLaunches()
    ensures Leads(CHAIN[2], Create(2), CHAIN[3]) && Leads(CHAIN[3], Launch, CHAIN[4])
  {
  }

  lemma ChainLocks()
    ensures Leads(CHAIN[4], Lock(0), CHAIN[5]) && Leads(CHAIN[5], Tick, CHAIN[6])
    ensures Leads(CHAIN[6], Lock(1), CHAIN[7])
  {
    TickAwake(CHAIN[5]);
  }

  lemma ChainBlocks()
    ensures Leads(CHAIN[7], Lock(0), CHAIN[8])
  {
    hide Without, Backward;
    assert Enqueue([], 1, 3) == [1];
    SecondOf(2, 1, [0]);
    assert [2, 1] + [0] == [2, 1, 0] && [2] + [0] == [2, 0];
  }

  lemma ChainSwitches()
    ensures Leads(CHAIN[8], Tick, CHAIN[9])
  {
    TickAwake(CHAIN[8]);
  }

  lemma ChainBoosts()
    ensures Leads(CHAIN[9], Lock(1), CHAIN[10])
  {
    assert [] + [0] == [0] && Without([2, 0], 0) == [2];
  }

  /** A boost reaches the holder that waits, and not the holder it waits for. */
  lemma ChainLosesInheritance()
    ensures IsRun(Initial(3, [], 2), CHAINING) && |Exec(Initial(3, [], 2), CHAINING).mtxs| == 2
    ensures !Inherits(Exec(Initial(3, [], 2), CHAINING), 0)
  {
    ChainStarts();
    ChainLaunches();
    ChainLocks();
    ChainBlocks();
    ChainSwitches();
    ChainBoosts();
    TraceRuns(CHAIN, CHAINING);
    ChainEnds();
  }

  lemma ChainEnds()
    ensures !Inherits(CHAIN[10], 0)
  {
    var r := CHAIN[10];
    assert Fixed(r, r.mtxs[0].wq[0]) == 2 && Fixed(r, 2) == 1;
  }

  // ---------- a sleep of 2^15 ticks or more ----------

  const LONG: seq<State> := [
    State(2, [LOW, LOW], [1, 0], [], 0, Head, Boot, [], [NONE, NONE], []),
    State(2, [LOW, LOW], [0], [1], 1, Head, Boot, [], [NONE, NONE], []),
    State(2, [LOW, LOW], [0], [1], 1, On(1), Thread(1), [], [NONE, NONE], []),
    State(2, [LOW, Task(1, 1, 1, SLEEPING)], [0], [], 0, On(1), Thread(1), [Node(-25536, 1, 40000)], [NONE, NONE], []),
    State(2, [LOW, LOW], [0], [1], 1, On(1), Thread(1), [], [NONE, NONE], [])]

  /** A sleep of 40000 ticks is over after one. */
  lemma LongSleep()
    ensures var ops := [Create(1), Launch, Sleep(40000), Tick];
            IsRun(Initial(2, [], 0), ops) && 1 in Exec(Initial(2, [], 0), ops).runq
  {
    var ops := [Create(1), Launch, Sleep(40000), Tick];
    assert Pool.Descending(2) == [1, 0];
    assert Initial(2, [], 0) == LONG[0];
    assert Leads(LONG[0], ops[0], LONG[1]);
    assert Leads(LONG[1], ops[1], LONG[2]);
    assert Leads(LONG[2], ops[2], LONG[3]);
    LongTick();
    TraceRuns(LONG, ops);
  }

  lemma LongTick()
    ensures Leads(LONG[3], Tick, LONG[4])
  {
    var h := LONG[3].sleep;
    assert DecRoot(h) == [Node(-25537, 1, 40000)] && Pop([Node(-25537, 1, 40000)]) == [];
    assert Drain([], 0) == Drained([], []);
    assert HeapTick(h) == Drained([], [1]);
  }

  // ---------- a heap whose root is negative ----------

  const NAPPING := Task(1, 1, 1, SLEEPING)
  const NO_JOINERS := [NONE, NONE, NONE, NONE]

  const BELOW: seq<State> := [
    State(4, [LOW, LOW, LOW, LOW], [3, 2, 1, 0], [], 0, Head, Boot, [], NO_JOINERS, []),
    State(4, [LOW, LOW, LOW, LOW], [2, 1, 0], [3], 1, Head, Boot, [], NO_JOINERS, []),
    State(4, [LOW, LOW, LOW, LOW], [1, 0], [3, 2], 2, Head, Boot, [], NO_JOINERS, []),
    State(4, [LOW, LOW, LOW, LOW], [0], [3, 2, 1], 3, Head, Boot, [], NO_JOINERS, []),
    State(4, [LOW, LOW, LOW, LOW], [0], [3, 2, 1], 3, On(3), Thread(3), [], NO_JOINERS, []),
    State(4, [LOW, LOW, LOW, NAPPING], [0], [2, 1], 2, On(1), Thread(3), [Node(3, 3, 3)], NO_JOINERS, []),
    State(4, [LOW, LOW, LOW, NAPPING], [0], [2, 1], 2, On(2), Thread(2), [Node(2, 3, 3)], NO_JOINERS, []),
    State(4, [LOW, LOW, NAPPING, NAPPING], [0], [1], 1, On(1), Thread(2),
          [Node(2, 3, 3), Node(4, 2, 4)], NO_JOINERS, []),
    State(4, [LOW, LOW, NAPPING, NAPPING], [0], [1], 1, On(1), Thread(1),
          [Node(1, 3, 3), Node(4, 2, 4)], NO_JOINERS, []),
    State(4, [LOW, NAPPING, NAPPING, NAPPING], [0], [], 0, On(1), Thread(1),
          [Node(1, 3, 3), Node(4, 2, 4), Node(5, 1, 5)], NO_JOINERS, []),
    State(4, [LOW, NAPPING, NAPPING, LOW], [0], [3], 1, On(3), Thread(3),
          [Node(1, 2, 7), Node(5, 1, 5)], NO_JOINERS, []),
    State(4, [LOW, NAPPING, LOW, LOW], [0], [3, 2], 2, On(2), Thread(2), [Node(-1, 1, 12)], NO_JOINERS, [])]

  const SINKING := [Create(1), Create(1), Create(1), Launch, Sleep(3), Tick, Sleep(4), Tick, Sleep(5), Tick, Tick]

  lemma BelowStarts()
    ensures Initial(4, [], 0) == BELOW[0]
  {
    assert Pool.Descending(4) == [3, 2, 1, 0];
  }

  lemma BelowCreates()
    ensures Leads(BELOW[0], Create(1), BELOW[1])
  {
  }

  lemma BelowCreatesMore()
    ensures Leads(BELOW[1], Create(1), BELOW[2])
  {
  }

  lemma BelowLaunches()
    ensures Leads(BELOW[2], Create(1), BELOW[3]) && Leads(BELOW[3], Launch, BELOW[4])
  {
  }

  lemma FirstSleeper()
    ensures Leads(BELOW[4], Sleep(3), BELOW[5]) && Leads(BELOW[5], Tick, BELOW[6])
  {
    assert [] + [Node(3, 3, 3)] == [Node(3, 3, 3)];
    assert HeapTick([Node(3, 3, 3)]) == Drained([Node(2, 3, 3)], []);
  }

  lemma SecondSleeper()
    ensures Leads(BELOW[6], Sleep(4), BELOW[7])
  {
    var h := [Node(2, 3, 3), Node(4, 2, 4)];
    assert [Node(2, 3, 3)] + [Node(4, 2, 4)] == h;
    assert SiftUp(h, 2, 4, Node(4, 2, 4)) == h;
  }

  lemma SecondTick()
    ensures Leads(BELOW[7], Tick, BELOW[8])
  {
    var h := [Node(2, 3, 3), Node(4, 2, 4)];
    assert DecRoot(h) == [Node(1, 3, 3), Node(4, 2, 4)];
    assert HeapTick(h) == Drained([Node(1, 3, 3), Node(4, 2, 4)], []);
  }

  lemma ThirdSleeper()
    ensures Leads(BELOW[8], Sleep(5), BELOW[9])
  {
    var h := [Node(1, 3, 3), Node(4, 2, 4), Node(5, 1, 5)];
    assert [Node(1, 3, 3), Node(4, 2, 4)] + [Node(5, 1, 5)] == h;
    assert SiftUp(h, 3, 5, Node(5, 1, 5)) == h;
  }

  lemma FirstWakes()
    ensures Leads(BELOW[9], Tick, BELOW[10])
  {
    var y, z := Node(4, 2, 4), Node(5, 1, 5);
    var d := [Node(0, 3, 3), y, z];
    assert DecRoot(BELOW[9].sleep) == d;
    assert d[..2][0 := z] == [z, y] && [z, y][0 := y] == [y, y];
    assert Smallest([z, y], 1, z) == 2 && SiftDown([y, y], 2, z) == [y, z];
    assert Pop(d) == [y, z];
    assert Rebase([y, z], 3) == [Node(2, 2, 7), z] && DecRoot([Node(2, 2, 7), z]) == [Node(1, 2, 7), z];
    assert Drain([Node(2, 2, 7), z], 1) == Drained([Node(1, 2, 7), z], []);
    assert HeapTick(BELOW[9].sleep) == Drained([Node(1, 2, 7), z], [3]);
    OneWakes(BELOW[9], [Node(1, 2, 7), z], 3);
  }

  lemma SecondWakes()
    ensures Leads(BELOW[10], Tick, BELOW[11])
  {
    var z := Node(5, 1, 5);
    assert DecRoot(BELOW[10].sleep) == [Node(0, 2, 7), z];
    assert Pop([Node(0, 2, 7), z]) == SiftDown([z], 1, z) == [z];
    assert Rebase([z], 7) == [Node(-1, 1, 12)];
    assert Drain([Node(-1, 1, 12)], 1) == Drained([Node(-1, 1, 12)], []);
    assert HeapTick(BELOW[10].sleep) == Drained([Node(-1, 1, 12)], [2]);
    OneWakes(BELOW[10], [Node(-1, 1, 12)], 2);
  }

  lemma OneWakes(k: State, heap: seq<Node>, t: nat)
    requires HeapTick(k.sleep) == Drained(heap, [t])
    ensures Update(k) == Unpause(k.(sleep := heap), t)
  {
    assert WakeAll(Unpause(k.(sleep := heap), t), []) == Unpause(k.(sleep := heap), t);
    assert [t][1..] == [];
  }

  lemma BelowTrace()
    ensures Initial(4, [], 0) == BELOW[0] && Trace(BELOW, SINKING)
  {
    hide Leads;
    BelowStarts();
    BelowCreates();
    BelowCreatesMore();
    BelowLaunches();
    FirstSleeper();
    SecondSleeper();
    SecondTick();
    ThirdSleeper();
    FirstWakes();
    SecondWakes();
  }

  lemma Sinks()
    ensures IsRun(Initial(4, [], 0), SINKING) && Exec(Initial(4, [], 0), SINKING) == BELOW[11]
  {
    BelowTrace();
    TraceRuns(BELOW, SINKING);
  }

  lemma PushThere(ticks: nat)
    requires 1 <= ticks < INT_LIMIT
    ensures Enabled(BELOW[11], Sleep(ticks)) && !Ordered(Next(BELOW[11], Sleep(ticks)).sleep)
  {
    PushBelowZero(1, 2, ticks);
  }

  /**
   Sleeps of 3, 4 and 5 ticks, each followed by the tick that has to follow, and one more tick: the
   first two sleepers are awake again, the rebased root is below zero, and the next sleep of any
   length below 2^15 leaves the heap unordered.
   */
  lemma RootBelowZero(ticks: nat)
    requires 1 <= ticks < INT_LIMIT
    ensures IsRun(Initial(4, [], 0), SINKING)
    ensures var k := Exec(Initial(4, [], 0), SINKING);
            k.sleep == [Node(-1, 1, 12)] && Enabled(k, Sleep(ticks)) && !Ordered(Next(k, Sleep(ticks)).sleep)
  {
    Sinks();
    PushThere(ticks);
  }

  // ---------- a post at the top of the count ----------

  /** m posts on a semaphore without waiters. */
  lemma {:induction false} ManyPosts(k: State, s: nat, m: nat)
    requires Runnable(k) && !k.leaked && s < |k.sems| && k.sems[s].wq == []
    requires 0 <= k.sems[s].val && k.sems[s].val + m <= VAL_MAX
    ensures var ops := seq(m, _ => SemPost(s));
            IsRun(k, ops) && Exec(k, ops) == k.(sems := k.sems[s := Sem(k.sems[s].val + m, [])])
    decreases m
  {
    var ops := seq(m, _ => SemPost(s));
    if m == 0 {
      assert k.sems[s := Sem(k.sems[s].val, [])] == k.sems;
    } else {
      var k' := Next(k, SemPost(s));
      assert k' == k.(sems := k.sems[s := Sem(k.sems[s].val + 1, [])]);
      ManyPosts(k', s, m - 1);
      assert ops[0] == SemPost(s) && ops[1..] == seq(m - 1, _ => SemPost(s));
    }
  }

  /** The 32768th post on a semaphore that starts at 0 wakes a task that does not exist. */
  lemma PostOverflow()
    ensures var k := Exec(Initial(1, [0], 0), [Create(1), Launch]);
            var ops := seq(VAL_MAX, _ => SemPost(1));
            && IsRun(Initial(1, [0], 0), [Create(1), Launch]) && IsRun(k, ops)
            && Enabled(Exec(k, ops), SemPost(1)) && Next(Exec(k, ops), SemPost(1)).run == Wild
  {
    Posting();
    ManyPosts(POSTING[2], 1, VAL_MAX);
    TopPost(POSTING[2].(sems := POSTING[2].sems[1 := Sem(VAL_MAX, [])]));
  }

  const POSTING: seq<State> := [
    State(1, [LOW], [0], [], 0, Head, Boot, [], [NONE, NONE], []),
    State(1, [LOW], [], [0], 1, Head, Boot, [], [NONE, NONE], []),
    State(1, [LOW], [], [0], 1, On(0), Thread(0), [], [NONE, NONE], [])]

  lemma Posting()
    ensures IsRun(Initial(1, [0], 0), [Create(1), Launch])
    ensures Exec(Initial(1, [0], 0), [Create(1), Launch]) == POSTING[2]
  {
    var ops := [Create(1), Launch];
    assert Pool.Descending(1) == [0];
    assert Initial(1, [0], 0) == POSTING[0];
    assert Leads(POSTING[0], ops[0], POSTING[1]);
    assert Leads(POSTING[1], ops[1], POSTING[2]);
    TraceRuns(POSTING, ops);
  }

  lemma TopPost(k: State)
    requires Runnable(k) && |k.sems| == 2 && k.sems[1] == Sem(VAL_MAX, [])
    ensures Enabled(k, SemPost(1)) && Next(k, SemPost(1)).run == Wild
  {
    PostAgrees(k.sems[1]);
  }

  // ---------- an empty pool ----------

  lemma {:induction false} JoinersLeak(k: State, t: nat)
    requires t < |k.sems| && Agrees(k.sems[t])
    ensures var r := WakeJoiners(k, t); r.leaked == k.leaked && (r.run == k.run || r.run == Wild)
    decreases |k.sems[t].wq|
  {
    if k.sems[t].wq != [] {
      PostAgrees(k.sems[t]);
      JoinersLeak(DoSemPost(k, t), t);
    }
  }

  /**
   Once main has left a critical section open, ticks follow until a task enters one: no tick follows
   any critical section of any task, in whatever state.
   */
  lemma LeakEndsTicks(k: State, op: Op)
    requires k.leaked && k.run.Thread? && Enabled(k, op) && Critical(op)
    ensures !Enabled(Next(k, op), Tick)
  {
    if op == Exit {
      JoinersLeak(k, k.run.task);
    }
  }

  /** A task that finds the pool empty keeps interrupts off: no step can follow. */
  lemma EmptyPool()
    ensures var ops := [Create(1), Launch, Create(1)];
            IsRun(Initial(1, [], 0), ops) && Exec(Initial(1, [], 0), ops).run == Masked
  {
    var ops := [Create(1), Launch, Create(1)];
    assert Pool.Descending(1) == [0];
    var states := [FULL[0], FULL[1], FULL[2], FULL[2].(run := Masked)];
    assert Leads(states[0], ops[0], states[1]);
    assert Leads(states[1], ops[1], states[2]);
    assert Leads(states[2], ops[2], states[3]);
    TraceRuns(states, ops);
  }

  /**
   If main finds it empty before the launch, the first task still starts and ticks still come, but
   not after the first critical section of a task.
   */
  lemma EmptyPoolAtBoot()
    ensures var ops := [Create(1), Create(1), Launch, Tick]; var k := Exec(Initial(1, [], 0), ops);
            && IsRun(Initial(1, [], 0), ops) && Enabled(k, Tick) && k.leaked
            && Enabled(k, SemTryWait(0)) && Next(k, SemTryWait(0)).run == Masked
  {
    var ops := [Create(1), Create(1), Launch, Tick];
    assert Pool.Descending(1) == [0];
    var k := FULL[2].(leaked := true);
    var states := [FULL[0], FULL[1], FULL[1].(leaked := true), k, k];
    assert Leads(states[0], ops[0], states[1]);
    assert Leads(states[1], ops[1], states[2]);
    assert Leads(states[2], ops[2], states[3]);
    TickAwake(k);
    assert Leads(states[3], ops[3], states[4]);
    TraceRuns(states, ops);
  }

  // ---------- the iterator is lost ----------

  const NULLED: seq<State> := [
    State(3, [LOW, LOW, LOW], [2, 1, 0], [], 0, Head, Boot, [], [NONE, NONE, NONE], []),
    State(3, [LOW, LOW, LOW], [1, 0], [2], 1, Head, Boot, [], [NONE, NONE, NONE], []),
    State(3, [LOW, HIGH, LOW], [0], [2, 1], 2, Head, Boot, [], [NONE, NONE, NONE], []),
    State(3, [LOW, HIGH, LOW], [0], [2, 1], 2, On(2), Thread(2), [], [NONE, NONE, NONE], []),
    State(3, [LOW, HIGH, LOW], [0], [2, 1], 2, On(1), Thread(1), [], [NONE, NONE, NONE], []),
    State(3, [LOW, Task(2, 2, 2, SLEEPING), LOW], [0], [2], 1, On(2), Thread(1),
          [Node(1, 1, 1)], [NONE, NONE, NONE], []),
    State(3, [LOW, Task(2, 2, 1, ACTIVE), LOW], [0], [2, 1], 2, On(2), Thread(1), [], [NONE, NONE, NONE], []),
    State(3, [LOW, Task(2, 2, 2, SLEEPING), LOW], [0], [2], 1, On(1), Thread(1),
          [Node(5, 1, 5)], [NONE, NONE, NONE], []),
    State(3, [LOW, Task(2, 2, 2, SLEEPING), LOW], [0], [2], 1, Lost, Wild, [Node(4, 1, 5)], [NONE, NONE, NONE], [])]

  const NULLING := [Create(1), Create(2), Launch, Tick, Sleep(1), Tick, Sleep(5), Tick]

  lemma NullStarts()
    ensures Initial(3, [], 0) == NULLED[0]
    ensures Leads(NULLED[0], Create(1), NULLED[1]) && Leads(NULLED[1], Create(2), NULLED[2])
  {
    assert Pool.Descending(3) == [2, 1, 0];
  }

  lemma NullRuns()
    ensures Leads(NULLED[2], Launch, NULLED[3]) && Leads(NULLED[3], Tick, NULLED[4])
  {
    TickAwake(NULLED[3]);
  }

  lemma NullNaps()
    ensures Leads(NULLED[4], Sleep(1), NULLED[5])
  {
    assert [] + [Node(1, 1, 1)] == [Node(1, 1, 1)];
  }

  /** The tick after the nap re-adds the interrupted task, and the iterator is left behind. */
  lemma NullWakes()
    ensures Leads(NULLED[5], Tick, NULLED[6])
  {
    var h := [Node(1, 1, 1)];
    assert DecRoot(h) == [Node(0, 1, 1)] && Pop([Node(0, 1, 1)]) == [] && Drain([], 0) == Drained([], []);
    assert HeapTick(h) == Drained([], [1]);
    OneWakes(NULLED[5], [], 1);
  }

  /** The next sleep removes the task from under the iterator, and the next tick follows a NULL pointer. */
  lemma NullFollows()
    ensures Leads(NULLED[6], Sleep(5), NULLED[7]) && Leads(NULLED[7], Tick, NULLED[8])
  {
    var h := [Node(5, 1, 5)];
    assert [] + h == h;
    assert HeapTick(h) == Drained([Node(4, 1, 5)], []);
  }

  /**
   A run that ends with run_ptr computed from a NULL iterator: a task of priority 2 sleeps for one
   tick, is re-added by the tick that interrupts it, and then sleeps again.
   */
  lemma IteratorLost()
    ensures IsRun(Initial(3, [], 0), NULLING) && Exec(Initial(3, [], 0), NULLING).run == Wild
  {
    hide Leads;
    NullStarts();
    NullRuns();
    NullNaps();
    NullWakes();
    NullFollows();
    TraceRuns(NULLED, NULLING);
  }
}
