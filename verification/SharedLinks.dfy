/**
 A slot of the pool keeps its free-list link and the saved stack pointer of its task in the same
 word (the union of pool.h). What that does to the free list which module Kernel keeps apart.
 */
module SharedLinks {
  import opened Sequences
  import opened Cursors
  import opened SleepTick
  import opened Semaphores
  import opened Kernel
  import opened Conservation
  import opened Steps
  import opened Invariants
  import opened Failures
  import Pool

  /** The first word of a slot, or the head of the free list: NULL, a slot, or a stack pointer into one. */
  datatype Word = Null | Slot(slot: nat) | Sp(slot: nat)

  datatype Memory = Memory(head: Word, first: seq<Word>)

  /** slist_remove_head, and the stack pointer that thrd_stack_init stores. A head that is no slot stays. */
  function Take(m: Memory): (r: Memory)
    ensures |r.first| == |m.first|
  {
    if m.head.Slot? && m.head.slot < |m.first| then
      Memory(m.first[m.head.slot], m.first[m.head.slot := Sp(m.head.slot)])
    else m
  }

  /** pool_task_mem_free */
  function Give(m: Memory, t: nat): (r: Memory)
    ensures |r.first| == |m.first|
  {
    if t < |m.first| then Memory(Slot(t), m.first[t := m.head]) else m
  }

  /** The tick saves the stack pointer of the task it interrupts. */
  function Save(m: Memory, t: nat): (r: Memory)
    ensures |r.first| == |m.first|
  {
    if t < |m.first| then m.(first := m.first[t := Sp(t)]) else m
  }

  /** The words that a step writes. */
  function After(m: Memory, k: State, op: Op): (r: Memory)
    ensures |r.first| == |m.first|
  {
    match op
    case Create(priority) => if priority == 0 then m else Take(m)
    case Kill => if k.run.Thread? then Give(m, k.run.task) else m
    case Tick => if k.run.Thread? then Save(m, k.run.task) else m
    case _ => m
  }

  // ---------- the words and the free list ----------

  /** The word that leads to the i-th free slot. */
  function Before(m: Memory, free: seq<nat>, i: nat): Word {
    if i == 0 then m.head
    else if i <= |free| && free[i - 1] < |m.first| then m.first[free[i - 1]]
    else Null
  }

  /** What it should hold. */
  function Target(free: seq<nat>, i: nat): Word {
    if i < |free| then Slot(free[i]) else Null
  }

  ghost predicate Threads(m: Memory, free: seq<nat>) {
    forall i :: 0 <= i <= |free| ==> Before(m, free, i) == Target(free, i)
  }

  /** After j right links comes a stack pointer. */
  ghost predicate BreaksAt(m: Memory, free: seq<nat>, j: nat) {
    && j <= |free| && Before(m, free, j).Sp?
    && (forall i :: 0 <= i < j ==> Before(m, free, i) == Target(free, i))
  }

  ghost predicate Broken(m: Memory, free: seq<nat>) {
    exists j: nat :: BreaksAt(m, free, j)
  }

  ghost predicate InMemory(m: Memory, free: seq<nat>) {
    Distinct(free) && forall i :: 0 <= i < |free| ==> free[i] < |m.first|
  }

  lemma BrokenNotThreads(m: Memory, free: seq<nat>)
    requires Broken(m, free)
    ensures !Threads(m, free)
  {
    var j: nat :| BreaksAt(m, free, j);
    assert Before(m, free, j) != Target(free, j);
  }

  lemma TakeBefore(m: Memory, free: seq<nat>, i: nat)
    requires InMemory(m, free) && free != [] && m.head == Slot(free[0]) && i < |free|
    ensures Before(Take(m), free[1..], i) == Before(m, free, i + 1)
    ensures Target(free[1..], i) == Target(free, i + 1)
  {
  }

  lemma TakeThreads(m: Memory, free: seq<nat>)
    requires InMemory(m, free) && Threads(m, free)
    ensures if free == [] then Take(m) == m else m.head == Slot(free[0]) && Threads(Take(m), free[1..])
  {
    assert Before(m, free, 0) == Target(free, 0);
    if free != [] {
      forall i | 0 <= i <= |free[1..]| ensures Before(Take(m), free[1..], i) == Target(free[1..], i) {
        TakeBefore(m, free, i);
      }
    }
  }

  lemma TakeBroken(m: Memory, free: seq<nat>)
    requires InMemory(m, free) && Broken(m, free)
    ensures Broken(Take(m), if free == [] then [] else free[1..])
  {
    var j: nat :| BreaksAt(m, free, j);
    if j == 0 {
      assert BreaksAt(Take(m), if free == [] then [] else free[1..], 0);
    } else {
      assert Before(m, free, 0) == Target(free, 0);
      forall i | 0 <= i < j - 1 ensures Before(Take(m), free[1..], i) == Target(free[1..], i) {
        TakeBefore(m, free, i);
      }
      TakeBefore(m, free, j - 1);
      assert BreaksAt(Take(m), free[1..], j - 1);
    }
  }

  lemma GiveBefore(m: Memory, free: seq<nat>, t: nat, i: nat)
    requires InMemory(m, free) && t !in free && t < |m.first| && i <= |free|
    ensures Before(Give(m, t), [t] + free, i + 1) == Before(m, free, i)
    ensures Target([t] + free, i + 1) == Target(free, i)
  {
  }

  lemma GiveThreads(m: Memory, free: seq<nat>, t: nat)
    requires InMemory(m, free) && t !in free && t < |m.first| && Threads(m, free)
    ensures Threads(Give(m, t), [t] + free)
  {
    var r, f := Give(m, t), [t] + free;
    forall i | 0 <= i <= |f| ensures Before(r, f, i) == Target(f, i) {
      if i > 0 {
        GiveBefore(m, free, t, i - 1);
      }
    }
  }

  lemma GiveBroken(m: Memory, free: seq<nat>, t: nat)
    requires InMemory(m, free) && t !in free && t < |m.first| && Broken(m, free)
    ensures Broken(Give(m, t), [t] + free)
  {
    var r, f := Give(m, t), [t] + free;
    var j: nat :| BreaksAt(m, free, j);
    forall i | 0 <= i < j + 1 ensures Before(r, f, i) == Target(f, i) {
      if i > 0 {
        GiveBefore(m, free, t, i - 1);
      }
    }
    GiveBefore(m, free, t, j);
    assert BreaksAt(r, f, j + 1);
  }

  /** Saving overwrites the link behind slot t, if t is free, and no other. */
  lemma SaveBefore(m: Memory, free: seq<nat>, t: nat, i: nat)
    requires InMemory(m, free) && i <= |free|
    ensures Before(Save(m, t), free, i) == if i > 0 && free[i - 1] == t then Sp(t) else Before(m, free, i)
  {
  }

  lemma SaveThreads(m: Memory, free: seq<nat>, t: nat)
    requires InMemory(m, free) && Threads(m, free) && t !in free
    ensures Threads(Save(m, t), free)
  {
    forall i | 0 <= i <= |free| ensures Before(Save(m, t), free, i) == Target(free, i) {
      SaveBefore(m, free, t, i);
    }
  }

  /** The first right links before the i-th free slot, whose task is saved. */
  lemma SaveBreaksAt(m: Memory, free: seq<nat>, i: nat)
    requires InMemory(m, free) && i < |free|
    requires forall j :: 0 <= j <= i ==> Before(m, free, j) == Target(free, j)
    ensures BreaksAt(Save(m, free[i]), free, i + 1)
  {
    forall j | 0 <= j <= i ensures Before(Save(m, free[i]), free, j) == Target(free, j) {
      SaveBefore(m, free, free[i], j);
    }
    SaveBefore(m, free, free[i], i + 1);
  }

  lemma SaveBreaks(m: Memory, free: seq<nat>, t: nat)
    requires InMemory(m, free) && Threads(m, free) && t in free
    ensures Broken(Save(m, t), free)
  {
    var i: nat :| i < |free| && free[i] == t;
    SaveBreaksAt(m, free, i);
  }

  lemma SaveBroken(m: Memory, free: seq<nat>, t: nat)
    requires InMemory(m, free) && Broken(m, free)
    ensures Broken(Save(m, t), free)
  {
    var j: nat :| BreaksAt(m, free, j);
    if i: nat :| i < j && free[i] == t {
      SaveBreaksAt(m, free, i);
    } else {
      forall i | 0 <= i <= j ensures Before(Save(m, t), free, i) == Before(m, free, i) {
        SaveBefore(m, free, t, i);
      }
      assert BreaksAt(Save(m, t), free, j);
    }
  }

  // ---------- every step, every run ----------

  /** The free list of the kernel: only a create takes from it, and only a kill adds to it. */
  lemma StepFree(k: State, op: Op)
    requires WellFormed(k) && Enabled(k, op)
    ensures Next(k, op).free ==
            if op.Create? && op.priority > 0 && k.free != [] then k.free[1..]
            else if op == Kill then [k.run.task] + k.free
            else k.free
  {
    if !op.Create? && !op.Lock? && !op.Unlock? {
      OtherPriorities(k, op);
    }
  }

  lemma FreeInMemory(k: State, m: Memory)
    requires WellFormed(k) && |m.first| == k.n
    ensures InMemory(m, k.free)
    ensures Runnable(k) ==> k.run.task < k.n && k.run.task !in k.free
  {
    QueuesDistinct(k);
    forall i | 0 <= i < |k.free| ensures k.free[i] < k.n {
      TimesIn(k.free, k.free[i]);
      assert Places(k, k.free[i]) <= if k.free[i] < k.n then 1 else 0;
    }
    if Runnable(k) {
      RunnableIsOnlyThere(k, k.run.task);
      TimesIn(k.free, k.run.task);
    }
  }

  /** The tick interrupts a task whose slot is free: one that was killed. */
  ghost predicate SavesDead(k: State, op: Op) {
    op == Tick && k.run.Thread? && k.run.task in k.free
  }

  lemma StepThreads(m: Memory, k: State, op: Op)
    requires WellFormed(k) && Enabled(k, op) && |m.first| == k.n && Threads(m, k.free)
    ensures if SavesDead(k, op) then Broken(After(m, k, op), Next(k, op).free)
            else Threads(After(m, k, op), Next(k, op).free)
  {
    StepFree(k, op);
    FreeInMemory(k, m);
    match op
    case Create(_) => TakeThreads(m, k.free);
    case Kill => GiveThreads(m, k.free, k.run.task);
    case Tick =>
      if SavesDead(k, op) {
        SaveBreaks(m, k.free, k.run.task);
      } else if k.run.Thread? {
        SaveThreads(m, k.free, k.run.task);
      }
    case _ =>
  }

  lemma StepBroken(m: Memory, k: State, op: Op)
    requires WellFormed(k) && Enabled(k, op) && |m.first| == k.n && Broken(m, k.free)
    ensures Broken(After(m, k, op), Next(k, op).free)
  {
    StepFree(k, op);
    FreeInMemory(k, m);
    match op
    case Create(_) => TakeBroken(m, k.free);
    case Kill => GiveBroken(m, k.free, k.run.task);
    case Tick => if k.run.Thread? { SaveBroken(m, k.free, k.run.task); }
    case _ =>
  }

  /** A step keeps the links in memory those of the free list if and only if it does not save a dead task. */
  lemma StepLinks(m: Memory, k: State, op: Op)
    requires WellFormed(k) && Enabled(k, op) && |m.first| == k.n && Threads(m, k.free)
    ensures Threads(After(m, k, op), Next(k, op).free) <==> !SavesDead(k, op)
  {
    StepThreads(m, k, op);
    if SavesDead(k, op) {
      BrokenNotThreads(After(m, k, op), Next(k, op).free);
    }
  }
  /** The words after a run. */
  ghost function AfterAll(m: Memory, k: State, ops: seq<Op>): (r: Memory)
    requires IsRun(k, ops)
    decreases |ops|
  {
    if ops == [] then m else AfterAll(After(m, k, ops[0]), Next(k, ops[0]), ops[1..])
  }

  ghost predicate NeverSavesDead(k: State, ops: seq<Op>)
    requires IsRun(k, ops)
    decreases |ops|
  {
    ops == [] || (!SavesDead(k, ops[0]) && NeverSavesDead(Next(k, ops[0]), ops[1..]))
  }

  lemma {:induction false} RunBroken(m: Memory, k: State, ops: seq<Op>)
    requires WellFormed(k) && IsRun(k, ops) && |m.first| == k.n && Broken(m, k.free)
    ensures Broken(AfterAll(m, k, ops), Exec(k, ops).free)
    decreases |ops|
  {
    if ops != [] {
      StepBroken(m, k, ops[0]);
      StepWellFormed(k, ops[0]);
      StepSize(k, ops[0]);
      RunBroken(After(m, k, ops[0]), Next(k, ops[0]), ops[1..]);
    }
  }

  /**
   Over whole runs: the links are those of the free list if and only if no tick on the way has
   interrupted a dead task, and nothing mends them.
   */
  lemma {:induction false} RunLinks(m: Memory, k: State, ops: seq<Op>)
    requires WellFormed(k) && IsRun(k, ops) && |m.first| == k.n && Threads(m, k.free)
    ensures Threads(AfterAll(m, k, ops), Exec(k, ops).free) <==> NeverSavesDead(k, ops)
    decreases |ops|
  {
    if ops != [] {
      var m', k' := After(m, k, ops[0]), Next(k, ops[0]);
      StepThreads(m, k, ops[0]);
      StepWellFormed(k, ops[0]);
      StepSize(k, ops[0]);
      if SavesDead(k, ops[0]) {
        RunBroken(m', k', ops[1..]);
        BrokenNotThreads(AfterAll(m', k', ops[1..]), Exec(k', ops[1..]).free);
      } else {
        RunLinks(m', k', ops[1..]);
      }
    }
  }

  /** pool_task_mem_init */
  function InitialMemory(n: nat): Memory {
    Memory(Target(Pool.Descending(n), 0), seq(n, i requires 0 <= i < n => if i == 0 then Null else Slot(i - 1)))
  }

  lemma {:induction false} DescendingAt(n: nat, i: nat)
    ensures |Pool.Descending(n)| == n
    ensures i < n ==> Pool.Descending(n)[i] == n - 1 - i
  {
    if n > 0 {
      DescendingAt(n - 1, if i > 0 then i - 1 else 0);
    }
  }

  lemma InitialThreads(n: nat)
    ensures Threads(InitialMemory(n), Pool.Descending(n))
  {
    var m, free := InitialMemory(n), Pool.Descending(n);
    DescendingAt(n, 0);
    forall i | 0 <= i <= |free| ensures Before(m, free, i) == Target(free, i) {
      DescendingAt(n, i);
      if i > 0 {
        DescendingAt(n, i - 1);
      }
    }
  }

  /** In every run from os_init the pool works as module Kernel says up to the first tick after a kill. */
  lemma LinksFromInit(n: nat, values: seq<nat>, mutexes: nat, ops: seq<Op>)
    requires n <= VAL_MAX && IsRun(Initial(n, values, mutexes), ops)
    ensures var k := Initial(n, values, mutexes);
            Threads(AfterAll(InitialMemory(n), k, ops), Exec(k, ops).free) <==> NeverSavesDead(k, ops)
  {
    InitialSound(n, values, mutexes);
    InitialThreads(n);
    RunLinks(InitialMemory(n), Initial(n, values, mutexes), ops);
  }

  /**
   The tick that has to follow a kill is such a tick. The next create then gets the dead slot, and
   leaves as head of the free list a pointer into the stack of that slot, whatever else was free.
   */
  lemma KillLosesPool(m: Memory, k: State)
    requires WellFormed(k) && Enabled(k, Kill) && !k.leaked && |m.first| == k.n && Threads(m, k.free)
    ensures var k' := Next(k, Kill); var m' := After(After(m, k, Kill), k', Tick);
            && Enabled(k', Tick) && SavesDead(k', Tick)
            && m'.head == Slot(k.run.task) && Take(m').head == Sp(k.run.task)
  {
    StepFree(k, Kill);
    FreeInMemory(k, m);
  }

  // ---------- a run from os_init ----------

  lemma {:induction false} WordsOfTrace(ms: seq<Memory>, states: seq<State>, ops: seq<Op>)
    requires Trace(states, ops) && |ms| == |ops| + 1
    requires forall i :: 0 <= i < |ops| ==> ms[i + 1] == After(ms[i], states[i], ops[i])
    ensures IsRun(states[0], ops) && AfterAll(ms[0], states[0], ops) == ms[|ops|]
    decreases |ops|
  {
    TraceRuns(states, ops);
    if ops != [] {
      assert Leads(states[0], ops[0], states[1]);
      forall i | 0 <= i < |ops[1..]| ensures Leads(states[1..][i], ops[1..][i], states[1..][i + 1]) {
        assert Leads(states[i + 1], ops[i + 1], states[i + 2]);
      }
      WordsOfTrace(ms[1..], states[1..], ops[1..]);
    }
  }

  const REAPED: seq<State> := [
    State(3, [LOW, LOW, LOW], [2, 1, 0], [], 0, Head, Boot, [], [NONE, NONE, NONE], []),
    State(3, [LOW, LOW, LOW], [1, 0], [2], 1, Head, Boot, [], [NONE, NONE, NONE], []),
    State(3, [LOW, LOW, LOW], [0], [2, 1], 2, Head, Boot, [], [NONE, NONE, NONE], []),
    State(3, [LOW, LOW, LOW], [0], [2, 1], 2, On(2), Thread(2), [], [NONE, NONE, NONE], []),
    State(3, [LOW, LOW, LOW], [2, 0], [1], 1, On(1), Thread(2), [], [NONE, NONE, NONE], []),
    State(3, [LOW, LOW, LOW], [2, 0], [1], 1, On(1), Thread(1), [], [NONE, NONE, NONE], []),
    State(3, [LOW, LOW, LOW], [0], [1, 2], 2, On(1), Thread(1), [], [NONE, NONE, NONE], [])]

  const WORDS: seq<Memory> := [
    Memory(Slot(2), [Null, Slot(0), Slot(1)]),
    Memory(Slot(1), [Null, Slot(0), Sp(2)]),
    Memory(Slot(0), [Null, Sp(1), Sp(2)]),
    Memory(Slot(0), [Null, Sp(1), Sp(2)]),
    Memory(Slot(2), [Null, Sp(1), Slot(0)]),
    Memory(Slot(2), [Null, Sp(1), Sp(2)]),
    Memory(Sp(2), [Null, Sp(1), Sp(2)])]

  const REAPING := [Create(1), Create(1), Launch, Kill, Tick, Create(1)]

  lemma ReapStarts()
    ensures Initial(3, [], 0) == REAPED[0] && InitialMemory(3) == WORDS[0]
    ensures Leads(REAPED[0], Create(1), REAPED[1]) && Leads(REAPED[1], Create(1), REAPED[2])
    ensures Leads(REAPED[2], Launch, REAPED[3])
  {
    assert Pool.Descending(3) == [2, 1, 0];
  }

  lemma ReapKills()
    ensures Leads(REAPED[3], Kill, REAPED[4])
  {
    FirstOfTwo(2, 1);
  }

  lemma ReapMoves()
    ensures Leads(REAPED[4], Tick, REAPED[5])
  {
    TickAwake(REAPED[4]);
  }

  lemma ReapReuses()
    ensures Leads(REAPED[5], Create(1), REAPED[6])
  {
    assert [1] + [2] == [1, 2];
  }

  lemma ReapTrace()
    ensures Initial(3, [], 0) == REAPED[0] && InitialMemory(3) == WORDS[0] && Trace(REAPED, REAPING)
  {
    ReapStarts();
    ReapKills();
    ReapMoves();
    ReapReuses();
  }

  lemma ReapWords()
    ensures forall i :: 0 <= i < 6 ==> WORDS[i + 1] == After(WORDS[i], REAPED[i], REAPING[i])
  {
  }

  /**
   Of three slots two are used and one task is killed. The next create gets its slot; the one after
   that should get the third, but finds a pointer into a stack at the head of the free list.
   */
  lemma SecondCreateWild()
    ensures var k := Initial(3, [], 0);
            && IsRun(k, REAPING) && Enabled(Exec(k, REAPING), Create(1)) && Exec(k, REAPING).free == [0]
            && AfterAll(InitialMemory(3), k, REAPING).head == Sp(2)
  {
    ReapTrace();
    ReapWords();
    TraceRuns(REAPED, REAPING);
    WordsOfTrace(WORDS, REAPED, REAPING);
  }
}
