/**
 A run from os_init in which three sleeps, each shorter than 2^15 ticks, make the ticks in the heap
 add up to more, so that a sleep of 100 ticks lasts for 25638.
 */
module Overload {
  import opened Cursors
  import opened SleepHeap
  import opened SleepTick
  import opened Semaphores
  import opened Kernel
  import opened Conservation
  import opened Invariants
  import opened RoundRobin
  import opened Sleeping
  import opened Failures
  import Pool

  const STARTING := [Create(1), Create(1), Create(1), Launch, Sleep(20000), Tick, Sleep(20000), Tick]
  const NAPPED := [Tick, Sleep(100), Tick]

  /** The first part of the run, up to the tick after the second sleep. */
  const BOTH: seq<State> := [
    BELOW[0], BELOW[1], BELOW[2], BELOW[3], BELOW[4],
    State(4, [LOW, LOW, LOW, NAPPING], [0], [2, 1], 2, On(1), Thread(3), [Node(20000, 3, 20000)], NO_JOINERS, []),
    State(4, [LOW, LOW, LOW, NAPPING], [0], [2, 1], 2, On(2), Thread(2), [Node(19999, 3, 20000)], NO_JOINERS, []),
    State(4, [LOW, LOW, NAPPING, NAPPING], [0], [1], 1, On(1), Thread(2), TwoAsleep(19999), NO_JOINERS, []),
    Alone(TwoAsleep(19998))]

  /** The second part, from the tick that wakes the first sleeper on. */
  const LATE: seq<State> := [
    Alone(TwoAsleep(1)),
    State(4, [LOW, LOW, NAPPING, LOW], [0], [1, 3], 2, On(3), Thread(3), [Node(1, 2, 40000)], NO_JOINERS, []),
    State(4, [LOW, LOW, NAPPING, NAPPING], [0], [1], 1, On(1), Thread(3),
          [Node(1, 2, 40000), Node(100, 3, 100)], NO_JOINERS, []),
    State(4, [LOW, LOW, LOW, NAPPING], [0], [1, 2], 2, On(2), Thread(2), [Node(25637, 3, 40100)], NO_JOINERS, [])]

  /** Task 3 sleeps with p ticks left, and task 2 for 20000. */
  function TwoAsleep(p: int): seq<Node> {
    [Node(p, 3, 20000), Node(20000, 2, 20000)]
  }

  /** Task 1 runs alone. */
  function Alone(h: seq<Node>): State {
    State(4, [LOW, LOW, NAPPING, NAPPING], [0], [1], 1, On(1), Thread(1), h, NO_JOINERS, [])
  }

  lemma Starts()
    ensures Initial(4, [], 0) == BOTH[0]
    ensures Leads(BOTH[0], Create(1), BOTH[1]) && Leads(BOTH[1], Create(1), BOTH[2])
    ensures Leads(BOTH[2], Create(1), BOTH[3]) && Leads(BOTH[3], Launch, BOTH[4])
  {
    BelowStarts();
    BelowCreates();
    BelowCreatesMore();
    BelowLaunches();
  }

  lemma FirstSleeps()
    ensures Leads(BOTH[4], Sleep(20000), BOTH[5]) && Leads(BOTH[5], Tick, BOTH[6])
  {
    assert [] + [Node(20000, 3, 20000)] == [Node(20000, 3, 20000)];
    assert HeapTick([Node(20000, 3, 20000)]) == Drained([Node(19999, 3, 20000)], []);
  }

  lemma SecondSleeps()
    ensures Leads(BOTH[6], Sleep(20000), BOTH[7])
  {
    assert [Node(19999, 3, 20000)] + [Node(20000, 2, 20000)] == TwoAsleep(19999);
    assert SiftUp(TwoAsleep(19999), 2, 20000, Node(20000, 2, 20000)) == TwoAsleep(19999);
  }

  lemma BothSleep()
    ensures Leads(BOTH[7], Tick, BOTH[8])
  {
    assert DecRoot(TwoAsleep(19999)) == TwoAsleep(19998);
    assert HeapTick(TwoAsleep(19999)) == Drained(TwoAsleep(19998), []);
  }

  lemma StartRuns()
    ensures IsRun(Initial(4, [], 0), STARTING) && Exec(Initial(4, [], 0), STARTING) == Alone(TwoAsleep(19998))
  {
    Starts();
    FirstSleeps();
    SecondSleeps();
    BothSleep();
    assert Trace(BOTH, STARTING);
    TraceRuns(BOTH, STARTING);
  }

  // ---------- task 1 runs alone until the first sleeper is due ----------

  lemma AloneTick(h: seq<Node>)
    requires NotDue(h, 1)
    ensures Leads(Alone(h), Tick, Alone(Later(h, 1)))
  {
    QuietTick(Alone(h));
  }

  lemma TickFirst(k: State, r: State, m: nat)
    requires Leads(k, Tick, r) && IsRun(r, seq(m, _ => Tick))
    ensures IsRun(k, seq(m + 1, _ => Tick)) && Exec(k, seq(m + 1, _ => Tick)) == Exec(r, seq(m, _ => Tick))
  {
    var ops := seq(m + 1, _ => Tick);
    assert ops[0] == Tick && ops[1..] == seq(m, _ => Tick);
  }

  lemma {:induction false} AloneTicks(h: seq<Node>, m: nat)
    requires NotDue(h, m)
    ensures IsRun(Alone(h), seq(m, _ => Tick)) && Exec(Alone(h), seq(m, _ => Tick)) == Alone(Later(h, m))
    decreases m
  {
    hide Alone, Leads, Next, Enabled;
    if m == 0 {
      assert Later(h, 0) == h;
    } else {
      AloneTick(h);
      AloneTicks(Later(h, 1), m - 1);
      TickFirst(Alone(h), Alone(Later(h, 1)), m - 1);
      assert Later(Later(h, 1), m - 1) == Later(h, m);
    }
  }

  // ---------- the nap ----------

  lemma FirstDue()
    ensures Leads(LATE[0], Tick, LATE[1])
  {
    var y := Node(20000, 2, 20000);
    assert DecRoot(TwoAsleep(1)) == TwoAsleep(0);
    assert Pop(TwoAsleep(0)) == SiftDown([y], 1, y) == [y];
    assert Rebase([y], 20000) == [Node(1, 2, 40000)];
    assert Drain([Node(1, 2, 40000)], 1) == Drained([Node(1, 2, 40000)], []);
    assert HeapTick(TwoAsleep(1)) == Drained([Node(1, 2, 40000)], [3]);
    OneWakes(LATE[0], [Node(1, 2, 40000)], 3);
  }

  lemma Naps()
    ensures Leads(LATE[1], Sleep(100), LATE[2])
  {
    var h := [Node(1, 2, 40000), Node(100, 3, 100)];
    assert [Node(1, 2, 40000)] + [Node(100, 3, 100)] == h;
    assert SiftUp(h, 2, 100, Node(100, 3, 100)) == h;
  }

  /** Rebasing 100 by 40000 wraps round. */
  lemma SecondDue()
    ensures Leads(LATE[2], Tick, LATE[3])
  {
    var x := Node(100, 3, 100);
    var d := [Node(0, 2, 40000), x];
    assert DecRoot(LATE[2].sleep) == d;
    assert Pop(d) == SiftDown([x], 1, x) == [x];
    assert (100 - 39999) % WORD == 25637;
    assert Rebase([x], 40000) == [Node(25637, 3, 40100)];
    assert Drain([Node(25637, 3, 40100)], 1) == Drained([Node(25637, 3, 40100)], []);
    assert HeapTick(LATE[2].sleep) == Drained([Node(25637, 3, 40100)], [2]);
    OneWakes(LATE[2], [Node(25637, 3, 40100)], 2);
  }

  lemma NapRuns()
    ensures IsRun(LATE[0], NAPPED) && Exec(LATE[0], NAPPED) == LATE[3]
  {
    FirstDue();
    Naps();
    SecondDue();
    assert Trace(LATE, NAPPED);
    TraceRuns(LATE, NAPPED);
  }

  // ---------- the whole run ----------

  function Whole(): seq<Op> {
    STARTING + seq(19997, _ => Tick) + NAPPED
  }

  lemma QuietRuns()
    ensures var quiet := seq(19997, _ => Tick); var k := Alone(TwoAsleep(19998));
            IsRun(k, quiet) && Exec(k, quiet) == LATE[0]
  {
    hide IsRun, Exec;
    AloneTicks(TwoAsleep(19998), 19997);
  }

  lemma WholeRuns()
    ensures IsRun(Initial(4, [], 0), Whole()) && Exec(Initial(4, [], 0), Whole()) == LATE[3]
  {
    StartRuns();
    QuietRuns();
    NapRuns();
    RunsOn(Initial(4, [], 0), STARTING, seq(19997, _ => Tick));
    RunsOn(Initial(4, [], 0), STARTING + seq(19997, _ => Tick), NAPPED);
  }

  /** From there on the sleeper of 100 ticks stays asleep while fewer than 25637 more ticks come. */
  lemma StaysAsleep(k: State, more: seq<Op>)
    requires WellFormed(k) && k.sleep == [Node(25637, 3, 40100)]
    requires IsRun(k, more) && NoSleeps(more) && TickCount(more) < 25637
    ensures Tasks(Exec(k, more).sleep) == [3]
  {
    HeapEvolves(k, more);
    LoneNode(Node(25637, 3, 40100), TickCount(more));
  }

  /** The second sleep of 20000 ticks is the one that overloads the heap. */
  lemma SecondOverloads()
    ensures !Overloads(BOTH[4], Sleep(20000))
    ensures Enabled(BOTH[6], Sleep(20000)) && Overloads(BOTH[6], Sleep(20000))
  {
    assert TotalTicks([Node(19999, 3, 20000)]) == 20000 + Sum(TicksOf, []);
  }

  /**
   Two tasks sleep for 20000 ticks each, a third runs alone, and a tick wakes the first, which then
   sleeps for 100. Whatever the tasks do from there on short of another sleep, it is not awake before
   the tick after its sleep and 25637 more have passed.
   */
  lemma ShortSleepLastsLong(more: seq<Op>)
    ensures IsRun(Initial(4, [], 0), Whole())
    ensures var k := Exec(Initial(4, [], 0), Whole());
            IsRun(k, more) && NoSleeps(more) && TickCount(more) < 25637 ==> Tasks(Exec(k, more).sleep) == [3]
  {
    WholeRuns();
    InitialSound(4, [], 0);
    RunWellFormed(Initial(4, [], 0), Whole());
    var k := Exec(Initial(4, [], 0), Whole());
    if IsRun(k, more) && NoSleeps(more) && TickCount(more) < 25637 {
      StaysAsleep(k, more);
    }
  }
}
