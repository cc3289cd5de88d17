/**
 When two tasks sleep at the same time, and for how long: the promise of a sleep, and a run from
 os_init in which it ends early.
 */
module Deadlines {
  import opened Cursors
  import opened SleepHeap
  import opened SleepTick
  import opened Wakeups
  import opened Semaphores
  import opened Kernel
  import opened Conservation
  import opened Invariants
  import opened RoundRobin
  import opened Sleeping
  import opened Failures
  import Pool

  // ---------- two sleepers ----------

  /** After how many further ticks the second of two sleepers wakes. */
  function SecondWait(x: Node, y: Node): nat {
    if y.priority > x.ticks then y.priority - x.ticks + 1 else 1
  }

  lemma PairTick(x: Node, y: Node)
    requires Tame([x, y]) && x.priority >= 1
    ensures HeapTick([x, y]) == if x.priority > 1 then Drained([x.(priority := x.priority - 1), y], [])
                                else Drained([ExactRebase(y, x.ticks)], [x.task])
  {
    var h := [x, y];
    DecTame(h);
    var d := DecRoot(h);
    assert d == [x.(priority := x.priority - 1), y];
    if x.priority == 1 {
      assert Pop(d) == SiftDown([y], 1, y) == [y];
      TailTame(h);
      RebaseTame([y], x.ticks);
      assert h[1..] == [y];
      assert Rebase([y], x.ticks) == [ExactRebase(y, x.ticks)];
      assert Drain([ExactRebase(y, x.ticks)], 1) == Drained([ExactRebase(y, x.ticks)], []);
    }
  }

  lemma {:induction false} NobodyWakes(n: nat)
    ensures HeapTicks([], n) == Drained([], [])
    decreases n
  {
    if n > 0 {
      NobodyWakes(n - 1);
    }
  }

  /** A lone sleeper, for any number of ticks. */
  lemma LoneAlways(x: Node, n: nat)
    requires -INT_LIMIT < x.priority < INT_LIMIT
    ensures HeapTicks([x], n).woken == if n < (if x.priority >= 1 then x.priority else 1) then [] else [x.task]
  {
    var w := if x.priority >= 1 then x.priority else 1;
    if x.priority >= 1 {
      LoneNode(x, if n < w then n else w);
    } else {
      LoneNegative(x);
      assert n == 0 ==> HeapTicks([x], n).woken == [];
    }
    if n > w {
      assert HeapTicks([x], w) == Drained([], [x.task]);
      TicksSplit([x], w, n - w);
      NobodyWakes(n - w);
    }
  }

  lemma {:induction false} TicksSplit(h: seq<Node>, a: nat, b: nat)
    ensures var r := HeapTicks(h, a); var s := HeapTicks(r.heap, b);
            HeapTicks(h, a + b) == Drained(s.heap, r.woken + s.woken)
    decreases a
  {
    hide HeapTick;
    var r := HeapTicks(h, a);
    var s := HeapTicks(r.heap, b);
    if a == 0 {
      assert [] + s.woken == s.woken;
    } else {
      var d := HeapTick(h);
      TicksSplit(d.heap, a - 1, b);
      var e := HeapTicks(d.heap, a - 1);
      assert (d.woken + e.woken) + s.woken == d.woken + (e.woken + s.woken);
    }
  }

  /**
   Two sleepers, of which x is the first to wake, and nobody else: x wakes when its priority has been
   counted down, and y as many ticks later as its priority exceeds the ticks x asked for, and one more.
   */
  lemma {:induction false} PairWakes(x: Node, y: Node, n: nat)
    requires Tame([x, y]) && x.priority >= 1
    ensures HeapTicks([x, y], n).woken ==
            if n < x.priority then [] else if n < x.priority + SecondWait(x, y) then [x.task] else [x.task, y.task]
    decreases n
  {
    if n > 0 {
      PairTick(x, y);
      if x.priority > 1 {
        var x' := x.(priority := x.priority - 1);
        LowerTame(x, y);
        PairWakes(x', y, n - 1);
      } else {
        TailTame([x, y]);
        assert [x, y][1..] == [y];
        RebaseTame([y], x.ticks);
        assert Rebase([y], x.ticks) == [ExactRebase(y, x.ticks)];
        RootTicks(Rebase([y], x.ticks));
        assert TameNode(Rebase([y], x.ticks)[0]);
        LoneAlways(ExactRebase(y, x.ticks), n - 1);
      }
    }
  }

  lemma LowerTame(x: Node, y: Node)
    requires Tame([x, y]) && x.priority > 1
    ensures Tame([x.(priority := x.priority - 1), y])
  {
    DecTame([x, y]);
    assert DecRoot([x, y]) == [x.(priority := x.priority - 1), y];
  }

  /** On which tick the second sleeper wakes, once it was pushed under the first. */
  lemma PushedUnder(a: nat, b: nat, p: nat, d: nat, e: nat, n: nat)
    requires a != b && 1 <= p <= d && p <= e && d + e < INT_LIMIT
    ensures b in HeapTicks(Push([Node(p, a, d)], e, NodeFor(b, e)), n).woken <==>
            n >= p + if e > d then e - d + 1 else 1
  {
    hide Tame, Push, HeapTicks;
    TamePair(a, b, p, d, e);
    PairWakes(Node(p, a, d), NodeFor(b, e), n);
  }

  lemma TamePair(a: nat, b: nat, p: nat, d: nat, e: nat)
    requires 1 <= p <= d && p <= e && d + e < INT_LIMIT
    ensures Tame([Node(p, a, d), NodeFor(b, e)])
    ensures Push([Node(p, a, d)], e, NodeFor(b, e)) == [Node(p, a, d), NodeFor(b, e)]
  {
    var x, y := Node(p, a, d), NodeFor(b, e);
    assert [x] + [y] == [x, y];
    assert Sum(TicksOf, [x, y]) == d + Sum(TicksOf, [y]) && Sum(TicksOf, [y]) == e + Sum(TicksOf, []);
    assert [x, y][1..] == [y] && [y][1..] == [];
  }

  /**
   A task goes to sleep for e ticks while another, which sleeps for d, has p of them left and is due no
   later. It wakes on exactly the e-th tick if and only if the other has slept for one tick, where e is
   above d, or has one tick less to go, where it is not. Of longer sleeps each tick before counts twice.
   */
  lemma SecondSleepExact(a: nat, b: nat, p: nat, d: nat, e: nat)
    requires a != b && 1 <= p <= d && p <= e && d + e < INT_LIMIT
    ensures (forall n :: 0 <= n <= e ==>
               (b in HeapTicks(Push([Node(p, a, d)], e, NodeFor(b, e)), n).woken <==> n == e))
            <==> if e > d then p == d - 1 else p == e - 1
  {
    var h := Push([Node(p, a, d)], e, NodeFor(b, e));
    var w: nat := p + if e > d then e - d + 1 else 1;
    forall n | 0 <= n <= e ensures b in HeapTicks(h, n).woken <==> n >= w {
      PushedUnder(a, b, p, d, e, n);
    }
    if w != e {
      var n := if w < e then w else e;
      assert !(b in HeapTicks(h, n).woken <==> n == e);
      assert !(forall n :: 0 <= n <= e ==> (b in HeapTicks(h, n).woken <==> n == e));
      assert !(if e > d then p == d - 1 else p == e - 1);
    } else {
      assert forall n :: 0 <= n <= e ==> (b in HeapTicks(h, n).woken <==> n == e);
      assert if e > d then p == d - 1 else p == e - 1;
    }
  }

  // ---------- a run from os_init ----------

  /** Task 2 sleeps for 4 ticks, and after two of them task 1 for 6. */
  const NAPS := [Create(1), Create(1), Launch, Sleep(4), Tick, Tick, Sleep(6)]

  const NAPPERS: seq<State> := [
    State(3, [LOW, LOW, LOW], [2, 1, 0], [], 0, Head, Boot, [], [NONE, NONE, NONE], []),
    State(3, [LOW, LOW, LOW], [1, 0], [2], 1, Head, Boot, [], [NONE, NONE, NONE], []),
    State(3, [LOW, LOW, LOW], [0], [2, 1], 2, Head, Boot, [], [NONE, NONE, NONE], []),
    State(3, [LOW, LOW, LOW], [0], [2, 1], 2, On(2), Thread(2), [], [NONE, NONE, NONE], []),
    State(3, [LOW, LOW, NAPPING], [0], [1], 1, On(1), Thread(2), [Node(4, 2, 4)], [NONE, NONE, NONE], []),
    State(3, [LOW, LOW, NAPPING], [0], [1], 1, On(1), Thread(1), [Node(3, 2, 4)], [NONE, NONE, NONE], []),
    State(3, [LOW, LOW, NAPPING], [0], [1], 1, On(1), Thread(1), [Node(2, 2, 4)], [NONE, NONE, NONE], []),
    State(3, [LOW, NAPPING, NAPPING], [0], [], 0, On(1), Thread(1), [Node(2, 2, 4), Node(6, 1, 6)],
          [NONE, NONE, NONE], [])]

  lemma NapStarts()
    ensures Initial(3, [], 0) == NAPPERS[0]
    ensures Leads(NAPPERS[0], Create(1), NAPPERS[1]) && Leads(NAPPERS[1], Create(1), NAPPERS[2])
  {
    assert Pool.Descending(3) == [2, 1, 0];
  }

  lemma NapLaunches()
    ensures Leads(NAPPERS[2], Launch, NAPPERS[3])
  {
  }

  lemma FirstNap()
    ensures Leads(NAPPERS[3], Sleep(4), NAPPERS[4])
  {
    hide Without, Backward;
    FirstOfTwo(2, 1);
    assert [] + [Node(4, 2, 4)] == [Node(4, 2, 4)];
  }

  lemma NapTicks()
    ensures Leads(NAPPERS[4], Tick, NAPPERS[5]) && Leads(NAPPERS[5], Tick, NAPPERS[6])
  {
    assert HeapTick([Node(4, 2, 4)]) == Drained([Node(3, 2, 4)], []);
    assert HeapTick([Node(3, 2, 4)]) == Drained([Node(2, 2, 4)], []);
  }

  lemma SecondNap()
    ensures Leads(NAPPERS[6], Sleep(6), NAPPERS[7])
  {
    var h := [Node(2, 2, 4), Node(6, 1, 6)];
    assert [Node(2, 2, 4)] + [Node(6, 1, 6)] == h;
    assert SiftUp(h, 2, 6, Node(6, 1, 6)) == h;
  }

  lemma NapRuns()
    ensures IsRun(Initial(3, [], 0), NAPS) && Exec(Initial(3, [], 0), NAPS) == NAPPERS[7]
  {
    hide Leads;
    NapStarts();
    NapLaunches();
    FirstNap();
    NapTicks();
    SecondNap();
    assert Trace(NAPPERS, NAPS);
    TraceRuns(NAPPERS, NAPS);
  }

  /** The second task, which asked for 6 ticks, is runnable after 5. */
  lemma WokenEarly()
    ensures IsRun(Initial(3, [], 0), NAPS)
    ensures var k := Exec(Initial(3, [], 0), NAPS); 1 !in k.runq && 1 in Ticks(k, 5).runq
  {
    NapRuns();
    InitialSound(3, [], 0);
    RunWellFormed(Initial(3, [], 0), NAPS);
    var k := Exec(Initial(3, [], 0), NAPS);
    TicksAppend(k, 5);
    SecondOfPair();
    assert k.sleep == [Node(2, 2, 4), Node(6, 1, 6)];
    assert Ticks(k, 5).runq == k.runq + HeapTicks(k.sleep, 5).woken;
  }

  lemma SecondOfPair()
    ensures 1 in HeapTicks([Node(2, 2, 4), Node(6, 1, 6)], 5).woken
  {
    var x, y := Node(2, 2, 4), Node(6, 1, 6);
    assert [x] + [y] == [x, y] && Push([x], 6, y) == [x, y];
    PushedUnder(2, 1, 2, 4, 6, 5);
  }
}
