/**
 What one tick does to the sleep heap (the first loop of os_update): decrement the root, and
 while it is due and more than half of the sleepers are left, pop it, wake its task and
 rebase the new root.
 */
module SleepTick {
  import opened Sequences
  import opened SleepHeap

  function Tasks(h: seq<Node>): (r: seq<nat>)
    ensures |r| == |h|
  {
    seq(|h|, i requires 0 <= i < |h| => h[i].task)
  }

  function DecRoot(h: seq<Node>): (r: seq<Node>)
    requires h != []
    ensures |r| == |h|
  {
    h[0 := h[0].(priority := Signed(h[0].priority - 1))]
  }

  /** The new root moves closer by the ticks of the popped node, which it adds to its own. */
  function Rebase(h: seq<Node>, ticks: nat): (r: seq<Node>)
    ensures |r| == |h|
  {
    if h == [] then [] else
    h[0 := Node(Signed(h[0].priority - (ticks - 1)), h[0].task, (h[0].ticks + ticks) % WORD)]
  }

  datatype Drained = Drained(heap: seq<Node>, woken: seq<nat>)

  /** The wake loop, which runs while more than keep sleepers are left. */
  function Drain(h: seq<Node>, keep: nat): (r: Drained)
    ensures |r.heap| + |r.woken| == |h|
    ensures |r.heap| >= keep || r == Drained(h, [])
    decreases |h|
  {
    if |h| > keep then
      var d := DecRoot(h);
      if d[0].priority <= 0 then
        var r := Drain(Rebase(Pop(d), d[0].ticks), keep);
        Drained(r.heap, [d[0].task] + r.woken)
      else
        Drained(d, [])
    else
      Drained(h, [])
  }

  function HeapTick(h: seq<Node>): Drained {
    Drain(h, |h| / 2)
  }

  /** n ticks with no push in between; woken lists the tasks in the order they wake. */
  function HeapTicks(h: seq<Node>, n: nat): Drained
    decreases n
  {
    if n == 0 then Drained(h, []) else
    var r := HeapTick(h);
    var s := HeapTicks(r.heap, n - 1);
    Drained(s.heap, r.woken + s.woken)
  }

  /** A tick wakes at most half of the sleepers, rounded up. */
  lemma WakeBound(h: seq<Node>)
    ensures |HeapTick(h).woken| <= (|h| + 1) / 2
  {
  }

  lemma {:induction false} DrainStops(h: seq<Node>, keep: nat)
    requires keep <= |h|
    ensures var r := Drain(h, keep).heap; |r| == keep || (|r| > keep && r[0].priority > 0)
    decreases |h|
  {
    if |h| > keep {
      var d := DecRoot(h);
      if d[0].priority <= 0 {
        DrainStops(Rebase(Pop(d), d[0].ticks), keep);
      }
    }
  }

  /** A tick stops only with half of the sleepers left or with a root that is not due. */
  lemma TickStops(h: seq<Node>)
    ensures var r := HeapTick(h).heap; |r| == |h| / 2 || (|r| > |h| / 2 && r[0].priority > 0)
  {
    DrainStops(h, |h| / 2);
  }

  // ---------- every sleeper is either still in the heap or woken ----------

  lemma {:induction false} TasksOfMultiset(a: seq<Node>, b: seq<Node>)
    requires multiset(a) == multiset(b)
    ensures multiset(Tasks(a)) == multiset(Tasks(b))
    decreases |a|
  {
    if a == [] {
      assert |multiset(b)| == 0;
    } else {
      var x := a[0];
      assert x in multiset(b);
      var i :| 0 <= i < |b| && b[i] == x;
      var b' := b[..i] + b[i + 1..];
      MultisetOfHead(a);
      MultisetOfSplit(b, i);
      MultisetCancel(multiset(a[1..]), multiset(b[..i] + b[i + 1..]), multiset{x});
      TasksOfMultiset(a[1..], b');
      assert Tasks(a) == [x.task] + Tasks(a[1..]);
      assert Tasks(b') == Tasks(b)[..i] + Tasks(b)[i + 1..];
      MultisetOfSplit(Tasks(b), i);
    }
  }

  lemma PopTasks(h: seq<Node>)
    requires h != []
    ensures multiset(Tasks(h)) == multiset(Tasks(Pop(h))) + multiset{h[0].task}
  {
    PopContents(h);
    TasksOfMultiset(h, Pop(h) + [h[0]]);
    assert Tasks(Pop(h) + [h[0]]) == Tasks(Pop(h)) + [h[0].task];
  }

  lemma PushTasks(h: seq<Node>, priority: nat, x: Node)
    ensures multiset(Tasks(Push(h, priority, x))) == multiset(Tasks(h)) + multiset{x.task}
  {
    PushContents(h, priority, x);
    TasksOfMultiset(Push(h, priority, x), h + [x]);
    assert Tasks(h + [x]) == Tasks(h) + [x.task];
  }

  /** r accounts for every sleeper of h: still in the heap or woken, each once. */
  ghost predicate Accounts(h: seq<Node>, r: Drained) {
    multiset(Tasks(h)) == multiset(Tasks(r.heap)) + multiset(r.woken)
  }

  lemma AccountsChain(h: seq<Node>, r: Drained, s: Drained)
    requires Accounts(h, r) && Accounts(r.heap, s)
    ensures Accounts(h, Drained(s.heap, r.woken + s.woken))
  {
    MultisetOfAppend(r.woken, s.woken);
  }

  lemma AccountsNone(h: seq<Node>)
    ensures Accounts(h, Drained(h, []))
  {
  }

  lemma {:induction false} DrainTasks(h: seq<Node>, keep: nat)
    ensures Accounts(h, Drain(h, keep))
    decreases |h|
  {
    if |h| > keep {
      var d := DecRoot(h);
      assert Tasks(d) == Tasks(h);
      if d[0].priority <= 0 {
        var g := Rebase(Pop(d), d[0].ticks);
        PopTasks(d);
        assert Tasks(g) == Tasks(Pop(d));
        assert Accounts(h, Drained(g, [d[0].task]));
        DrainTasks(g, keep);
        AccountsChain(h, Drained(g, [d[0].task]), Drain(g, keep));
      }
    } else {
      AccountsNone(h);
    }
  }

  lemma {:induction false} HeapTicksTasks(h: seq<Node>, n: nat)
    ensures Accounts(h, HeapTicks(h, n))
    decreases n
  {
    hide Accounts, Drain;
    if n > 0 {
      var r := HeapTick(h);
      DrainTasks(h, |h| / 2);
      HeapTicksTasks(r.heap, n - 1);
      AccountsChain(h, r, HeapTicks(r.heap, n - 1));
    } else {
      AccountsNone(h);
    }
  }

  /** The nodes left by a pop are the nodes below the root. */
  lemma PopRest(h: seq<Node>)
    requires h != []
    ensures multiset(Pop(h)) == multiset(h[1..])
  {
    PopContents(h);
    MultisetOfHead(h);
    MultisetCancel(multiset(Pop(h)), multiset(h[1..]), multiset{h[0]});
  }

  /** A pop does not look at the root. */
  lemma PopIgnoresRoot(h: seq<Node>, x: Node)
    requires h != []
    ensures Pop(h[0 := x]) == Pop(h)
  {
    var n := |h| - 1;
    if n > 0 {
      assert h[0 := x][..n][0 := h[n]] == h[..n][0 := h[n]];
    }
  }

  // ---------- the arithmetic of a rebase ----------

  /** What a rebase would be without the 16-bit fields. */
  function ExactRebase(x: Node, ticks: nat): Node {
    Node(x.priority - (ticks - 1), x.task, x.ticks + ticks)
  }

  ghost predicate InWord(x: Node) {
    -INT_LIMIT <= x.priority < INT_LIMIT && x.ticks < WORD
  }

  /** A rebase is exact if and only if neither field leaves its 16 bits. */
  lemma RebaseExact(h: seq<Node>, ticks: nat)
    requires h != [] && InWord(h[0]) && 1 <= ticks < WORD
    ensures Rebase(h, ticks) == h[0 := ExactRebase(h[0], ticks)] <==>
            h[0].priority - (ticks - 1) >= -INT_LIMIT && h[0].ticks + ticks < WORD
  {
    assert Rebase(h, ticks)[0] == ExactRebase(h[0], ticks) <==> Rebase(h, ticks) == h[0 := ExactRebase(h[0], ticks)];
  }

  /** The new root comes no later than it would have if and only if its priority does not wrap round. */
  lemma RebaseNoLater(h: seq<Node>, ticks: nat)
    requires h != [] && 0 <= h[0].priority < INT_LIMIT && 1 <= ticks < WORD
    ensures Rebase(h, ticks)[0].priority <= h[0].priority <==> h[0].priority - (ticks - 1) >= -INT_LIMIT
  {
    var v := h[0].priority - (ticks - 1);
    if v < -INT_LIMIT {
      assert v % WORD == v + WORD;
    } else {
      assert v % WORD == if v < 0 then v + WORD else v;
    }
  }

  lemma LowerRootOrdered(h: seq<Node>, x: Node)
    requires Ordered(h) && h != [] && x.priority <= h[0].priority
    ensures Ordered(h[0 := x])
  {
    var r := h[0 := x];
    forall j | 2 <= j <= |r| ensures Edge(r, j) {
      assert Edge(h, j);
    }
  }

  /** It keeps the order of the heap if and only if that is so, or it still comes before its children. */
  lemma RebaseOrdered(h: seq<Node>, ticks: nat)
    requires Ordered(h) && h != [] && 0 <= h[0].priority < INT_LIMIT && 1 <= ticks < WORD
    ensures Ordered(Rebase(h, ticks)) <==>
            || h[0].priority - (ticks - 1) >= -INT_LIMIT
            || forall j :: 1 <= j <= 2 && j < |h| ==> Rebase(h, ticks)[0].priority <= h[j].priority
  {
    var r := Rebase(h, ticks);
    RebaseNoLater(h, ticks);
    if r[0].priority <= h[0].priority {
      LowerRootOrdered(h, r[0]);
    } else if forall j :: 1 <= j <= 2 && j < |h| ==> r[0].priority <= h[j].priority {
      forall j | 2 <= j <= |r| ensures Edge(r, j) {
        assert Edge(h, j);
      }
    } else {
      var j :| 1 <= j <= 2 && j < |h| && r[0].priority > h[j].priority;
      assert !Edge(r, j + 1);
    }
  }

  // ---------- order through a tick ----------

  lemma AnyRoot(h: seq<Node>, x: Node)
    requires Ordered(h) && h != []
    ensures OrderedAround(h[0 := x], 1)
  {
    var r := h[0 := x];
    forall j | 2 <= j <= |r| && j != 1 && j / 2 != 1 ensures Edge(r, j) {
      assert Edge(h, j);
    }
  }

  lemma AnyRootAround(h: seq<Node>, x: Node)
    requires OrderedAround(h, 1) && h != []
    ensures OrderedAround(h[0 := x], 1)
  {
    var r := h[0 := x];
    forall j | 2 <= j <= |r| && j != 1 && j / 2 != 1 ensures Edge(r, j) {
      assert Edge(h, j);
    }
  }

  /** Below the root a tick keeps the signed order, whatever wraps round in the root. */
  lemma {:induction false} DrainOrderedBelow(h: seq<Node>, keep: nat)
    requires OrderedAround(h, 1)
    ensures OrderedAround(Drain(h, keep).heap, 1)
    decreases |h|
  {
    if |h| > keep {
      var d := DecRoot(h);
      AnyRootAround(h, d[0]);
      if d[0].priority <= 0 {
        var g := Rebase(Pop(d), d[0].ticks);
        PopOrdered(d);
        if g != [] {
          AnyRoot(Pop(d), g[0]);
        }
        DrainOrderedBelow(g, keep);
      }
    }
  }

  // ---------- sums over a heap ----------

  function Sum(f: Node -> nat, h: seq<Node>): nat {
    if h == [] then 0 else f(h[0]) + Sum(f, h[1..])
  }

  lemma {:induction false} SumConcat(f: Node -> nat, a: seq<Node>, b: seq<Node>)
    ensures Sum(f, a + b) == Sum(f, a) + Sum(f, b)
    decreases |a|
  {
    if a == [] {
      assert a + b == b;
    } else {
      assert (a + b)[1..] == a[1..] + b;
      SumConcat(f, a[1..], b);
    }
  }

  lemma {:induction false} SumOfMultiset(f: Node -> nat, a: seq<Node>, b: seq<Node>)
    requires multiset(a) == multiset(b)
    ensures Sum(f, a) == Sum(f, b)
    decreases |a|
  {
    if a == [] {
      assert |multiset(b)| == 0;
    } else {
      var x := a[0];
      assert x in multiset(b);
      var i :| 0 <= i < |b| && b[i] == x;
      var rest := b[i + 1..];
      MultisetOfHead(a);
      MultisetOfSplit(b, i);
      MultisetCancel(multiset(a[1..]), multiset(b[..i] + b[i + 1..]), multiset{x});
      SumOfMultiset(f, a[1..], b[..i] + rest);
      SumConcat(f, b[..i], rest);
      SumConcat(f, b[..i], [x] + rest);
      assert b == b[..i] + ([x] + rest);
      assert ([x] + rest)[1..] == rest;
    }
  }

  lemma SumOfPop(f: Node -> nat, h: seq<Node>)
    requires h != []
    ensures Sum(f, h) == f(h[0]) + Sum(f, Pop(h))
  {
    PopRest(h);
    SumOfMultiset(f, Pop(h), h[1..]);
  }

  lemma SumOfRoot(f: Node -> nat, h: seq<Node>, x: Node)
    requires h != []
    ensures Sum(f, h[0 := x]) == Sum(f, h) - f(h[0]) + f(x)
  {
    assert h[0 := x][1..] == h[1..];
  }

  function Weight(x: Node): (w: nat)
    ensures w >= 1
  {
    if x.priority >= 1 then x.priority else 1
  }

  /** The sum of max(priority, 1) over the entries. */
  function Potential(h: seq<Node>): nat {
    Sum(Weight, h)
  }

  function TicksOf(x: Node): nat { x.ticks }

  /** The ticks of all entries together. Popping and rebasing moves them around. */
  function TotalTicks(h: seq<Node>): nat {
    Sum(TicksOf, h)
  }

  // ---------- heaps on which nothing wraps round ----------

  /** An entry is not further from its time than it asked for, nor further past it. */
  ghost predicate TameNode(x: Node) {
    x.ticks >= 1 && x.priority + x.ticks > 0 && x.priority <= x.ticks
  }

  /** All entries are tame, and their ticks add up to less than 2^15. */
  ghost predicate Tame(h: seq<Node>) {
    (forall j :: 0 <= j < |h| ==> TameNode(h[j])) && TotalTicks(h) < INT_LIMIT
  }

  lemma PopTame(h: seq<Node>)
    requires Tame(h) && h != []
    ensures Tame(Pop(h)) && TotalTicks(Pop(h)) + h[0].ticks == TotalTicks(h) && h[0].ticks >= 1
  {
    PopRest(h);
    SumOfPop(TicksOf, h);
    var p := Pop(h);
    forall j | 0 <= j < |p| ensures TameNode(p[j]) {
      assert p[j] in multiset(h[1..]);
    }
    assert TameNode(h[0]);
  }

  lemma RootTicks(h: seq<Node>)
    requires h != []
    ensures h[0].ticks <= TotalTicks(h)
  {
  }

  /** On a tame heap a rebase is exact, comes no later, and leaves the heap tame. */
  lemma RebaseTame(h: seq<Node>, ticks: nat)
    requires Tame(h) && h != [] && ticks >= 1 && TotalTicks(h) + ticks < INT_LIMIT
    ensures Rebase(h, ticks) == h[0 := ExactRebase(h[0], ticks)] && Tame(Rebase(h, ticks))
    ensures Rebase(h, ticks)[0].priority <= h[0].priority
  {
    assert TameNode(h[0]);
    RootTicks(h);
    RebaseExact(h, ticks);
    SumOfRoot(TicksOf, h, ExactRebase(h[0], ticks));
  }

  /** The guard of the wake loop, on a tame heap. */
  lemma DecTame(h: seq<Node>)
    requires Tame(h) && h != []
    ensures DecRoot(h) == h[0 := h[0].(priority := h[0].priority - 1)]
    ensures DecRoot(h)[0].priority > 0 ==> Tame(DecRoot(h))
  {
    assert TameNode(h[0]);
    RootTicks(h);
    SumOfRoot(TicksOf, h, DecRoot(h)[0]);
  }

  /** What a round of the wake loop leaves. */
  lemma RoundTame(h: seq<Node>)
    requires Tame(h) && h != [] && DecRoot(h)[0].priority <= 0
    ensures Tame(Rebase(Pop(DecRoot(h)), h[0].ticks))
    ensures Ordered(h) ==> Ordered(Rebase(Pop(DecRoot(h)), h[0].ticks))
    ensures Potential(Rebase(Pop(DecRoot(h)), h[0].ticks)) + Weight(h[0]) <= Potential(h)
  {
    var p := Pop(h);
    PopIgnoresRoot(h, DecRoot(h)[0]);
    PopTame(h);
    SumOfPop(Weight, h);
    if p != [] {
      RebaseTame(p, h[0].ticks);
      SumOfRoot(Weight, p, Rebase(p, h[0].ticks)[0]);
      if Ordered(h) {
        PopOrdered(h);
        LowerRootOrdered(p, Rebase(p, h[0].ticks)[0]);
      }
    }
  }

  /** On a tame heap a tick keeps the signed order through its decrements, pops and rebasings. */
  lemma {:induction false} DrainOrdered(h: seq<Node>, keep: nat)
    requires Tame(h)
    ensures Tame(Drain(h, keep).heap)
    ensures Ordered(h) ==> Ordered(Drain(h, keep).heap)
    decreases |h|
  {
    if |h| > keep {
      DecTame(h);
      if DecRoot(h)[0].priority <= 0 {
        RoundTame(h);
        DrainOrdered(Rebase(Pop(DecRoot(h)), h[0].ticks), keep);
      } else if Ordered(h) {
        LowerRootOrdered(h, DecRoot(h)[0]);
      }
    }
  }

  // ---------- every sleep ends ----------

  /** How often the loop guard has to lower a root before it is due. The least int wraps round to the largest. */
  function Due(x: Node): (w: nat)
    ensures w >= 1
  {
    if x.priority == -INT_LIMIT then INT_LIMIT else Weight(x)
  }

  /** How often the guard has to lower some root before the heap is empty. */
  function Waits(h: seq<Node>): nat
    decreases |h|
  {
    if h == [] then 0 else Due(h[0]) + Waits(Rebase(Pop(h), h[0].ticks))
  }

  ghost predicate RootInRange(h: seq<Node>) {
    h != [] ==> -INT_LIMIT <= h[0].priority < INT_LIMIT
  }

  /** One evaluation of the guard, with the pop and the rebase if the root is due. */
  lemma GuardWaits(h: seq<Node>)
    requires h != [] && RootInRange(h)
    ensures var d := DecRoot(h);
            && RootInRange(d)
            && Waits(if d[0].priority <= 0 then Rebase(Pop(d), d[0].ticks) else d) + 1 == Waits(h)
  {
    PopIgnoresRoot(h, DecRoot(h)[0]);
  }

  lemma {:induction false} DrainWaits(h: seq<Node>, keep: nat)
    requires RootInRange(h)
    ensures RootInRange(Drain(h, keep).heap) && Waits(Drain(h, keep).heap) <= Waits(h)
    ensures |h| > keep ==> Waits(Drain(h, keep).heap) < Waits(h)
    decreases |h|
  {
    if |h| > keep {
      var d := DecRoot(h);
      GuardWaits(h);
      if d[0].priority <= 0 {
        DrainWaits(Rebase(Pop(d), d[0].ticks), keep);
      }
    }
  }

  /**
   With no further push the heap is empty after as many ticks as its waits, and by then every
   sleeper has been woken exactly once, whatever wraps round on the way.
   */
  lemma EverySleepEnds(h: seq<Node>, n: nat)
    requires RootInRange(h) && n >= Waits(h)
    ensures HeapTicks(h, n).heap == []
    ensures multiset(HeapTicks(h, n).woken) == multiset(Tasks(h))
  {
    HeapEmpties(h, n);
    HeapTicksTasks(h, n);
    assert Tasks([]) == [];
  }

  lemma {:induction false} HeapEmpties(h: seq<Node>, n: nat)
    requires RootInRange(h) && n >= Waits(h)
    ensures HeapTicks(h, n).heap == []
    decreases n
  {
    if n > 0 {
      DrainWaits(h, |h| / 2);
      HeapEmpties(HeapTick(h).heap, n - 1);
    }
  }

  /** That is at most 2^15 ticks for each sleeper. */
  lemma {:induction false} WaitsBounded(h: seq<Node>)
    requires RootInRange(h)
    ensures Waits(h) <= |h| * INT_LIMIT
    decreases |h|
  {
    if h != [] {
      WaitsBounded(Rebase(Pop(h), h[0].ticks));
    }
  }

  /** On a tame heap it is at most the sum of max(priority, 1). */
  lemma {:induction false} WaitsTame(h: seq<Node>)
    requires Tame(h)
    ensures Waits(h) <= Potential(h) && RootInRange(h)
    decreases |h|
  {
    if h != [] {
      assert TameNode(h[0]);
      RootTicks(h);
      SumOfPop(Weight, h);
      PopTame(h);
      var p := Pop(h);
      if p != [] {
        RebaseTame(p, h[0].ticks);
        SumOfRoot(Weight, p, Rebase(p, h[0].ticks)[0]);
      }
      WaitsTame(Rebase(p, h[0].ticks));
    }
  }

  /** A lone sleeper wakes when its stored priority has been counted down. */
  lemma {:induction false} LoneNode(x: Node, n: nat)
    requires 1 <= x.priority < INT_LIMIT && n <= x.priority
    ensures HeapTicks([x], n) ==
            if n < x.priority then Drained([x.(priority := x.priority - n)], []) else Drained([], [x.task])
    decreases n
  {
    if n > 0 {
      var d := DecRoot([x]);
      assert d == [x.(priority := x.priority - 1)];
      if x.priority > 1 {
        assert HeapTick([x]) == Drained(d, []);
        LoneNode(d[0], n - 1);
      } else {
        assert Drain([], 0) == Drained([], []);
        assert HeapTick([x]) == Drained([], [x.task]);
      }
    }
  }

  /** A node stored below zero is due on the first tick. */
  lemma LoneNegative(x: Node)
    requires -INT_LIMIT < x.priority <= 0
    ensures HeapTicks([x], 1) == Drained([], [x.task])
  {
    assert Drain([], 0) == Drained([], []);
    assert HeapTick([x]) == Drained([], [x.task]);
    assert HeapTicks([], 0) == Drained([], []);
  }

  /** Lowering the least int makes it the largest, so that 2^15 ticks are counted after all. */
  lemma LoneLeast(x: Node, n: nat)
    requires x.priority == -INT_LIMIT && 1 <= n <= INT_LIMIT
    ensures HeapTicks([x], n).woken == if n == INT_LIMIT then [x.task] else []
  {
    var y := x.(priority := INT_LIMIT - 1);
    assert DecRoot([x]) == [y] && HeapTick([x]) == Drained([y], []);
    LoneNode(y, n - 1);
    assert HeapTicks([x], n).woken == [] + HeapTicks([y], n - 1).woken;
  }

  /** What a lone sleep of d ticks has woken after n of them. */
  lemma LoneSleep(task: nat, d: nat, n: nat)
    requires 1 <= d < WORD && n <= d
    ensures d <= INT_LIMIT ==> HeapTicks([NodeFor(task, d)], n).woken == if n == d then [task] else []
    ensures d > INT_LIMIT ==> HeapTicks([NodeFor(task, d)], 1).woken == [task]
  {
    if d < INT_LIMIT {
      LoneNode(NodeFor(task, d), n);
    } else if d > INT_LIMIT {
      LoneNegative(NodeFor(task, d));
    } else if n > 0 {
      LoneLeast(NodeFor(task, d), n);
    }
  }

  /** A lone sleeper wakes on exactly the tick it asked for if and only if it asked for at most 2^15. */
  lemma LoneSleeper(task: nat, d: nat)
    requires 1 <= d < WORD
    ensures (forall n :: 0 <= n <= d ==> HeapTicks([NodeFor(task, d)], n).woken == if n == d then [task] else [])
            <==> d <= INT_LIMIT
  {
    if d <= INT_LIMIT {
      forall n | 0 <= n <= d
        ensures HeapTicks([NodeFor(task, d)], n).woken == if n == d then [task] else []
      {
        LoneSleep(task, d, n);
      }
    } else {
      LoneSleep(task, d, 1);
    }
  }

  // ---------- sleepers wake in the order of their stored priorities ----------

  /** The priority under which task t is stored in h. */
  function Stored(h: seq<Node>, t: nat): int
    decreases |h|
  {
    if h == [] then 0 else if h[0].task == t then h[0].priority else Stored(h[1..], t)
  }

  /**
   h is what is left of the heap g: every node below the root still has the priority it had in
   g, and the root, which may have been lowered, had the least.
   */
  ghost predicate LeftOf(g: seq<Node>, h: seq<Node>) {
    && (forall j :: 1 <= j < |h| ==> h[j].priority == Stored(g, h[j].task))
    && (forall j :: 1 <= j < |h| ==> Stored(g, h[0].task) <= Stored(g, h[j].task))
  }

  ghost predicate InWakeOrder(g: seq<Node>, ts: seq<nat>) {
    forall i, j :: 0 <= i < j < |ts| ==> Stored(g, ts[i]) <= Stored(g, ts[j])
  }

  /** No task of ts is stored below any task of the heap h. */
  ghost predicate BeforeAll(g: seq<Node>, ts: seq<nat>, h: seq<Node>) {
    forall i, j :: 0 <= i < |ts| && 0 <= j < |h| ==> Stored(g, ts[i]) <= Stored(g, h[j].task)
  }

  lemma {:induction false} StoredAt(h: seq<Node>, j: nat)
    requires Distinct(Tasks(h)) && j < |h|
    ensures Stored(h, h[j].task) == h[j].priority
    decreases |h|
  {
    if j > 0 {
      assert Tasks(h)[0] != Tasks(h)[j];
      forall a, b | 0 <= a < b < |h[1..]| ensures Tasks(h[1..])[a] != Tasks(h[1..])[b] {
        assert Tasks(h)[a + 1] != Tasks(h)[b + 1];
      }
      StoredAt(h[1..], j - 1);
    }
  }

  /** Popping the root of what is left of g, and rebasing, leaves a part of g again. */
  lemma PopLeftOf(g: seq<Node>, d: seq<Node>, ticks: nat)
    requires d != [] && OrderedAround(d, 1) && LeftOf(g, d)
    ensures LeftOf(g, Rebase(Pop(d), ticks))
    ensures BeforeAll(g, [d[0].task], Rebase(Pop(d), ticks))
  {
    var p := Pop(d);
    PopRest(d);
    PopOrdered(d);
    forall j | 0 <= j < |p|
      ensures p[j].priority == Stored(g, p[j].task) && Stored(g, d[0].task) <= Stored(g, p[j].task)
      ensures p[0].priority <= p[j].priority
    {
      assert p[j] in multiset(d[1..]);
      var i :| 0 <= i < |d[1..]| && d[1..][i] == p[j];
      assert d[i + 1] == p[j];
      RootIsLeast(p, j + 1);
    }
  }

  /** Whatever a drain leaves or wakes was in the heap. */
  lemma DrainMember(h: seq<Node>, keep: nat, t: nat)
    requires t in Tasks(Drain(h, keep).heap) || t in Drain(h, keep).woken
    ensures t in Tasks(h)
  {
    DrainTasks(h, keep);
    var m := multiset(Tasks(Drain(h, keep).heap));
    var w := multiset(Drain(h, keep).woken);
    assert t in m || t in w;
    assert t in m + w;
    assert t in multiset(Tasks(h));
  }

  lemma BeforeAllTail(g: seq<Node>, t: nat, h: seq<Node>, keep: nat)
    requires BeforeAll(g, [t], h)
    ensures BeforeAll(g, [t], Drain(h, keep).heap)
    ensures forall i :: 0 <= i < |Drain(h, keep).woken| ==> Stored(g, t) <= Stored(g, Drain(h, keep).woken[i])
  {
    var r := Drain(h, keep);
    forall i | 0 <= i < |h| ensures Stored(g, t) <= Stored(g, Tasks(h)[i]) {
      assert Stored(g, [t][0]) <= Stored(g, h[i].task);
    }
    forall j | 0 <= j < |r.heap| ensures Stored(g, t) <= Stored(g, r.heap[j].task) {
      assert Tasks(r.heap)[j] == r.heap[j].task;
      DrainMember(h, keep, r.heap[j].task);
    }
    forall j | 0 <= j < |r.woken| ensures Stored(g, t) <= Stored(g, r.woken[j]) {
      DrainMember(h, keep, r.woken[j]);
    }
  }

  lemma {:induction false} DrainOrder(g: seq<Node>, h: seq<Node>, keep: nat)
    requires OrderedAround(h, 1) && LeftOf(g, h)
    ensures var r := Drain(h, keep);
            LeftOf(g, r.heap) && InWakeOrder(g, r.woken) && BeforeAll(g, r.woken, r.heap)
    decreases |h|
  {
    if |h| > keep {
      var d := DecRoot(h);
      AnyRootAround(h, d[0]);
      if d[0].priority <= 0 {
        var p := Rebase(Pop(d), d[0].ticks);
        PopLeftOf(g, d, d[0].ticks);
        PopOrdered(d);
        if p != [] {
          AnyRoot(Pop(d), p[0]);
        }
        DrainOrder(g, p, keep);
        BeforeAllTail(g, d[0].task, p, keep);
      }
    }
  }

  /** Whoever wakes was in the heap. */
  lemma WokenMember(h: seq<Node>, n: nat, t: nat)
    requires t in HeapTicks(h, n).woken
    ensures t in Tasks(h)
  {
    HeapTicksTasks(h, n);
    assert t in multiset(HeapTicks(h, n).woken);
    assert t in multiset(Tasks(h));
  }

  ghost predicate AllIn(a: seq<nat>, b: seq<nat>) {
    forall j :: 0 <= j < |a| ==> a[j] in b
  }

  lemma OrderConcat(g: seq<Node>, h: seq<Node>, a: seq<nat>, b: seq<nat>)
    requires InWakeOrder(g, a) && InWakeOrder(g, b) && BeforeAll(g, a, h)
    requires AllIn(b, Tasks(h))
    ensures InWakeOrder(g, a + b)
  {
    forall i, j | 0 <= i < |a| && 0 <= j < |b| ensures Stored(g, a[i]) <= Stored(g, b[j]) {
      var l :| 0 <= l < |h| && Tasks(h)[l] == b[j];
      assert Stored(g, a[i]) <= Stored(g, h[l].task);
    }
  }

  lemma WokenMembers(h: seq<Node>, n: nat)
    ensures AllIn(HeapTicks(h, n).woken, Tasks(h))
  {
    var b := HeapTicks(h, n).woken;
    forall j | 0 <= j < |b| ensures b[j] in Tasks(h) {
      WokenMember(h, n, b[j]);
    }
  }

  lemma OrderTick(g: seq<Node>, h: seq<Node>, later: seq<nat>)
    requires OrderedAround(h, 1) && LeftOf(g, h)
    requires InWakeOrder(g, later) && AllIn(later, Tasks(HeapTick(h).heap))
    ensures InWakeOrder(g, HeapTick(h).woken + later)
  {
    DrainOrder(g, h, |h| / 2);
    OrderConcat(g, HeapTick(h).heap, HeapTick(h).woken, later);
  }

  lemma OrderMore(g: seq<Node>, h: seq<Node>, n: nat)
    requires OrderedAround(h, 1) && LeftOf(g, h) && n > 0
    requires InWakeOrder(g, HeapTicks(HeapTick(h).heap, n - 1).woken)
    ensures InWakeOrder(g, HeapTicks(h, n).woken)
  {
    hide LeftOf, InWakeOrder, OrderedAround, HeapTick, Tasks, AllIn;
    var r := HeapTick(h);
    WokenMembers(r.heap, n - 1);
    OrderTick(g, h, HeapTicks(r.heap, n - 1).woken);
  }

  lemma LeftByTick(g: seq<Node>, h: seq<Node>)
    requires OrderedAround(h, 1) && LeftOf(g, h)
    ensures OrderedAround(HeapTick(h).heap, 1) && LeftOf(g, HeapTick(h).heap)
  {
    hide LeftOf, OrderedAround, Drain;
    DrainOrder(g, h, |h| / 2);
    DrainOrderedBelow(h, |h| / 2);
  }

  lemma {:induction false} HeapTicksOrder(g: seq<Node>, h: seq<Node>, n: nat)
    requires OrderedAround(h, 1) && LeftOf(g, h)
    ensures InWakeOrder(g, HeapTicks(h, n).woken)
    decreases n
  {
    hide LeftOf, OrderedAround, HeapTick;
    if n > 0 {
      LeftByTick(g, h);
      HeapTicksOrder(g, HeapTick(h).heap, n - 1);
      OrderMore(g, h, n);
    }
  }

  /**
   With no push in between, the sleepers of an ordered heap wake in nondecreasing order of the stored
   priorities, also when rebased roots wrap round.
   */
  lemma WakeOrder(h: seq<Node>, n: nat)
    requires Ordered(h) && Distinct(Tasks(h))
    ensures InWakeOrder(h, HeapTicks(h, n).woken)
  {
    forall j | 0 <= j < |h|
      ensures h[j].priority == Stored(h, h[j].task) && h[0].priority <= h[j].priority
    {
      StoredAt(h, j);
      RootIsLeast(h, j + 1);
    }
    HeapTicksOrder(h, h, n);
  }

  // ---------- a root below zero ----------

  /** On this heap of one node a sleep of less than 2^15 ticks leaves the heap unordered. */
  lemma PushBelowZero(c: nat, task: nat, ticks: nat)
    requires ticks < WORD
    ensures Ordered(Push([Node(-1, c, 12)], ticks, NodeFor(task, ticks))) <==> ticks >= INT_LIMIT
  {
    PushOrdered([Node(-1, c, 12)], task, ticks);
  }
}
