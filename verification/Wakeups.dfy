/**
 Whom a tick wakes: the wake loop of os_update over the heap is a walk along the sleepers in the
 order in which they would be popped, and on a tame heap the walk has a closed form.
 */
module Wakeups {
  import opened SleepHeap
  import opened SleepTick

  // ---------- the heap as a line of sleepers ----------

  /** The wake loop on a sequence whose first node is the next to pop. */
  function Walk(xs: seq<Node>, keep: nat): Drained
    decreases |xs|
  {
    if |xs| <= keep then Drained(xs, []) else
    var d := DecRoot(xs);
    if d[0].priority > 0 then Drained(d, []) else
    var r := Walk(Rebase(xs[1..], d[0].ticks), keep);
    Drained(r.heap, [d[0].task] + r.woken)
  }

  lemma PopAllRoot(h: seq<Node>, x: Node)
    requires h != []
    ensures PopAll(h[0 := x]) == [x] + PopAll(h)[1..] && PopAll(h)[0] == h[0] && PopAll(h)[1..] == PopAll(Pop(h))
    ensures PopAll(h[0 := x]) == PopAll(h)[0 := x]
  {
    hide Pop;
    PopIgnoresRoot(h, x);
    assert PopAll(h)[1..] == PopAll(Pop(h));
  }

  lemma {:induction false} PopAllLength(h: seq<Node>)
    ensures |PopAll(h)| == |h|
    decreases |h|
  {
    if h != [] {
      PopAllLength(Pop(h));
    }
  }

  lemma RebasePopAll(h: seq<Node>, ticks: nat)
    ensures PopAll(Rebase(h, ticks)) == Rebase(PopAll(h), ticks)
  {
    if h != [] {
      PopAllRoot(h, Rebase(h, ticks)[0]);
    }
  }

  /** One round of the loop, on the heap and on the line. */
  lemma RoundWalks(h: seq<Node>)
    requires h != []
    ensures |PopAll(h)| == |h| && DecRoot(PopAll(h)) == PopAll(DecRoot(h)) && PopAll(h)[0] == h[0]
    ensures var d := DecRoot(h);
            PopAll(Rebase(Pop(d), d[0].ticks)) == Rebase(PopAll(h)[1..], d[0].ticks)
  {
    PopAllLength(h);
    PopAllRoot(h, DecRoot(h)[0]);
    PopIgnoresRoot(h, DecRoot(h)[0]);
    RebasePopAll(Pop(h), h[0].ticks);
  }

  /** The wake loop over the heap is the walk along the line. */
  lemma {:induction false} DrainWalks(h: seq<Node>, keep: nat)
    ensures Drained(PopAll(Drain(h, keep).heap), Drain(h, keep).woken) == Walk(PopAll(h), keep)
    decreases |h|
  {
    hide PopAll, Pop, Rebase;
    PopAllLength(h);
    if |h| > keep {
      var d := DecRoot(h);
      RoundWalks(h);
      if d[0].priority <= 0 {
        DrainWalks(Rebase(Pop(d), d[0].ticks), keep);
      }
    }
  }

  // ---------- the closed form on a tame heap ----------

  /** The ticks of the first j sleepers together. */
  function Passed(xs: seq<Node>, j: nat): nat
    requires j <= |xs|
  {
    Sum(TicksOf, xs[..j])
  }

  /** Sleeper j is due once those before it are awake: its priority is at most their ticks. */
  predicate DueAfter(xs: seq<Node>, j: nat)
    requires j < |xs|
  {
    xs[j].priority <= if j == 0 then 1 else Passed(xs, j)
  }

  /** The first j sleepers of the line wake: each is due, and the next is not, or only keep are left. */
  ghost predicate WakesFirst(xs: seq<Node>, keep: nat, j: nat) {
    && j <= |xs| && keep <= |xs| - j
    && (forall i :: 0 <= i < j ==> DueAfter(xs, i))
    && (|xs| - j > keep ==> !DueAfter(xs, j))
  }

  /** What is left of the line: the ticks of those awake are taken off the first and added to its own. */
  function LeftAfter(xs: seq<Node>, keep: nat, j: nat): seq<Node>
    requires j <= |xs|
  {
    if j == |xs| then [] else
    var x, t := xs[j], Passed(xs, j);
    // the loop guard lowers the priority by one unless it stops at the threshold
    var lowered := if |xs| - j > keep then 1 else 0;
    [Node(x.priority - (if j == 0 then 0 else t - 1) - lowered, x.task, x.ticks + t)] + xs[j + 1..]
  }

  lemma PassedNone(xs: seq<Node>)
    ensures Passed(xs, 0) == 0
  {
  }

  /** The rest of the line after its first sleeper woke. */
  function RestOf(xs: seq<Node>): seq<Node>
    requires xs != []
  {
    Rebase(xs[1..], xs[0].ticks)
  }

  lemma PassedRest(xs: seq<Node>, j: nat)
    requires Tame(xs) && xs != [] && 1 <= j < |xs|
    ensures |RestOf(xs)| == |xs| - 1
    ensures Passed(RestOf(xs), j) == Passed(xs, j + 1)
  {
    var ys := RestOf(xs);
    TailTame(xs);
    RebaseTame(xs[1..], xs[0].ticks);
    assert ys[..j] == xs[1..][..j][0 := ys[0]];
    SumOfRoot(TicksOf, xs[1..][..j], ys[0]);
    assert xs[..j + 1][1..] == xs[1..][..j];
  }

  lemma TailTame(xs: seq<Node>)
    requires Tame(xs) && xs != []
    ensures Tame(xs[1..]) && TotalTicks(xs[1..]) + xs[0].ticks == TotalTicks(xs) && xs[0].ticks >= 1
  {
    assert TameNode(xs[0]);
    forall j | 0 <= j < |xs[1..]| ensures TameNode(xs[1..][j]) {
      assert xs[1..][j] == xs[j + 1];
    }
  }

  lemma RestTame(xs: seq<Node>)
    requires Tame(xs) && xs != []
    ensures Tame(RestOf(xs))
    ensures |xs| > 1 ==> RestOf(xs) == xs[1..][0 := ExactRebase(xs[1], xs[0].ticks)]
  {
    TailTame(xs);
    if |xs| > 1 {
      RebaseTame(xs[1..], xs[0].ticks);
    }
  }

  lemma PassedOne(xs: seq<Node>)
    requires xs != []
    ensures Passed(xs, 1) == xs[0].ticks
  {
    assert xs[..1] == [xs[0]];
    assert Sum(TicksOf, [xs[0]]) == xs[0].ticks + Sum(TicksOf, [xs[0]][1..]);
  }

  /** Sleeper j of the rest is due when sleeper j + 1 of the line is. */
  lemma DueRest(xs: seq<Node>, j: nat)
    requires Tame(xs) && xs != [] && j + 1 < |xs|
    ensures j < |RestOf(xs)| && (DueAfter(RestOf(xs), j) <==> DueAfter(xs, j + 1))
  {
    RestTame(xs);
    if j == 0 {
      PassedOne(xs);
    } else {
      PassedRest(xs, j);
      assert RestOf(xs)[j] == xs[j + 1];
    }
  }

  lemma LeftRest(xs: seq<Node>, keep: nat, j: nat)
    requires Tame(xs) && xs != [] && j <= |RestOf(xs)|
    ensures j + 1 <= |xs| && LeftAfter(RestOf(xs), keep, j) == LeftAfter(xs, keep, j + 1)
  {
    var ys := RestOf(xs);
    RestTame(xs);
    if j < |ys| {
      if j == 0 {
        PassedOne(xs);
        PassedNone(ys);
      } else {
        PassedRest(xs, j);
        assert ys[j] == xs[j + 1];
      }
      assert ys[j + 1..] == xs[j + 2..];
    }
  }

  /** On a tame line the walk wakes the longest prefix of sleepers that are due, as far as the threshold allows. */
  lemma {:induction false} WalkExact(xs: seq<Node>, keep: nat)
    requires Tame(xs) && keep <= |xs|
    ensures var j := |Walk(xs, keep).woken|;
            && WakesFirst(xs, keep, j) && Walk(xs, keep).woken == Tasks(xs[..j])
            && Walk(xs, keep).heap == LeftAfter(xs, keep, j)
    decreases |xs|
  {
    PassedNone(xs);
    if |xs| <= keep {
      assert Tasks(xs[..0]) == [];
      if xs != [] {
        assert LeftAfter(xs, keep, 0) == xs;
      }
    } else {
      DecTame(xs);
      if DecRoot(xs)[0].priority > 0 {
        assert Tasks(xs[..0]) == [];
        assert LeftAfter(xs, keep, 0) == DecRoot(xs);
      } else {
        var ys := RestOf(xs);
        RestTame(xs);
        WalkExact(ys, keep);
        WalkMore(xs, keep, |Walk(ys, keep).woken|);
      }
    }
  }

  lemma WalkMore(xs: seq<Node>, keep: nat, j: nat)
    requires Tame(xs) && |xs| > keep && DueAfter(xs, 0) && j <= |RestOf(xs)| && WakesFirst(RestOf(xs), keep, j)
    ensures WakesFirst(xs, keep, j + 1) && LeftAfter(xs, keep, j + 1) == LeftAfter(RestOf(xs), keep, j)
    ensures Tasks(xs[..j + 1]) == [xs[0].task] + Tasks(RestOf(xs)[..j])
  {
    RestTame(xs);
    LeftRest(xs, keep, j);
    forall i | 0 <= i < j + 1 ensures DueAfter(xs, i) {
      if i > 0 {
        DueRest(xs, i - 1);
      }
    }
    if |xs| - (j + 1) > keep {
      DueRest(xs, j);
    }
    forall i | 0 <= i < j ensures RestOf(xs)[i].task == xs[i + 1].task {
    }
  }

  lemma {:induction false} PopAllTame(h: seq<Node>)
    requires Tame(h)
    ensures Tame(PopAll(h))
  {
    PopAllContents(h);
    SumOfMultiset(TicksOf, PopAll(h), h);
    forall j | 0 <= j < |PopAll(h)| ensures TameNode(PopAll(h)[j]) {
      assert PopAll(h)[j] in multiset(h);
    }
  }

  /**
   Whom a tick wakes, exactly: of the sleepers in the order in which they are popped, the longest run
   of which the first is due and each further one has no more priority than those before it have ticks
   together, up to half of all sleepers.
   */
  lemma TickWakesExactly(h: seq<Node>)
    requires Tame(h)
    ensures var xs := PopAll(h); var r := HeapTick(h); var j := |r.woken|;
            && WakesFirst(xs, |h| / 2, j) && r.woken == Tasks(xs[..j]) && PopAll(r.heap) == LeftAfter(xs, |h| / 2, j)
  {
    PopAllLength(h);
    PopAllTame(h);
    DrainWalks(h, |h| / 2);
    WalkExact(PopAll(h), |h| / 2);
  }
}
