/** The priority queue of pqueue.h: a 1-based heap in a fixed array, sifted in place. */
module PriorityQueue {
  import opened SleepHeap
  import opened SleepTick

  /** What sift-up finds in the hole it starts from does not matter. */
  lemma HoleContent(h: seq<Node>, i: nat, priority: nat, x: Node, y: Node)
    requires 1 <= i <= |h|
    ensures SiftUp(h[i - 1 := y], i, priority, x) == SiftUp(h, i, priority, x)
  {
    if i > 1 {
      assert h[i - 1 := y][i - 1 := h[i / 2 - 1]] == h[i - 1 := h[i / 2 - 1]];
    }
    assert h[i - 1 := y][i - 1 := x] == h[i - 1 := x];
  }

  /** One round of the sift-down loop. */
  ghost function SiftStep(g: seq<Node>, i: nat, last: Node): (r: seq<Node>)
    requires 1 <= i <= |g|
    ensures |r| == |g|
    ensures var k := Smallest(g, i, last);
            SiftDown(g, i, last) == if k == |g| + 1 then r else SiftDown(r, k, last)
  {
    var k := Smallest(g, i, last);
    g[i - 1 := if k == |g| + 1 then last else g[k - 1]]
  }

  class PQueue {
    const storage: array<Node>
    var count: nat

    ghost predicate Valid()
      reads this, storage
    {
      count < storage.Length
    }

    /** The occupied slots 1..count. */
    ghost function View(): (h: seq<Node>)
      reads this, storage
      requires Valid()
      ensures |h| == count
    {
      storage[1..count + 1]
    }

    constructor (size: nat)
      requires size >= 1
      ensures Valid() && fresh(storage) && storage.Length == size && View() == []
    {
      storage := new Node[size](_ => Node(0, 0, 0));
      count := 0;
    }

    method Push(priority: nat, task: nat, ticks: nat) returns (ok: bool)
      requires Valid()
      modifies this`count, storage
      ensures Valid()
      ensures ok == (old(count) + 1 < storage.Length)
      ensures View() == if ok then SleepHeap.Push(old(View()), priority, Node(Signed(priority), task, ticks))
                        else old(View())
    {
      if count + 1 >= storage.Length {
        return false;
      }
      var i := count + 1;
      var j := i / 2;
      ghost var x := Node(Signed(priority), task, ticks);
      ghost var h := old(View());
      assert storage[1..count + 2] == (h + [x])[count := storage[count + 1]];
      HoleContent(h + [x], count + 1, priority, x, storage[count + 1]);
      while i > 1 && Unsigned(storage[j].priority) > priority
        invariant 1 <= i <= count + 1 && j == i / 2
        invariant count == old(count) && count + 1 < storage.Length
        invariant SiftUp(storage[1..count + 2], i, priority, x) == SleepHeap.Push(h, priority, x)
      {
        ghost var g := storage[1..count + 2];
        storage[i] := storage[j];
        assert storage[1..count + 2] == g[i - 1 := g[j - 1]];
        i := j;
        j := j / 2;
      }
      ghost var g := storage[1..count + 2];
      storage[i] := Node(Signed(priority), task, ticks);
      assert storage[1..count + 2] == g[i - 1 := x];
      count := count + 1;
      return true;
    }

    /** Slot count+1, where the sentinel is, or a child of i that is smaller: the smallest of the three. */
    method SmallestChild(i: nat) returns (k: nat)
      requires 1 <= i <= count && count + 1 < storage.Length
      ensures k == Smallest(storage[1..count + 1], i, storage[count + 1])
    {
      k := count + 1;
      var j := 2 * i;
      if j <= count && storage[j].priority < storage[k].priority {
        k := j;
      }
      if j + 1 <= count && storage[j + 1].priority < storage[k].priority {
        k := j + 1;
      }
    }

    /** Removes the root. The C code does not check for an empty heap: that is its caller's duty. */
    method Pop() returns (item: Node)
      requires Valid() && count > 0
      modifies this`count, storage
      ensures Valid()
      ensures item == old(View())[0] && View() == SleepHeap.Pop(old(View()))
    {
      ghost var h := View();
      item := storage[1];
      storage[1] := storage[count];
      count := count - 1;
      ghost var last := h[count];
      var i := 1;
      assert count > 0 ==> storage[1..count + 1] == h[..count][0 := last];
      while i != count + 1
        invariant 1 <= i <= count + 1 < storage.Length
        invariant storage[count + 1] == last
        invariant i <= count ==> SiftDown(storage[1..count + 1], i, last) == SleepHeap.Pop(h)
        invariant i == count + 1 ==> storage[1..count + 1] == SleepHeap.Pop(h)
        invariant count == old(count) - 1
        decreases count + 1 - i
      {
        ghost var g := storage[1..count + 1];
        var k := SmallestChild(i);
        ghost var g' := SiftStep(g, i, last);
        assert g'[i - 1] == storage[k];
        storage[i] := storage[k];
        assert storage[1..count + 1] == g';
        i := k;
      }
    }

    method Peek() returns (ok: bool, item: Node)
      requires Valid()
      ensures ok == (View() != [])
      ensures ok ==> item == View()[0]
    {
      if count > 0 {
        return true, storage[1];
      }
      return false, Node(0, 0, 0);
    }

    /** The guard of the wake loop in os_update, which lowers the root as it looks at it. */
    method RootDue(keep: nat) returns (due: bool)
      requires Valid()
      modifies storage
      ensures Valid()
      ensures var h := old(View());
              if |h| > keep then View() == DecRoot(h) && due == (View()[0].priority <= 0) else View() == h && !due
    {
      due := false;
      if count > keep {
        ghost var h := View();
        storage[1] := storage[1].(priority := Signed(storage[1].priority - 1));
        assert View() == DecRoot(h);
        due := storage[1].priority <= 0;
      }
    }

    /** os_update moves the new root closer by the ticks of the popped one, also in an empty heap. */
    method RebaseRoot(ticks: nat)
      requires Valid() && storage.Length > 1
      modifies storage
      ensures Valid() && View() == Rebase(old(View()), ticks)
    {
      ghost var h := View();
      var x := storage[1];
      storage[1] := Node(Signed(x.priority - (ticks - 1)), x.task, (x.ticks + ticks) % WORD);
      assert View() == Rebase(h, ticks);
    }
  }
}
