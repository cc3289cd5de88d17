/**
 The sleep queue of the kernel: the binary heap of pqueue.h seen as the sequence of its
 occupied slots.

 Slot i of the C array (1 <= i <= count) is element i-1 of the sequence.
 */
module SleepHeap {
  import opened Sequences

  /** A heap node: a signed priority, the sleeping task and the ticks it asked for. */
  datatype Node = Node(priority: int, task: nat, ticks: nat)

  // size_t is a 16-bit word, int its signed reading
  const WORD := 0x1_0000
  const INT_LIMIT := 0x8000

  /** An int operand converted to size_t, as C does when the two are compared. */
  function Unsigned(p: int): nat {
    p % WORD
  }

  /** A value stored in an int. */
  function Signed(p: int): int {
    if p % WORD < INT_LIMIT then p % WORD else p % WORD - WORD
  }

  function NodeFor(task: nat, ticks: nat): Node {
    Node(Signed(ticks), task, ticks)
  }

  // ---------- push: hole-style sift-up ----------

  function SiftUp(h: seq<Node>, i: nat, priority: nat, x: Node): (r: seq<Node>)
    requires 1 <= i <= |h|
    ensures |r| == |h|
    decreases i
  {
    if i > 1 && Unsigned(h[i / 2 - 1].priority) > priority then
      SiftUp(h[i - 1 := h[i / 2 - 1]], i / 2, priority, x)
    else
      h[i - 1 := x]
  }

  function Push(h: seq<Node>, priority: nat, x: Node): (r: seq<Node>)
    ensures |r| == |h| + 1
  {
    SiftUp(h + [x], |h| + 1, priority, x)
  }

  // ---------- pop: sift-down that uses the removed last node as sentinel ----------

  /** The slot that moves into hole i: the smaller child if it is below the sentinel, else count+1. */
  function Smallest(h: seq<Node>, i: nat, last: Node): (k: nat)
    requires 1 <= i <= |h|
    ensures i < k <= |h| + 1
    ensures k == |h| + 1 || k == 2 * i || k == 2 * i + 1
  {
    var j := 2 * i;
    var k := if j <= |h| && h[j - 1].priority < last.priority then j else |h| + 1;
    var least := if k <= |h| then h[k - 1] else last;
    if j + 1 <= |h| && h[j].priority < least.priority then j + 1 else k
  }

  function SiftDown(h: seq<Node>, i: nat, last: Node): (r: seq<Node>)
    requires 1 <= i <= |h|
    ensures |r| == |h|
    decreases |h| - i
  {
    var k := Smallest(h, i, last);
    if k == |h| + 1 then h[i - 1 := last] else SiftDown(h[i - 1 := h[k - 1]], k, last)
  }

  function Pop(h: seq<Node>): (r: seq<Node>)
    requires h != []
    ensures |r| == |h| - 1
  {
    var last := h[|h| - 1];
    var rest := h[..|h| - 1];
    if rest == [] then [] else SiftDown(rest[0 := last], 1, last)
  }

  // ---------- order ----------

  /** The parent of slot j is not above it. */
  ghost predicate Edge(h: seq<Node>, j: nat)
    requires 2 <= j <= |h|
  {
    h[j / 2 - 1].priority <= h[j - 1].priority
  }

  /** The grandparent of slot j is not above it. */
  ghost predicate Skip(h: seq<Node>, j: nat)
    requires 4 <= j <= |h|
  {
    h[j / 2 / 2 - 1].priority <= h[j - 1].priority
  }

  ghost predicate Ordered(h: seq<Node>) {
    forall j :: 2 <= j <= |h| ==> Edge(h, j)
  }

  /** Order everywhere but at hole i, across which the parent of i is below the children of i. */
  ghost predicate OrderedAround(h: seq<Node>, i: nat) {
    && (forall j :: 2 <= j <= |h| && j != i && j / 2 != i ==> Edge(h, j))
    && (forall j :: 4 <= j <= |h| && j / 2 == i ==> Skip(h, j))
  }

  /** The root of an ordered heap is a minimum. */
  lemma {:induction false} RootIsLeast(h: seq<Node>, j: nat)
    requires Ordered(h) && 1 <= j <= |h|
    ensures h[0].priority <= h[j - 1].priority
  {
    if j > 1 {
      assert Edge(h, j);
      RootIsLeast(h, j / 2);
    }
  }

  /** Filling the hole with a node between its parent and its children restores order. */
  lemma FillHole(h: seq<Node>, i: nat, x: Node)
    requires 1 <= i <= |h| && OrderedAround(h, i)
    requires i > 1 ==> h[i / 2 - 1].priority <= x.priority
    requires forall j :: 2 <= j <= |h| && j / 2 == i ==> x.priority <= h[j - 1].priority
    ensures Ordered(h[i - 1 := x])
  {
    var r := h[i - 1 := x];
    forall j | 2 <= j <= |r| ensures Edge(r, j) {
      if j != i && j / 2 != i {
        assert Edge(h, j);
      }
    }
  }

  // ---------- ties ----------

  /** The hole takes the right child only if it is below the left one, and none if none is below the sentinel. */
  lemma SmallestExact(h: seq<Node>, i: nat, last: Node)
    requires 1 <= i && 2 * i + 1 <= |h|
    ensures var left, right, k := h[2 * i - 1].priority, h[2 * i].priority, Smallest(h, i, last);
            && (k == |h| + 1 <==> last.priority <= left && last.priority <= right)
            && (k == 2 * i <==> left < last.priority && left <= right)
            && (k == 2 * i + 1 <==> right < last.priority && right < left)
  {
  }

  /** A push stays at the end exactly if its parent is not above it, both taken as size_t. */
  lemma PushStays(h: seq<Node>, priority: nat, x: Node)
    requires h != [] && h[(|h| + 1) / 2 - 1] != x
    ensures Push(h, priority, x) == h + [x] <==> Unsigned(h[(|h| + 1) / 2 - 1].priority) <= priority
  {
    var g, i := h + [x], |h| + 1;
    if Unsigned(h[i / 2 - 1].priority) > priority {
      var up := g[i - 1 := g[i / 2 - 1]];
      SiftUpFrame(up, i / 2, priority, x);
      assert Push(h, priority, x)[i - 1] == h[i / 2 - 1];
    }
  }

  /** A sift-up changes nothing behind the hole that it starts from. */
  lemma {:induction false} SiftUpFrame(h: seq<Node>, i: nat, priority: nat, x: Node)
    requires 1 <= i <= |h|
    ensures SiftUp(h, i, priority, x)[i..] == h[i..]
    decreases i
  {
    if i > 1 && Unsigned(h[i / 2 - 1].priority) > priority {
      var up := h[i - 1 := h[i / 2 - 1]];
      SiftUpFrame(up, i / 2, priority, x);
      forall j | i <= j < |h| ensures SiftUp(up, i / 2, priority, x)[j] == h[j] {
        assert SiftUp(up, i / 2, priority, x)[i / 2..][j - i / 2] == up[i / 2..][j - i / 2];
      }
    }
  }

  // ---------- push ----------

  /**
   Whether the sift-up from slot i stops below every negative priority: it meets a priority in
   0..priority, or the root, before it meets a negative one.
   */
  predicate StopsBelowNegative(h: seq<Node>, i: nat, priority: nat)
    requires 1 <= i <= |h| + 1
    decreases i
  {
    i == 1 || (h[i / 2 - 1].priority >= 0
               && (h[i / 2 - 1].priority <= priority || StopsBelowNegative(h, i / 2, priority)))
  }

  /**
   Whether a sift-up from hole i ends where the order asks for. A priority below 2^15 has to stop
   below every negative one. One from 2^15 on is stored as a negative number, and only negative
   parents make way for it: it needs one above it, or the root.
   */
  predicate LandsRight(h: seq<Node>, i: nat, priority: nat)
    requires 1 <= i <= |h| + 1
  {
    if priority < INT_LIMIT then StopsBelowNegative(h, i, priority) else i == 1 || h[i / 2 - 1].priority < 0
  }

  ghost predicate InRange(h: seq<Node>) {
    forall j :: 0 <= j < |h| ==> -INT_LIMIT <= h[j].priority < INT_LIMIT
  }

  lemma {:induction false} StopsBelowNegativeFrame(h: seq<Node>, h': seq<Node>, i: nat, priority: nat)
    requires 1 <= i <= |h| + 1 && i <= |h'| + 1
    requires h[..i - 1] == h'[..i - 1]
    ensures StopsBelowNegative(h, i, priority) == StopsBelowNegative(h', i, priority)
  {
    if i > 1 {
      assert h[i / 2 - 1] == h[..i - 1][i / 2 - 1] == h'[i / 2 - 1];
      assert h[..i / 2 - 1] == h[..i - 1][..i / 2 - 1] == h'[..i / 2 - 1];
      StopsBelowNegativeFrame(h, h', i / 2, priority);
    }
  }

  /** Moving the parent into the hole keeps the order around the hole, now at the parent. */
  lemma HoleUp(h: seq<Node>, i: nat)
    requires 2 <= i <= |h| && OrderedAround(h, i)
    ensures OrderedAround(h[i - 1 := h[i / 2 - 1]], i / 2)
    ensures forall j :: 2 <= j <= |h| && j / 2 == i / 2 ==>
                        h[i / 2 - 1].priority <= h[i - 1 := h[i / 2 - 1]][j - 1].priority
  {
    var r := h[i - 1 := h[i / 2 - 1]];
    forall j | 2 <= j <= |r| && j / 2 == i / 2 ensures h[i / 2 - 1].priority <= r[j - 1].priority {
      if j != i {
        assert Edge(h, j);
      }
    }
    forall j | 2 <= j <= |r| && j != i / 2 && j / 2 != i / 2 ensures Edge(r, j) {
      if j / 2 == i {
        assert Skip(h, j);
      } else {
        assert Edge(h, j);
      }
    }
    forall j | 4 <= j <= |r| && j / 2 == i / 2 ensures Skip(r, j) {
      assert Edge(h, j / 2);
      if j != i {
        assert Edge(h, j);
      }
    }
  }

  lemma {:induction false} SiftUpOrdered(h: seq<Node>, i: nat, priority: nat, x: Node)
    requires 1 <= i <= |h| && OrderedAround(h, i) && InRange(h)
    requires priority < WORD && x.priority == Signed(priority)
    requires forall j :: 2 <= j <= |h| && j / 2 == i ==> x.priority <= h[j - 1].priority
    requires LandsRight(h, i, priority)
    ensures Ordered(SiftUp(h, i, priority, x))
    decreases i
  {
    if i > 1 && Unsigned(h[i / 2 - 1].priority) > priority {
      var h' := h[i - 1 := h[i / 2 - 1]];
      HoleUp(h, i);
      StopsBelowNegativeFrame(h, h', i / 2, priority);
      if i / 2 > 1 {
        assert Edge(h, i / 2);
      }
      SiftUpOrdered(h', i / 2, priority, x);
    } else {
      FillHole(h, i, x);
    }
  }

  lemma {:induction false} SiftUpKeepsBelow(h: seq<Node>, i: nat, priority: nat, x: Node, j: nat)
    requires 1 <= i < j <= |h|
    ensures SiftUp(h, i, priority, x)[j - 1] == h[j - 1]
    decreases i
  {
    if i > 1 && Unsigned(h[i / 2 - 1].priority) > priority {
      SiftUpKeepsBelow(h[i - 1 := h[i / 2 - 1]], i / 2, priority, x, j);
    }
  }

  /** Above a negative parent every ancestor is negative, so the sift-up runs on to the root. */
  lemma {:induction false} ClimbsToRoot(h: seq<Node>, i: nat, priority: nat, x: Node)
    requires 2 <= i <= |h| && OrderedAround(h, i) && InRange(h)
    requires priority < INT_LIMIT && h[i / 2 - 1].priority < 0
    ensures SiftUp(h, i, priority, x)[0] == x
    decreases i
  {
    var h' := h[i - 1 := h[i / 2 - 1]];
    if i / 2 > 1 {
      assert Edge(h, i / 2);
      HoleUp(h, i);
      ClimbsToRoot(h', i / 2, priority, x);
    }
  }

  lemma {:induction false} SiftUpUnordered(h: seq<Node>, i: nat, priority: nat, x: Node)
    requires 1 <= i <= |h| && OrderedAround(h, i) && InRange(h)
    requires priority < WORD && x.priority == Signed(priority)
    requires !LandsRight(h, i, priority)
    ensures !Ordered(SiftUp(h, i, priority, x))
    decreases i
  {
    var h' := h[i - 1 := h[i / 2 - 1]];
    var r := SiftUp(h, i, priority, x);
    if priority >= INT_LIMIT {
      assert r == h[i - 1 := x];
      assert !Edge(r, i);
    } else if h[i / 2 - 1].priority < 0 {
      ClimbsToRoot(h, i, priority, x);
      SiftUpKeepsBelow(h', i / 2, priority, x, i);
      if Ordered(r) {
        RootIsLeast(r, i);
        assert false;
      }
    } else {
      HoleUp(h, i);
      StopsBelowNegativeFrame(h, h', i / 2, priority);
      SiftUpUnordered(h', i / 2, priority, x);
    }
  }

  lemma AppendAround(h: seq<Node>, x: Node)
    requires Ordered(h)
    ensures OrderedAround(h + [x], |h| + 1)
  {
    var g := h + [x];
    forall j | 2 <= j <= |g| && j != |g| && j / 2 != |g| ensures Edge(g, j) {
      assert Edge(h, j);
    }
  }

  /**
   Line 63 of pqueue.h compares a signed priority with an unsigned one, and line 68 stores the
   unsigned one as signed. On an ordered heap the push keeps the order exactly when its sift-up
   lands right, for every size_t.
   */
  lemma PushOrdered(h: seq<Node>, task: nat, ticks: nat)
    requires Ordered(h) && InRange(h) && ticks < WORD
    ensures Ordered(Push(h, ticks, NodeFor(task, ticks))) <==> LandsRight(h, |h| + 1, ticks)
  {
    var x := NodeFor(task, ticks);
    var g := h + [x];
    AppendAround(h, x);
    assert g[..|h|] == h[..|h|];
    StopsBelowNegativeFrame(h, g, |g|, ticks);
    assert LandsRight(h, |h| + 1, ticks) == LandsRight(g, |g|, ticks);
    if LandsRight(g, |g|, ticks) {
      SiftUpOrdered(g, |g|, ticks, x);
    } else {
      SiftUpUnordered(g, |g|, ticks, x);
    }
  }

  /** A heap of non-negative priorities stays ordered under every push below 2^15. */
  lemma {:induction false} StopsWhenNonNegative(h: seq<Node>, i: nat, priority: nat)
    requires 1 <= i <= |h| + 1
    requires forall j :: 0 <= j < |h| ==> h[j].priority >= 0
    ensures StopsBelowNegative(h, i, priority)
  {
    if i > 1 {
      StopsWhenNonNegative(h, i / 2, priority);
    }
  }

  /** Some ancestor of slot i has a priority in 0..priority, where a short sift-up comes to a halt. */
  predicate Halts(h: seq<Node>, i: nat, priority: nat)
    requires 1 <= i <= |h| + 1
    decreases i
  {
    i > 1 && (0 <= h[i / 2 - 1].priority <= priority || Halts(h, i / 2, priority))
  }

  lemma {:induction false} NoHaltAboveNegative(h: seq<Node>, i: nat, priority: nat)
    requires Ordered(h) && 2 <= i <= |h| + 1 && h[i / 2 - 1].priority < 0
    ensures !Halts(h, i, priority)
    decreases i
  {
    if i / 2 > 1 {
      assert Edge(h, i / 2);
      NoHaltAboveNegative(h, i / 2, priority);
    }
  }

  lemma {:induction false} HaltsOrClimbs(h: seq<Node>, i: nat, priority: nat)
    requires Ordered(h) && 2 <= i <= |h| + 1 && h[0].priority < 0
    ensures Halts(h, i, priority) == StopsBelowNegative(h, i, priority)
    decreases i
  {
    if h[i / 2 - 1].priority < 0 {
      NoHaltAboveNegative(h, i, priority);
    } else if h[i / 2 - 1].priority > priority {
      HaltsOrClimbs(h, i / 2, priority);
    }
  }

  /** Below a negative root a push shorter than 2^15 keeps order exactly when it comes to a halt on its way up. */
  lemma PushUnderNegativeRoot(h: seq<Node>, task: nat, ticks: nat)
    requires Ordered(h) && InRange(h) && h != [] && h[0].priority < 0 && ticks < INT_LIMIT
    ensures Ordered(Push(h, ticks, NodeFor(task, ticks))) <==> Halts(h, |h| + 1, ticks)
  {
    PushOrdered(h, task, ticks);
    HaltsOrClimbs(h, |h| + 1, ticks);
  }

  // ---------- pop ----------

  lemma SmallestIsLeast(h: seq<Node>, i: nat, last: Node)
    requires 1 <= i <= |h|
    ensures var k := Smallest(h, i, last);
            var least := if k <= |h| then h[k - 1] else last;
            && least.priority <= last.priority
            && (forall j :: 2 <= j <= |h| && j / 2 == i ==> least.priority <= h[j - 1].priority)
  {
  }

  /** Moving the smaller child into the hole keeps the order around the hole, now at that child. */
  lemma HoleDown(h: seq<Node>, i: nat, k: nat)
    requires 1 <= i && 2 <= k <= |h| && k / 2 == i && OrderedAround(h, i)
    requires forall j :: 2 <= j <= |h| && j / 2 == i ==> h[k - 1].priority <= h[j - 1].priority
    ensures OrderedAround(h[i - 1 := h[k - 1]], k)
  {
    var r := h[i - 1 := h[k - 1]];
    forall j | 2 <= j <= |r| && j != k && j / 2 != k ensures Edge(r, j) {
      if j == i {
        assert k / 2 == i && Skip(h, k);
      } else if j / 2 != i {
        assert Edge(h, j);
      }
    }
    forall j | 4 <= j <= |r| && j / 2 == k ensures Skip(r, j) {
      assert Edge(h, j);
    }
  }

  lemma {:induction false} SiftDownOrdered(h: seq<Node>, i: nat, last: Node)
    requires 1 <= i <= |h| && OrderedAround(h, i)
    requires i > 1 ==> h[i / 2 - 1].priority <= last.priority
    ensures Ordered(SiftDown(h, i, last))
    decreases |h| - i
  {
    var k := Smallest(h, i, last);
    SmallestIsLeast(h, i, last);
    if k == |h| + 1 {
      FillHole(h, i, last);
    } else {
      HoleDown(h, i, k);
      SiftDownOrdered(h[i - 1 := h[k - 1]], k, last);
    }
  }

  /** A pop looks at no priority of the root, so it restores order whatever the root holds. */
  lemma PopOrdered(h: seq<Node>)
    requires OrderedAround(h, 1) && h != []
    ensures Ordered(Pop(h))
  {
    var last := h[|h| - 1];
    var rest := h[..|h| - 1];
    if rest != [] {
      var g := rest[0 := last];
      forall j | 2 <= j <= |g| && j != 1 && j / 2 != 1 ensures Edge(g, j) {
        assert Edge(h, j);
      }
      SiftDownOrdered(g, 1, last);
    }
  }

  // ---------- contents ----------

  /** Copying slot k into hole i and refilling slot k is the same collection as refilling the hole. */
  lemma MultisetMove(h: seq<Node>, i: nat, k: nat, x: Node)
    requires i < |h| && k < |h| && i != k
    ensures multiset(h[i := h[k]][k := x]) == multiset(h[i := x])
  {
    MultisetOfUpdate(h, i, h[k]);
    MultisetOfUpdate(h[i := h[k]], k, x);
    MultisetOfUpdate(h, i, x);
  }

  lemma SiftUpOnce(h: seq<Node>, i: nat, priority: nat, x: Node)
    requires 1 <= i <= |h|
    ensures if i > 1 && Unsigned(h[i / 2 - 1].priority) > priority then
              var up := h[i - 1 := h[i / 2 - 1]];
              && SiftUp(h, i, priority, x) == SiftUp(up, i / 2, priority, x)
              && multiset(up[i / 2 - 1 := x]) == multiset(h[i - 1 := x])
            else SiftUp(h, i, priority, x) == h[i - 1 := x]
  {
    if i > 1 && Unsigned(h[i / 2 - 1].priority) > priority {
      MultisetMove(h, i - 1, i / 2 - 1, x);
    }
  }

  lemma {:induction false} SiftUpContents(h: seq<Node>, i: nat, priority: nat, x: Node)
    requires 1 <= i <= |h|
    ensures multiset(SiftUp(h, i, priority, x)) == multiset(h[i - 1 := x])
    decreases i
  {
    hide SiftUp;
    SiftUpOnce(h, i, priority, x);
    if i > 1 && Unsigned(h[i / 2 - 1].priority) > priority {
      SiftUpContents(h[i - 1 := h[i / 2 - 1]], i / 2, priority, x);
    }
  }

  lemma SiftDownOnce(h: seq<Node>, i: nat, last: Node)
    requires 1 <= i <= |h|
    ensures var k := Smallest(h, i, last);
            if k == |h| + 1 then SiftDown(h, i, last) == h[i - 1 := last] else
            && SiftDown(h, i, last) == SiftDown(h[i - 1 := h[k - 1]], k, last)
            && multiset(h[i - 1 := h[k - 1]][k - 1 := last]) == multiset(h[i - 1 := last])
  {
    var k := Smallest(h, i, last);
    if k != |h| + 1 {
      MultisetMove(h, i - 1, k - 1, last);
    }
  }

  lemma {:induction false} SiftDownContents(h: seq<Node>, i: nat, last: Node)
    requires 1 <= i <= |h|
    ensures multiset(SiftDown(h, i, last)) == multiset(h[i - 1 := last])
    decreases |h| - i
  {
    hide SiftDown;
    var k := Smallest(h, i, last);
    SiftDownOnce(h, i, last);
    if k != |h| + 1 {
      SiftDownContents(h[i - 1 := h[k - 1]], k, last);
    }
  }

  /** A push adds exactly its node, whatever the order of the heap. */
  lemma PushContents(h: seq<Node>, priority: nat, x: Node)
    ensures multiset(Push(h, priority, x)) == multiset(h) + multiset{x}
  {
    SiftUpContents(h + [x], |h| + 1, priority, x);
    assert (h + [x])[|h| := x] == h + [x];
  }

  /** A pop removes exactly the root, whatever the order of the heap. */
  lemma PopContents(h: seq<Node>)
    requires h != []
    ensures multiset(h) == multiset(Pop(h)) + multiset{h[0]}
  {
    var last := h[|h| - 1];
    var rest := h[..|h| - 1];
    assert h == rest + [last];
    if rest != [] {
      MultisetOfUpdate(rest, 0, last);
      SiftDownContents(rest[0 := last], 1, last);
    }
  }

  // ---------- heap sort ----------

  /** Push every ticks value in turn, in order. */
  function PushAll(h: seq<Node>, xs: seq<Node>): seq<Node>
    decreases |xs|
  {
    if xs == [] then h else PushAll(Push(h, xs[0].ticks, xs[0]), xs[1..])
  }

  /** Pop until the heap is empty. */
  function PopAll(h: seq<Node>): (r: seq<Node>)
    decreases |h|
  {
    if h == [] then [] else [h[0]] + PopAll(Pop(h))
  }

  ghost predicate Sorted(xs: seq<Node>) {
    forall i, j :: 0 <= i < j < |xs| ==> xs[i].priority <= xs[j].priority
  }

  /** Nodes as pqueue_sleep_push stores them, for any size_t. */
  ghost predicate Fresh(xs: seq<Node>) {
    forall i :: 0 <= i < |xs| ==> xs[i].ticks < WORD && xs[i].priority == Signed(xs[i].ticks)
  }

  lemma {:induction false} PopAllContents(h: seq<Node>)
    ensures multiset(PopAll(h)) == multiset(h)
    decreases |h|
  {
    if h != [] {
      PopContents(h);
      PopAllContents(Pop(h));
    }
  }

  lemma RestBefore(h: seq<Node>)
    requires Ordered(h) && h != []
    ensures forall j :: 0 <= j < |PopAll(Pop(h))| ==> h[0].priority <= PopAll(Pop(h))[j].priority
  {
    hide PopAll, Pop;
    var rest := PopAll(Pop(h));
    PopContents(h);
    PopAllContents(Pop(h));
    forall j | 0 <= j < |rest| ensures h[0].priority <= rest[j].priority {
      assert rest[j] in multiset(rest);
      assert rest[j] in multiset(h);
      var i :| 0 <= i < |h| && h[i] == rest[j];
      RootIsLeast(h, i + 1);
    }
  }

  lemma SortedCons(x: Node, rest: seq<Node>)
    requires Sorted(rest) && forall j :: 0 <= j < |rest| ==> x.priority <= rest[j].priority
    ensures Sorted([x] + rest)
  {
  }

  lemma {:induction false} PopAllSorted(h: seq<Node>)
    requires Ordered(h)
    ensures Sorted(PopAll(h)) && multiset(PopAll(h)) == multiset(h)
    decreases |h|
  {
    hide Pop;
    PopAllContents(h);
    if h != [] {
      PopOrdered(h);
      PopAllSorted(Pop(h));
      RestBefore(h);
      SortedCons(h[0], PopAll(Pop(h)));
    }
  }

  /** All stored priorities are negative, or none is. */
  ghost predicate OnSide(xs: seq<Node>, negative: bool) {
    forall j :: 0 <= j < |xs| ==> (xs[j].priority < 0 <==> negative)
  }

  lemma PushSameSide(h: seq<Node>, x: Node, negative: bool)
    requires Ordered(h) && InRange(h) && OnSide(h, negative) && Fresh([x]) && (x.priority < 0 <==> negative)
    ensures var g := Push(h, x.ticks, x); Ordered(g) && InRange(g) && OnSide(g, negative)
  {
    var g := Push(h, x.ticks, x);
    assert Fresh([x]) && x == [x][0] && x == NodeFor(x.task, x.ticks);
    if !negative {
      StopsWhenNonNegative(h, |h| + 1, x.ticks);
    }
    PushOrdered(h, x.task, x.ticks);
    PushContents(h, x.ticks, x);
    forall j | 0 <= j < |g| ensures -INT_LIMIT <= g[j].priority < INT_LIMIT && (g[j].priority < 0 <==> negative) {
      assert g[j] in multiset(h) + multiset{x};
    }
  }

  lemma {:induction false} PushAllOrdered(h: seq<Node>, xs: seq<Node>, negative: bool)
    requires Ordered(h) && InRange(h) && OnSide(h, negative) && Fresh(xs) && OnSide(xs, negative)
    ensures Ordered(PushAll(h, xs))
    decreases |xs|
  {
    if xs != [] {
      assert [xs[0]] == xs[..1];
      PushSameSide(h, xs[0], negative);
      PushAllOrdered(Push(h, xs[0].ticks, xs[0]), xs[1..], negative);
    }
  }

  lemma {:induction false} PushAllContents(h: seq<Node>, xs: seq<Node>)
    ensures multiset(PushAll(h, xs)) == multiset(h) + multiset(xs)
    decreases |xs|
  {
    if xs != [] {
      PushContents(h, xs[0].ticks, xs[0]);
      PushAllContents(Push(h, xs[0].ticks, xs[0]), xs[1..]);
      assert xs == [xs[0]] + xs[1..];
    }
  }

  // ---------- both sides of 2^15 in one heap ----------

  /** A negative priority below a root that is not negative. */
  ghost predicate Buried(h: seq<Node>) {
    h != [] && h[0].priority >= 0 && exists j :: 0 <= j < |h| && h[j].priority < 0
  }

  /** Only the pushed node can replace the root, and a negative one never replaces another kind. */
  lemma {:induction false} SiftUpRoot(h: seq<Node>, i: nat, priority: nat, x: Node)
    requires 2 <= i <= |h|
    ensures var r := SiftUp(h, i, priority, x);
            && (r[0] == x || r[0] == h[0])
            && (INT_LIMIT <= priority && 0 <= h[0].priority < INT_LIMIT ==> r[0] == h[0])
    decreases i
  {
    if Unsigned(h[i / 2 - 1].priority) > priority && i / 2 > 1 {
      SiftUpRoot(h[i - 1 := h[i / 2 - 1]], i / 2, priority, x);
    }
  }

  lemma PushInRange(h: seq<Node>, x: Node)
    requires InRange(h) && Fresh([x])
    ensures InRange(Push(h, x.ticks, x))
  {
    var g := Push(h, x.ticks, x);
    assert x == [x][0];
    PushContents(h, x.ticks, x);
    forall j | 0 <= j < |g| ensures -INT_LIMIT <= g[j].priority < INT_LIMIT {
      assert g[j] in multiset(h) + multiset{x};
    }
  }

  /** A negative node that is in the heap or is pushed is in it afterwards. */
  lemma PushKeepsNegative(h: seq<Node>, x: Node, y: Node)
    requires y.priority < 0 && y in h + [x]
    ensures exists j :: 0 <= j < |Push(h, x.ticks, x)| && Push(h, x.ticks, x)[j].priority < 0
  {
    var g := Push(h, x.ticks, x);
    PushContents(h, x.ticks, x);
    assert y in multiset(h) + multiset{x};
    assert y in multiset(g);
    var j :| 0 <= j < |g| && g[j] == y;
  }

  lemma PushBuries(h: seq<Node>, x: Node)
    requires InRange(h) && Fresh([x]) && h != []
    requires Buried(h) || (Ordered(h) && OnSide(h, x.priority >= 0))
    ensures Buried(Push(h, x.ticks, x))
  {
    var g := h + [x];
    assert x == [x][0];
    SiftUpRoot(g, |g|, x.ticks, x);
    if x.priority < 0 {
      PushKeepsNegative(h, x, x);
    } else {
      var j :| 0 <= j < |h| && h[j].priority < 0;
      PushKeepsNegative(h, x, h[j]);
      if !Buried(h) {
        AppendAround(h, x);
        assert h[(|h| + 1) / 2 - 1].priority < 0;
        ClimbsToRoot(g, |g|, x.ticks, x);
      }
    }
  }

  lemma {:induction false} StaysBuried(h: seq<Node>, xs: seq<Node>)
    requires Buried(h) && InRange(h) && Fresh(xs)
    ensures Buried(PushAll(h, xs))
    decreases |xs|
  {
    if xs != [] {
      assert [xs[0]] == xs[..1];
      PushBuries(h, xs[0]);
      PushInRange(h, xs[0]);
      StaysBuried(Push(h, xs[0].ticks, xs[0]), xs[1..]);
    }
  }

  lemma OnSideTail(xs: seq<Node>, negative: bool)
    requires xs != []
    ensures OnSide(xs, negative) <==> (xs[0].priority < 0 <==> negative) && OnSide(xs[1..], negative)
  {
    forall j | 0 < j < |xs| ensures xs[j] == xs[1..][j - 1] {
    }
  }

  /** The first push from the other side buries a negative priority for good. */
  lemma {:induction false} MixBuries(h: seq<Node>, xs: seq<Node>, negative: bool)
    requires Ordered(h) && InRange(h) && h != [] && OnSide(h, negative) && Fresh(xs) && !OnSide(xs, negative)
    ensures Buried(PushAll(h, xs))
    decreases |xs|
  {
    var x := xs[0];
    var g := Push(h, x.ticks, x);
    assert [x] == xs[..1];
    if x.priority < 0 <==> negative {
      PushSameSide(h, x, negative);
      OnSideTail(xs, negative);
      MixBuries(g, xs[1..], negative);
    } else {
      PushBuries(h, x);
      PushInRange(h, x);
      StaysBuried(g, xs[1..]);
    }
  }

  lemma BuriedUnsorted(h: seq<Node>)
    requires Buried(h)
    ensures !Sorted(PopAll(h))
  {
    var j :| 0 <= j < |h| && h[j].priority < 0;
    PopAllContents(h);
    assert h[j] in multiset(PopAll(h));
    var i :| 0 <= i < |PopAll(h)| && PopAll(h)[i] == h[j];
    assert PopAll(h)[0] == h[0];
  }

  lemma MixedUnsorted(xs: seq<Node>, negative: bool)
    requires Fresh(xs) && xs != [] && (xs[0].priority < 0 <==> negative) && !OnSide(xs, negative)
    ensures !Sorted(PopAll(PushAll([], xs)))
  {
    assert [xs[0]] == xs[..1];
    PushSameSide([], xs[0], negative);
    if OnSide(xs[1..], negative) {
      forall j | 0 <= j < |xs| ensures xs[j].priority < 0 <==> negative {
        assert j > 0 ==> xs[j] == xs[1..][j - 1];
      }
    }
    MixBuries(Push([], xs[0].ticks, xs[0]), xs[1..], negative);
    BuriedUnsorted(PushAll([], xs));
  }

  /** All sleeps are shorter than 2^15 ticks, and all are at least as long. */
  ghost predicate AllShort(xs: seq<Node>) {
    forall j :: 0 <= j < |xs| ==> xs[j].ticks < INT_LIMIT
  }

  ghost predicate AllLong(xs: seq<Node>) {
    forall j :: 0 <= j < |xs| ==> xs[j].ticks >= INT_LIMIT
  }

  lemma SideOfSleeps(xs: seq<Node>)
    requires Fresh(xs)
    ensures OnSide(xs, false) <==> AllShort(xs)
    ensures OnSide(xs, true) <==> AllLong(xs)
  {
    assert forall j :: 0 <= j < |xs| ==> (xs[j].priority < 0 <==> xs[j].ticks >= INT_LIMIT);
  }

  lemma SameSideSorted(xs: seq<Node>, negative: bool)
    requires Fresh(xs) && OnSide(xs, negative)
    ensures Sorted(PopAll(PushAll([], xs)))
  {
    PushAllOrdered([], xs, negative);
    PopAllSorted(PushAll([], xs));
  }

  /**
   Pushing any sequence of sleeps and popping them all yields the same nodes, and sorts them by
   stored priority exactly when all are shorter than 2^15 ticks or none is.
   */
  lemma HeapSort(xs: seq<Node>)
    requires Fresh(xs)
    ensures multiset(PopAll(PushAll([], xs))) == multiset(xs)
    ensures Sorted(PopAll(PushAll([], xs))) <==> AllShort(xs) || AllLong(xs)
  {
    PushAllContents([], xs);
    PopAllContents(PushAll([], xs));
    SideOfSleeps(xs);
    if AllShort(xs) {
      SameSideSorted(xs, false);
    } else if AllLong(xs) {
      SameSideSorted(xs, true);
    } else {
      MixedUnsorted(xs, xs[0].priority < 0);
    }
  }
}
