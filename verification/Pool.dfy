/** The static memory pool of pool.h: a free list threaded through a fixed array of items. */
module Pool {
  import opened Sequences
  import opened SinglyLinked

  // ---------- what the pool promises over a run ----------

  datatype Op = Alloc | Free(slot: nat)

  /** The free list, the slots in use, and whether an alloc so far handed out a slot in use. */
  datatype Run = Run(free: seq<nat>, live: set<nat>, doubled: bool)

  /** One call; free is called on allocated slots only. */
  function Next(s: Run, op: Op): Run {
    match op
    case Alloc => if s.free == [] then s
                  else Run(s.free[1..], s.live + {s.free[0]}, s.doubled || s.free[0] in s.live)
    case Free(slot) => Run([slot] + s.free, s.live - {slot}, s.doubled)
  }

  ghost predicate ValidRun(s: Run, ops: seq<Op>)
    decreases |ops|
  {
    ops == [] || ((ops[0].Free? ==> ops[0].slot in s.live) && ValidRun(Next(s, ops[0]), ops[1..]))
  }

  function Exec(s: Run, ops: seq<Op>): Run
    decreases |ops|
  {
    if ops == [] then s else Exec(Next(s, ops[0]), ops[1..])
  }

  function Slots(n: nat): (r: set<nat>)
    ensures |r| == n && forall i: nat :: i in r <==> i < n
  {
    if n == 0 then {} else Slots(n - 1) + {n - 1}
  }

  /** The slots of a pool are split between the free list, without repetition, and the live ones. */
  ghost predicate Sound(size: nat, s: Run) {
    && Distinct(s.free) && !s.doubled
    && (forall i: nat :: i < size <==> (i in s.free || i in s.live))
    && (forall i: nat :: i in s.free ==> i !in s.live)
  }

  lemma SoundNext(size: nat, s: Run, op: Op)
    requires Sound(size, s) && (op.Free? ==> op.slot in s.live)
    ensures Sound(size, Next(s, op))
  {
    var r := Next(s, op);
    match op
    case Alloc =>
      if s.free != [] {
        var x := s.free[0];
        assert s.free == [x] + r.free;
        assert forall i: nat :: i in s.free <==> i == x || i in r.free;
        assert x !in r.free;
      }
    case Free(slot) =>
      assert slot !in s.free;
      assert forall i: nat :: i in r.free <==> i == slot || i in s.free;
  }

  /**
   After any sequence of allocs and valid frees the free list holds no slot twice, free and
   live slots partition the array, no alloc ever returned a live slot, and the next alloc
   fails exactly when every slot is live.
   */
  lemma {:induction false} PoolSound(size: nat, s: Run, ops: seq<Op>)
    requires Sound(size, s) && ValidRun(s, ops)
    ensures Sound(size, Exec(s, ops))
    ensures Exec(s, ops).free == [] <==> Exec(s, ops).live == Slots(size)
    decreases |ops|
  {
    if ops == [] {
      if s.free != [] {
        assert s.free[0] in s.free && s.free[0] !in s.live && s.free[0] in Slots(size);
      }
    } else {
      SoundNext(size, s, ops[0]);
      PoolSound(size, Next(s, ops[0]), ops[1..]);
    }
  }

  // ---------- the pool itself ----------

  ghost function SlotsOf(e: seq<Element>): (r: seq<nat>)
    ensures |r| == |e|
  {
    seq(|e|, i requires 0 <= i < |e| => e[i].slot)
  }

  /** The free list after initialisation: the last slot first. */
  function Descending(n: nat): seq<nat> {
    if n == 0 then [] else [n - 1] + Descending(n - 1)
  }

  lemma {:induction false} DescendingMember(n: nat, i: nat)
    ensures i in Descending(n) <==> i < n
  {
    if n > 0 {
      DescendingMember(n - 1, i);
    }
  }

  lemma {:induction false} DescendingDistinct(n: nat)
    ensures Distinct(Descending(n))
  {
    if n > 0 {
      var d := Descending(n - 1);
      DescendingDistinct(n - 1);
      DescendingMember(n - 1, n - 1);
      assert forall j :: 0 <= j < |d| ==> d[j] in d;
    }
  }

  /** All that holds of every sequence of allocs and valid frees after pool_init. */
  lemma PoolSoundFromInit(size: nat, ops: seq<Op>)
    requires ValidRun(Run(Descending(size), {}, false), ops)
    ensures var r := Exec(Run(Descending(size), {}, false), ops);
            Sound(size, r) && (r.free == [] <==> r.live == Slots(size))
  {
    DescendingDistinct(size);
    forall i: nat ensures i < size <==> i in Descending(size) {
      DescendingMember(size, i);
    }
    PoolSound(size, Run(Descending(size), {}, false), ops);
  }

  lemma ListedSlot(e: seq<Element>, x: Element)
    ensures x in e ==> x.slot in SlotsOf(e)
  {
    if x in e {
      var i :| 0 <= i < |e| && e[i] == x;
      assert SlotsOf(e)[i] == x.slot;
    }
  }

  class Allocator {
    const items: seq<Element>
    const freeList: SList
    /** All objects of the pool. */
    ghost const Repr: set<object>

    ghost predicate Valid()
      reads Repr
    {
      && freeList in Repr && freeList.head in Repr && (forall e :: e in items ==> e in Repr)
      && (forall e :: e in freeList.chain ==> e in Repr)
      && freeList.Valid() && freeList.head !in items
      && (forall i :: 0 <= i < |items| ==> items[i].slot == i)
      && (forall e :: e in freeList.Elems() ==> e in items)
    }

    /** The free list as the slots it holds. */
    ghost function FreeSlots(): (r: seq<nat>)
      reads Repr
      requires Valid()
    {
      SlotsOf(freeList.Elems())
    }

    /** Initialises the pool: every item is prepended to the free list in turn. */
    constructor (items: seq<Element>)
      requires forall i :: 0 <= i < |items| ==> items[i].slot == i
      modifies items
      ensures Valid() && fresh(Repr - (set e | e in items))
      ensures forall o :: o in Repr ==> fresh(o) || o in items
      ensures FreeSlots() == Descending(|items|)
      ensures this.items == items
    {
      var list := new SList();
      this.items := items;
      freeList := list;
      Repr := {list, list.head} + (set e | e in items);
      new;
      Fill();
    }

    method Fill()
      requires Valid() && FreeSlots() == []
      modifies Repr
      ensures Valid() && FreeSlots() == Descending(|items|)
    {
      for i := 0 to |items|
        invariant Valid() && FreeSlots() == Descending(i)
      {
        DescendingMember(i, i);
        Free(i);
      }
    }

    /** Links a slot back into the free list. */
    method Free(slot: nat)
      requires Valid() && slot < |items| && slot !in FreeSlots()
      modifies Repr
      ensures Valid() && FreeSlots() == [slot] + old(FreeSlots())
    {
      assert freeList.chain == [freeList.head] + freeList.Elems();
      ListedSlot(freeList.Elems(), items[slot]);
      freeList.Prepend(items[slot]);
      assert freeList.chain == [freeList.head] + freeList.Elems();
    }

    method Alloc() returns (ok: bool, slot: nat)
      requires Valid()
      modifies Repr
      ensures Valid() && ok == (old(FreeSlots()) != [])
      ensures if ok then slot < |items| && slot == old(FreeSlots())[0] && FreeSlots() == old(FreeSlots())[1..]
              else FreeSlots() == []
    {
      ghost var was := freeList.Elems();
      var element := freeList.RemoveHead();
      if element == null {
        return false, 0;
      }
      assert freeList.chain == [freeList.head] + freeList.Elems();
      assert element in items;
      return true, element.slot;
    }
  }
}
