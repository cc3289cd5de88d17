/** The intrusive circular doubly linked list of list.h, its membership bit and its iterators. */
module CircularList {
  import opened Sequences

  import opened Cursors

  // ---------- the list itself ----------

  /** A list element; owner is the task it is embedded in. */
  class Element {
    var prev: Element?
    var next: Element?
    const owner: nat

    constructor (owner: nat)
      ensures prev == null && next == null && this.owner == owner
    {
      this.owner := owner;
      prev, next := null, null;
    }
  }

  ghost predicate LinkedAt(ring: seq<Element>, i: nat)
    requires i < |ring|
    reads ring
  {
    ring[i].next == ring[Succ(i, |ring|)] && ring[i].prev == ring[Pred(i, |ring|)]
  }

  ghost predicate Linked(ring: seq<Element>)
    reads ring
  {
    forall i :: 0 <= i < |ring| ==> LinkedAt(ring, i)
  }

  /** The links of was with e spliced in behind position i are the links of the longer ring. */
  lemma SplicedIn(was: seq<Element>, i: nat, e: Element)
    requires i < |was|
    requires e.prev == was[i] && e.next == was[Succ(i, |was|)]
    requires forall j :: 0 <= j < |was| ==> was[j].next == if j == i then e else was[Succ(j, |was|)]
    requires forall j :: 0 <= j < |was| ==> was[j].prev == if j == Succ(i, |was|) then e else was[Pred(j, |was|)]
    ensures Linked(InsertAt(was, i + 1, e))
  {
    var r := InsertAt(was, i + 1, e);
    forall j | 0 <= j < |r| ensures LinkedAt(r, j) {
      if j <= i {
        assert r[j] == was[j];
      } else if j > i + 1 {
        assert r[j] == was[j - 1];
      }
    }
  }

  /** The links of was with position i bypassed are the links of the shorter ring. */
  lemma SplicedOut(was: seq<Element>, i: nat)
    requires 0 < i < |was|
    requires forall j :: 0 <= j < |was| && j != i ==>
               was[j].next == if j + 1 == i then was[Succ(i, |was|)] else was[Succ(j, |was|)]
    requires forall j :: 0 <= j < |was| && j != i ==>
               was[j].prev == if j == Succ(i, |was|) then was[i - 1] else was[Pred(j, |was|)]
    ensures Linked(RemoveAt(was, i))
  {
    var r := RemoveAt(was, i);
    forall j | 0 <= j < |r| ensures LinkedAt(r, j) {
      if j < i {
        assert r[j] == was[j];
      } else {
        assert r[j] == was[j + 1];
      }
    }
  }

  /** The tasks of a run of elements. */
  ghost function Owners(e: seq<Element>): (r: seq<nat>)
    ensures |r| == |e|
  {
    seq(|e|, i requires 0 <= i < |e| => e[i].owner)
  }

  lemma OwnersInsert(was: seq<Element>, i: nat, e: Element)
    requires i < |was|
    ensures Owners(InsertAt(was, i + 1, e)[1..]) == InsertAt(Owners(was[1..]), i, e.owner)
  {
    var r := InsertAt(was, i + 1, e);
    assert r[1..] == InsertAt(was[1..], i, e);
  }

  lemma OwnersRemove(was: seq<Element>, i: nat)
    requires 0 < i < |was|
    ensures Owners(RemoveAt(was, i)[1..]) == RemoveAt(Owners(was[1..]), i - 1)
  {
    var r := RemoveAt(was, i);
    assert r[1..] == RemoveAt(was[1..], i - 1);
    var a, b := Owners(r[1..]), RemoveAt(Owners(was[1..]), i - 1);
    forall j | 0 <= j < |a| ensures a[j] == b[j] {
      assert r[1..][j] == was[1..][if j < i - 1 then j else j + 1];
    }
  }

  class List {
    const head: Element
    /** The pseudo head followed by the members. */
    ghost var ring: seq<Element>

    ghost predicate Valid()
      reads this, ring
    {
      && ring != [] && ring[0] == head && Distinct(ring) && Linked(ring)
      && Distinct(Owners(ring[1..]))
    }

    /** The tasks on the list, first to last. */
    ghost function Contents(): seq<nat>
      reads this
    {
      if ring == [] then [] else Owners(ring[1..])
    }

    /** An element is on this list or on none: then its links are NULL. */
    ghost predicate Knows(e: Element)
      reads this, e
    {
      && (e in ring || (e.prev == null && e.next == null))
      && (e !in ring ==> e.owner !in Contents())
    }

    constructor ()
      ensures Valid() && Contents() == [] && fresh(head)
    {
      var h := new Element(0);
      head := h;
      new;
      h.prev, h.next := h, h;
      ring := [h];
    }

    method InList(e: Element) returns (b: bool)
      requires Valid() && Knows(e)
      ensures b == (e in ring)
    {
      ghost var i: nat := if e in ring then (var i :| 0 <= i < |ring| && ring[i] == e; i) else 0;
      assert LinkedAt(ring, i);
      return e.prev != null;
    }

    /** list_element_insert_after: the new member must be off every list. */
    method InsertAfter(after: Element, element: Element, ghost i: nat) returns (ok: bool)
      requires Valid() && i < |ring| && ring[i] == after && Knows(element)
      modifies this, ring, element
      ensures Valid() && ok == (element !in old(ring))
      ensures ring == if ok then InsertAt(old(ring), i + 1, element) else old(ring)
    {
      var inList := InList(element);
      if inList {
        return false;
      }
      ghost var was := ring;
      assert LinkedAt(was, i);
      element.next := after.next;
      element.prev := after;
      after.next.prev := element;
      after.next := element;
      forall j | 0 <= j < |was|
        ensures was[j].next == if j == i then element else was[Succ(j, |was|)]
        ensures was[j].prev == if j == Succ(i, |was|) then element else was[Pred(j, |was|)]
      {
        assert old(LinkedAt(was, j));
      }
      SplicedIn(was, i, element);
      InsertDistinct(was, i + 1, element);
      InsertDistinct(Owners(was[1..]), i, element.owner);
      ring := InsertAt(was, i + 1, element);
      OwnersInsert(was, i, element);
      return true;
    }

    /** list_element_insert_before: before the i-th of the ring is behind its predecessor. */
    method InsertBefore(before: Element, element: Element, ghost i: nat) returns (ok: bool)
      requires Valid() && i < |ring| && ring[i] == before && Knows(element)
      modifies this, ring, element
      ensures Valid() && ok == (element !in old(ring))
      ensures ring == if ok then InsertAt(old(ring), Pred(i, |old(ring)|) + 1, element) else old(ring)
    {
      var inList := InList(element);
      if inList {
        return false;
      }
      ghost var was := ring;
      ghost var p := Pred(i, |was|);
      assert LinkedAt(was, i);
      element.next := before;
      element.prev := before.prev;
      before.prev.next := element;
      before.prev := element;
      forall j | 0 <= j < |was|
        ensures was[j].next == if j == p then element else was[Succ(j, |was|)]
        ensures was[j].prev == if j == Succ(p, |was|) then element else was[Pred(j, |was|)]
      {
        assert old(LinkedAt(was, j));
      }
      SplicedIn(was, p, element);
      InsertDistinct(was, p + 1, element);
      InsertDistinct(Owners(was[1..]), p, element.owner);
      ring := InsertAt(was, p + 1, element);
      OwnersInsert(was, p, element);
      return true;
    }

    method Prepend(element: Element) returns (ok: bool)
      requires Valid() && Knows(element)
      modifies this, ring, element
      ensures Valid() && ok == (element !in old(ring)) && element in ring
      ensures Contents() == if ok then [element.owner] + old(Contents()) else old(Contents())
      ensures ok ==> ring == InsertAt(old(ring), 1, element)
    {
      ok := InsertAfter(head, element, 0);
      assert ok ==> ring[1] == element;
    }

    method Append(element: Element) returns (ok: bool)
      requires Valid() && Knows(element)
      modifies this, ring, element
      ensures Valid() && ok == (element !in old(ring)) && element in ring
      ensures Contents() == if ok then old(Contents()) + [element.owner] else old(Contents())
      ensures ring == if ok then old(ring) + [element] else old(ring)
    {
      ghost var was := ring;
      ok := InsertBefore(head, element, 0);
      if ok {
        assert ring == was + [element];
      }
    }

    /** The links of list_element_remove, for the i-th of the ring. */
    method Detach(element: Element, ghost i: nat)
      requires Valid() && 0 < i < |ring| && ring[i] == element
      modifies this, ring
      ensures Valid() && ring == RemoveAt(old(ring), i)
      ensures element.prev == null && element.next == null
    {
      ghost var was := ring;
      assert LinkedAt(was, i);
      element.prev.next := element.next;
      element.next.prev := element.prev;
      element.next := null;
      element.prev := null;
      forall j | 0 <= j < |was| && j != i
        ensures was[j].next == if j + 1 == i then was[Succ(i, |was|)] else was[Succ(j, |was|)]
        ensures was[j].prev == if j == Succ(i, |was|) then was[i - 1] else was[Pred(j, |was|)]
      {
        assert old(LinkedAt(was, j));
      }
      SplicedOut(was, i);
      RemoveDistinct(was, i);
      RemoveDistinct(Owners(was[1..]), i - 1);
      ring := RemoveAt(was, i);
      OwnersRemove(was, i);
    }

    /** A second removal is rejected and changes nothing. */
    method Remove(element: Element) returns (ok: bool)
      requires Valid() && Knows(element) && element != head
      modifies this, ring, element
      ensures Valid() && ok == (element in old(ring))
      ensures element.prev == null && element.next == null
      ensures Contents() == if ok then Without(old(Contents()), element.owner) else old(Contents())
      ensures forall e :: e in ring <==> e in old(ring) && e != element
    {
      var inList := InList(element);
      if !inList {
        return false;
      }
      ghost var was := ring;
      ghost var i: nat :| 0 <= i < |ring| && ring[i] == element;
      Detach(element, i);
      RemoveDistinct(was, i);
      OwnersRemove(was, i);
      assert was[i] == was[1..][i - 1];
      IndexOfDistinct(Owners(was[1..]), i - 1);
      return true;
    }
  }

  /** list_iterator: a list and an element to move on from. */
  class Iterator {
    var list: List
    var current: Element?

    ghost predicate Valid()
      reads this, list, list.ring, current
    {
      list.Valid() && (current != null ==> list.Knows(current))
    }

    ghost function Position(): Cursor
      reads this, list
    {
      if current == null then Lost else if current == list.head then Head else On(current.owner)
    }

    constructor (list: List)
      requires list.Valid()
      ensures Valid() && this.list == list && Position() == Head
    {
      this.list := list;
      current := list.head;
    }

    method Init(list: List)
      requires list.Valid()
      modifies this
      ensures Valid() && this.list == list && Position() == Head && current == list.head
    {
      this.list := list;
      current := list.head;
    }

    /** The index of a current element that is on the list. */
    ghost function Index(): (i: nat)
      requires Valid() && current in list.ring
      reads this, list, list.ring, current
      ensures i < |list.ring| && list.ring[i] == current && LinkedAt(list.ring, i)
      ensures i == 0 <==> current == list.head
      ensures i > 0 ==> list.Contents()[i - 1] == current.owner && IndexOf(list.Contents(), current.owner) == i - 1
    {
      var i :| 0 <= i < |list.ring| && list.ring[i] == current;
      assert LinkedAt(list.ring, i);
      assert i > 0 ==> list.ring[i] == list.ring[1..][i - 1];
      if i > 0 then IndexOfDistinct(list.Contents(), i - 1); i else i
    }

    /** list_iterator_next: stops in front of the pseudo head. */
    method Next() returns (ok: bool, element: Element?)
      requires Valid() && current in list.ring
      modifies this`current
      ensures Valid() && current in list.ring && ok == (old(Index()) + 1 < |list.ring|)
      ensures if ok then element == current == list.ring[old(Index()) + 1] && Index() == old(Index()) + 1
              else current == old(current)
    {
      ghost var i := Index();
      if current.next == list.head {
        assert LinkedAt(list.ring, Succ(i, |list.ring|));
        return false, null;
      }
      current := current.next;
      return true, current;
    }

    method NextCircular() returns (element: Element?)
      requires Valid() && current != null
      modifies this`current
      ensures Valid() && element == current
      ensures Position() == Forward(list.Contents(), old(Position()))
      ensures current != null ==> current in list.ring
    {
      ghost var ring := list.ring;
      ghost var i := if current in ring then Index() else 0;
      assert LinkedAt(ring, i) && LinkedAt(ring, 0);
      assert i + 1 < |ring| ==> ring[i + 1] == ring[1..][i];
      assert |ring| > 1 ==> ring[1] == ring[1..][0];
      if current.next == list.head {
        current := list.head.next;
      } else {
        current := current.next;
      }
      return current;
    }

    method PreviousCircular() returns (element: Element?)
      requires Valid() && current != null
      modifies this`current
      ensures Valid() && element == current
      ensures Position() == Backward(list.Contents(), old(Position()))
      ensures current != null ==> current in list.ring
    {
      ghost var ring := list.ring;
      ghost var i := if current in ring then Index() else 0;
      assert LinkedAt(ring, i) && LinkedAt(ring, 0);
      assert i > 1 ==> ring[i - 1] == ring[1..][i - 2];
      assert |ring| > 1 ==> ring[|ring| - 1] == ring[1..][|ring| - 2];
      if current.prev == list.head {
        current := list.head.prev;
      } else {
        current := current.prev;
      }
      return current;
    }
  }

  /** list_contains: a linear walk that decides membership. */
  method Contains(list: List, element: Element) returns (found: bool)
    requires list.Valid() && element != list.head
    ensures found == (element in list.ring)
  {
    var it := new Iterator(list);
    assert it.Index() == 0;
    var more, current := it.Next();
    while more
      invariant fresh(it) && it.Valid() && it.list == list && it.current in list.ring
      invariant more ==> it.Index() > 0 && current == it.current && element !in list.ring[..it.Index()]
      invariant !more ==> element !in list.ring
      decreases more, |list.ring| - it.Index()
    {
      if current == element {
        return true;
      }
      more, current := it.Next();
    }
    return false;
  }
}
