/** The intrusive singly linked list of slist.h. */
module SinglyLinked {
  import opened Sequences

  /** A list element; slot is the pool item it is embedded in. */
  class Element {
    var next: Element?
    const slot: nat

    constructor (slot: nat)
      ensures next == null && this.slot == slot
    {
      this.slot := slot;
      next := null;
    }
  }

  /** The element that must follow the i-th of a chain. */
  ghost function Follower(chain: seq<Element>, i: nat): Element?
    requires i < |chain|
  {
    if i + 1 < |chain| then chain[i + 1] else null
  }

  ghost predicate Linked(chain: seq<Element>)
    reads chain
  {
    forall i :: 0 <= i < |chain| ==> chain[i].next == Follower(chain, i)
  }

  class SList {
    const head: Element
    /** The pseudo head followed by the members. */
    ghost var chain: seq<Element>

    ghost predicate Valid()
      reads this, chain
    {
      chain != [] && chain[0] == head && Distinct(chain) && Linked(chain)
    }

    /** The members, first to last. */
    ghost function Elems(): seq<Element>
      reads this
    {
      if chain == [] then [] else chain[1..]
    }

    constructor ()
      ensures Valid() && Elems() == [] && fresh(head)
    {
      var h := new Element(0);
      head := h;
      chain := [h];
    }

    method IsEmpty() returns (empty: bool)
      requires Valid()
      ensures empty == (Elems() == [])
    {
      assert chain[0].next == Follower(chain, 0);
      return head.next == null;
    }

    /** slist_element_insert_after, at the i-th member of the chain. */
    method InsertAfter(after: Element, element: Element, ghost i: nat)
      requires Valid() && i < |chain| && chain[i] == after && element !in chain
      modifies this, after, element
      ensures Valid() && chain == InsertAt(old(chain), i + 1, element)
    {
      ghost var was := chain;
      assert after.next == Follower(was, i);
      InsertDistinct(was, i + 1, element);
      assert forall j :: 0 <= j < |was| && j != i ==> was[j] != after;
      element.next := after.next;
      after.next := element;
      assert forall j :: 0 <= j < |was| && j != i ==> was[j].next == Follower(was, j);
      chain := InsertAt(chain, i + 1, element);
      forall j | 0 <= j < |chain| ensures chain[j].next == Follower(chain, j) {
        if j <= i {
          assert chain[j] == was[j];
        } else if j > i + 1 {
          assert chain[j] == was[j - 1] && was[j - 1].next == Follower(was, j - 1);
        }
      }
    }

    /** The new member must not be on a list: inserting one would corrupt that list. */
    method Prepend(element: Element)
      requires Valid() && element !in chain
      modifies this, head, element
      ensures Valid() && Elems() == [element] + old(Elems())
    {
      InsertAfter(head, element, 0);
    }

    method Append(element: Element)
      requires Valid() && element !in chain
      modifies this, chain, element
      ensures Valid() && Elems() == old(Elems()) + [element]
    {
      var last := head;
      ghost var i := 0;
      while last.next != null
        invariant i < |chain| && last == chain[i]
        decreases |chain| - i
      {
        assert last.next == Follower(chain, i);
        last := last.next;
        i := i + 1;
      }
      assert last.next == Follower(chain, i);
      InsertAfter(last, element, i);
    }

    /** slist_element_remove_after, at the i-th member of the chain. */
    method RemoveAfter(after: Element, ghost i: nat)
      requires Valid() && i + 1 < |chain| && chain[i] == after
      modifies this, after
      ensures Valid() && chain == RemoveAt(old(chain), i + 1)
    {
      ghost var was := chain;
      assert after.next == Follower(was, i) == was[i + 1];
      assert was[i + 1].next == Follower(was, i + 1);
      after.next := after.next.next;
      chain := RemoveAt(chain, i + 1);
      forall j | 0 <= j < |chain| ensures chain[j].next == Follower(chain, j) {
        if j < i {
          assert chain[j] == was[j] && was[j].next == Follower(was, j);
        } else if j > i {
          assert chain[j] == was[j + 1] && was[j + 1].next == Follower(was, j + 1);
        }
      }
    }

    method Remove(element: Element) returns (ok: bool)
      requires Valid() && element != head
      modifies this, chain
      ensures Valid() && ok == (element in old(Elems()))
      ensures if ok then exists i | 0 <= i < |old(Elems())| ::
                           old(Elems())[i] == element && Elems() == RemoveAt(old(Elems()), i)
              else Elems() == old(Elems())
    {
      ghost var elems := Elems();
      var last := head;
      ghost var i := 0;
      while last.next != null
        invariant i < |chain| && last == chain[i] && element !in chain[..i + 1]
        decreases |chain| - i
      {
        assert last.next == Follower(chain, i);
        if last.next == element {
          break;
        }
        last := last.next;
        i := i + 1;
      }
      assert last.next == Follower(chain, i);
      if last.next == null {
        assert chain[..i + 1] == chain;
        return false;
      }
      assert elems[i] == element;
      RemoveAfter(last, i);
      assert Elems() == RemoveAt(elems, i);
      return true;
    }

    method RemoveHead() returns (element: Element?)
      requires Valid()
      modifies this, head
      ensures Valid() && (element == null <==> old(Elems()) == [])
      ensures if element == null then chain == old(chain)
              else element == old(Elems())[0] && Elems() == old(Elems())[1..] && element != head
    {
      var empty := IsEmpty();
      if empty {
        return null;
      }
      assert chain[0].next == Follower(chain, 0);
      element := head.next;
      RemoveAfter(head, 0);
    }
  }
}
