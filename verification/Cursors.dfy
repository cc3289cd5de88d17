/** The circular list of list.h and its iterator, seen on the sequence of tasks the list stands for. */
module Cursors {
  import opened Sequences

  /** An iterator position: the pseudo head, a task, or a pointer followed out of a removed element. */
  datatype Cursor = Head | On(task: nat) | Lost

  /** The first position of t. */
  function IndexOf(s: seq<nat>, t: nat): (i: nat)
    requires t in s
    ensures i < |s| && s[i] == t && t !in s[..i]
  {
    if s[0] == t then 0 else 1 + IndexOf(s[1..], t)
  }

  /** list_iterator_next_circular. Off the list the next pointer is NULL. */
  function Forward(s: seq<nat>, c: Cursor): Cursor {
    match c
    case Head => if s == [] then Head else On(s[0])
    case On(t) =>
      if t !in s then Lost else
      var i := IndexOf(s, t);
      if i + 1 < |s| then On(s[i + 1]) else On(s[0])
    case Lost => Lost
  }

  /** list_iterator_previous_circular. Off the list the prev pointer is NULL. */
  function Backward(s: seq<nat>, c: Cursor): Cursor {
    match c
    case Head => if s == [] then Head else On(s[|s| - 1])
    case On(t) =>
      if t !in s then Lost else
      var i := IndexOf(s, t);
      if i > 0 then On(s[i - 1]) else On(s[|s| - 1])
    case Lost => Lost
  }

  /** s with the first t taken out. */
  function Without(s: seq<nat>, t: nat): seq<nat> {
    if t !in s then s else
    var i := IndexOf(s, t);
    s[..i] + s[i + 1..]
  }

  lemma IndexOfDistinct(s: seq<nat>, i: nat)
    requires Distinct(s) && i < |s|
    ensures IndexOf(s, s[i]) == i
  {
  }

  /** The positions circularly behind and before i. */
  function Succ(i: nat, n: nat): nat { if i + 1 < n then i + 1 else 0 }

  function Pred(i: nat, n: nat): nat
    requires n > 0
  {
    if i > 0 then i - 1 else n - 1
  }

  lemma ForwardAt(s: seq<nat>, i: nat)
    requires Distinct(s) && i < |s|
    ensures Forward(s, On(s[i])) == On(s[Succ(i, |s|)])
  {
    IndexOfDistinct(s, i);
  }

  lemma BackwardAt(s: seq<nat>, i: nat)
    requires Distinct(s) && i < |s|
    ensures Backward(s, On(s[i])) == On(s[Pred(i, |s|)])
  {
    IndexOfDistinct(s, i);
  }

  /** On a list without repetition, stepping forward undoes stepping back, and the other way round. */
  lemma StepsInverse(s: seq<nat>, i: nat)
    requires Distinct(s) && i < |s|
    ensures Forward(s, Backward(s, On(s[i]))) == On(s[i])
    ensures Backward(s, Forward(s, On(s[i]))) == On(s[i])
  {
    ForwardAt(s, i);
    BackwardAt(s, i);
    ForwardAt(s, Pred(i, |s|));
    BackwardAt(s, Succ(i, |s|));
  }
  /**
   The pseudo head is no stop of the circular moves: the step forward from it leads to the first member,
   the step back to the last, and it lies between the two.
   */
  lemma HeadBetween(s: seq<nat>)
    requires Distinct(s) && s != []
    ensures Forward(s, Head) == On(s[0]) == Forward(s, On(s[|s| - 1]))
    ensures Backward(s, Head) == On(s[|s| - 1]) == Backward(s, On(s[0]))
    ensures Forward(s, Backward(s, Head)) == Forward(s, Head) && Backward(s, Forward(s, Head)) == Backward(s, Head)
  {
    ForwardAt(s, |s| - 1);
    BackwardAt(s, 0);
  }
}
