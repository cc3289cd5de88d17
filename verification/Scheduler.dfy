/**
 The scheduler's variables of os.c as objects: control blocks in an array, the run queue as a
 linked list of the elements embedded in the tasks, and the iterator that walks it.
 */
module Scheduler {
  import opened Cursors
  import opened CircularList
  import opened Kernel

  /** The control blocks of the pool, before any task is created. */
  method NewTasks(n: nat) returns (a: array<Task>)
    ensures fresh(a) && a.Length == n && a[..] == seq(n, _ => Task(1, 1, 1, ACTIVE))
  {
    a := new Task[n](_ => Task(1, 1, 1, ACTIVE));
  }

  /** Their list elements, on no list. */
  method NewElements(n: nat) returns (es: seq<Element>)
    ensures |es| == n
    ensures forall t :: 0 <= t < n ==> fresh(es[t]) && es[t].owner == t && es[t].prev == null && es[t].next == null
  {
    es := [];
    for i := 0 to n
      invariant |es| == i
      invariant forall t :: 0 <= t < i ==> fresh(es[t]) && es[t].owner == t && es[t].prev == null && es[t].next == null
    {
      var e := new Element(i);
      es := es + [e];
    }
  }

  class RoundRobinQueue {
    const tasks: array<Task>
    const elems: seq<Element>
    const runQueue: List
    const it: Iterator
    var taskActiveCnt: nat
    var runPtr: Run
    /** The nest counter of os.c is above 0 outside of all critical sections. */
    var leaked: bool
    /** All objects of the scheduler. */
    ghost const Repr: set<object>

    ghost predicate Valid()
      reads Repr
    {
      && this in Repr && tasks in Repr && runQueue in Repr && it in Repr && runQueue.head in Repr
      && (forall e :: e in elems ==> e in Repr)
      && (forall e :: e in runQueue.ring ==> e in Repr)
      && |elems| == tasks.Length
      && (forall t :: 0 <= t < |elems| ==> elems[t].owner == t && elems[t] != runQueue.head)
      && runQueue.Valid()
      && (forall e :: e in runQueue.ring ==> e == runQueue.head || e in elems)
      && (forall t :: 0 <= t < |elems| && elems[t] !in runQueue.ring ==> elems[t].prev == null && elems[t].next == null)
      && it.list == runQueue
      && (it.current == null || it.current == runQueue.head || it.current in elems)
      && taskActiveCnt == |runQueue.Contents()|
    }

    /** The scheduler's part of the kernel state; the other parts are empty. */
    ghost function View(): State
      reads Repr
      requires Valid()
    {
      State(tasks.Length, tasks[..], [], runQueue.Contents(), taskActiveCnt, it.Position(), runPtr, [], [], [], leaked)
    }

    /** An element is linked exactly when its task is on the run queue. */
    lemma Member(t: nat)
      requires Valid() && t < |elems|
      ensures elems[t] in runQueue.ring <==> t in runQueue.Contents()
      ensures runQueue.Knows(elems[t])
    {
      var c := runQueue.Contents();
      if elems[t] in runQueue.ring {
        var i :| 0 <= i < |runQueue.ring| && runQueue.ring[i] == elems[t];
        assert c[i - 1] == t;
      }
      if t in c {
        var i :| 0 <= i < |c| && c[i] == t;
        assert runQueue.ring[i + 1] in elems && runQueue.ring[i + 1].owner == t;
      }
    }

    /** The iterator is one the list can move. */
    lemma IteratorValid()
      requires Valid()
      ensures it.Valid()
    {
      if it.current in elems {
        Member(it.current.owner);
      }
    }

    constructor (n: nat)
      ensures Valid() && fresh(Repr) && tasks.Length == n
      ensures View() == State(n, seq(n, _ => Task(1, 1, 1, ACTIVE)), [], [], 0, Head, Boot, [], [], [])
    {
      var a := NewTasks(n);
      var es := NewElements(n);
      var list := new List();
      var iter := new Iterator(list);
      tasks, elems, runQueue, it := a, es, list, iter;
      taskActiveCnt, runPtr, leaked := 0, Boot, false;
      Repr := {this, a, list, iter, list.head} + set e | e in es;
      new;
      assert runQueue.ring == [runQueue.head] && it.current == runQueue.head;
      assert Valid();
    }

    /** An empty queue rebuilds the iterator. */
    method RebuildIterator()
      requires Valid()
      modifies it
      ensures Valid() && runQueue.Contents() == old(runQueue.Contents()) && taskActiveCnt == old(taskActiveCnt)
      ensures View() == old(View()).(cursor := if old(taskActiveCnt) == 0 then Head else old(View()).cursor)
    {
      if taskActiveCnt == 0 {
        it.Init(runQueue);
      }
    }

    /** os_add_task_mmang: an empty queue rebuilds the iterator first. */
    method AddTaskMmang(t: nat) returns (ok: bool)
      requires Valid() && t < |elems|
      modifies Repr
      ensures Valid() && ok == (t !in old(runQueue.Contents()))
      ensures View() == AddTask(old(View()), t)
    {
      Member(t);
      RebuildIterator();
      ghost var c := runQueue.Contents();
      ok := runQueue.Append(elems[t]);
      if ok {
        taskActiveCnt := taskActiveCnt + 1;
      }
    }

    /** list_remove and the count. */
    method Unlink(t: nat) returns (ok: bool)
      requires Valid() && t < |elems|
      modifies Repr
      ensures Valid() && ok == (t in old(runQueue.Contents()))
      ensures var k := old(View());
              View() == if ok then k.(runq := Without(k.runq, t), active := k.active - 1) else k
    {
      Member(t);
      ghost var c := runQueue.Contents();
      ok := runQueue.Remove(elems[t]);
      if ok {
        assert |Without(c, t)| == |c| - 1;
        hide Without;
        taskActiveCnt := taskActiveCnt - 1;
      }
      assert forall u :: 0 <= u < |elems| && elems[u] !in runQueue.ring ==> elems[u].prev == null;
    }

    /** os_del_task_mmang: the iterator moves back before the element goes. */
    method DelTaskMmang(t: nat) returns (ok: bool)
      requires Valid() && t < |elems| && it.Position() != Lost
      modifies Repr
      ensures Valid() && ok == (t in old(runQueue.Contents()))
      ensures View() == DelTask(old(View()), t)
    {
      IteratorValid();
      var _ := it.PreviousCircular();
      ok := Unlink(t);
    }

    method Unpause(t: nat)
      requires Valid() && t < |elems|
      modifies Repr
      ensures Valid() && View() == Kernel.Unpause(old(View()), t)
    {
      tasks[t] := tasks[t].(state := ACTIVE);
      var _ := AddTaskMmang(t);
    }

    method Block(t: nat)
      requires Valid() && t < |elems| && it.Position() != Lost
      modifies Repr
      ensures Valid() && View() == Kernel.Block(old(View()), t)
    {
      tasks[t] := tasks[t].(state := BLOCKING);
      var _ := DelTaskMmang(t);
    }

    /** The priority inheritance of mtx_lock: h is raised to the priority of t. */
    method Boost(h: nat, t: nat)
      requires Valid() && h < |elems| && t < |elems|
      modifies Repr
      ensures Valid() && View() == Kernel.Boost(old(View()), h, t)
    {
      var curr, check := tasks[h].fixed, tasks[t].fixed;
      if check > curr {
        tasks[h] := tasks[h].(working := tasks[h].working + (check - curr), fixed := check);
      }
    }

    /** os_change_task; run_ptr is computed from whatever the iterator yields. */
    method ChangeTask()
      requires Valid() && it.Position() != Lost
      modifies Repr
      ensures Valid() && View() == Kernel.ChangeTask(old(View()))
    {
      IteratorValid();
      var current := it.NextCircular();
      if current == null || current == runQueue.head {
        runPtr := Wild;
      } else {
        runPtr := Thread(current.owner);
      }
    }

    method NextTask()
      requires Valid() && (Switches(View()) ==> it.Position() != Lost)
      requires runPtr.Thread? ==> runPtr.task < tasks.Length
      modifies Repr
      ensures Valid() && View() == Kernel.NextTask(old(View()))
    {
      if runPtr.Thread? {
        var t := runPtr.task;
        if tasks[t].state == ACTIVE {
          tasks[t] := tasks[t].(working := if tasks[t].working == 0 then 0xffff else tasks[t].working - 1);
          if tasks[t].working != 0 {
            return;
          }
        }
        tasks[t] := tasks[t].(working := tasks[t].fixed);
      }
      ChangeTask();
    }

    method Schedule()
      requires Valid() && (taskActiveCnt > 0 && Switches(View()) ==> it.Position() != Lost)
      requires runPtr.Thread? ==> runPtr.task < tasks.Length
      modifies Repr
      ensures Valid() && View() == Kernel.Schedule(old(View()))
    {
      if taskActiveCnt > 0 {
        NextTask();
      } else {
        runPtr := Idle;
      }
    }

    method FirstTask()
      requires Valid() && (taskActiveCnt > 0 ==> it.Position() != Lost)
      modifies Repr
      ensures Valid()
      ensures View() == if old(taskActiveCnt) > 0 then Kernel.ChangeTask(old(View())) else old(View()).(run := Idle)
    {
      if taskActiveCnt > 0 {
        ChangeTask();
      } else {
        runPtr := Idle;
      }
    }
  }
}
