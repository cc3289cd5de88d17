/**
 Who is passed over on a changing run queue: a runnable task runs once more ticks have passed than
 stood before it or were put before it, and without that bound it can wait for ever.
 */
module Fairness {
  import opened Sequences
  import opened Cursors
  import opened SleepTick
  import opened Semaphores
  import opened Kernel
  import opened Conservation
  import opened Steps
  import opened Dispatch
  import opened RoundRobin
  import opened Sleeping
  import opened Failures
  import Pool

  // ---------- the tasks between the iterator and a task ----------

  /** A cursor that the run queue s can move. */
  predicate OnQueue(s: seq<nat>, c: Cursor) {
    c == Head || (c.On? && c.task in s)
  }

  /** What lies between two positions, going round. */
  function Arc(s: seq<nat>, i: nat, j: nat): seq<nat>
    requires i < |s| && j < |s|
  {
    if i < j then s[i + 1..j] else s[i + 1..] + s[..j]
  }

  /** The tasks that the iterator comes to, from c on, before it comes to t. */
  function Between(s: seq<nat>, c: Cursor, t: nat): seq<nat>
    requires t in s
  {
    var j := IndexOf(s, t);
    if !c.On? || c.task !in s then s[..j] else
    Arc(s, IndexOf(s, c.task), j)
  }

  lemma BetweenInQueue(s: seq<nat>, c: Cursor, t: nat, u: nat)
    requires t in s && u in Between(s, c, t)
    ensures u in s
  {
  }

  /** Between, by positions. */
  lemma BetweenAt(s: seq<nat>, i: nat, j: nat)
    requires Distinct(s) && i < |s| && j < |s|
    ensures Between(s, On(s[i]), s[j]) == Arc(s, i, j)
  {
    IndexOfDistinct(s, i);
    IndexOfDistinct(s, j);
  }

  /** The task under the iterator, and t itself, are not between. */
  lemma BetweenOthers(s: seq<nat>, c: Cursor, t: nat)
    requires Distinct(s) && t in s
    ensures t !in Between(s, c, t) && (c.On? && c.task in s ==> c.task !in Between(s, c, t))
  {
  }

  lemma BetweenDistinct(s: seq<nat>, c: Cursor, t: nat)
    requires Distinct(s) && t in s
    ensures Distinct(Between(s, c, t))
  {
  }

  lemma {:induction false} IndexOfLonger(s: seq<nat>, w: seq<nat>, t: nat)
    requires t in s
    ensures t in s + w && IndexOf(s + w, t) == IndexOf(s, t)
    decreases |s|
  {
    if s[0] != t {
      assert (s + w)[1..] == s[1..] + w;
      IndexOfLonger(s[1..], w, t);
    }
  }

  /** b with w put in somewhere. */
  ghost predicate Inserted(b: seq<nat>, w: seq<nat>, r: seq<nat>) {
    exists m :: 0 <= m <= |b| && r == b[..m] + w + b[m..]
  }

  lemma ArcAppend(s: seq<nat>, w: seq<nat>, i: nat, j: nat)
    requires i < |s| && j < |s|
    ensures Arc(s + w, i, j) == Arc(s, i, j) || Inserted(Arc(s, i, j), w, Arc(s + w, i, j))
  {
    if i < j {
      assert (s + w)[i + 1..j] == s[i + 1..j];
    } else {
      var m := |s[i + 1..]|;
      assert (s + w)[i + 1..] == s[i + 1..] + w && (s + w)[..j] == s[..j];
      assert Arc(s, i, j)[..m] == s[i + 1..] && Arc(s, i, j)[m..] == s[..j];
    }
  }

  lemma BetweenAppend(s: seq<nat>, w: seq<nat>, c: Cursor, t: nat)
    requires t in s && OnQueue(s, c)
    ensures t in s + w
    ensures Between(s + w, c, t) == Between(s, c, t) || Inserted(Between(s, c, t), w, Between(s + w, c, t))
  {
    IndexOfLonger(s, w, t);
    if c.On? {
      IndexOfLonger(s, w, c.task);
      ArcAppend(s, w, IndexOf(s, c.task), IndexOf(s, t));
    } else {
      assert (s + w)[..IndexOf(s, t)] == s[..IndexOf(s, t)];
    }
  }

  /** One move of the iterator: it comes to t, or to the first task before t. */
  lemma BetweenForward(s: seq<nat>, c: Cursor, t: nat)
    requires Distinct(s) && t in s && OnQueue(s, c)
    ensures var b := Between(s, c, t);
            if b == [] then Forward(s, c) == On(t)
            else Forward(s, c) == On(b[0]) && b[0] in s && Between(s, On(b[0]), t) == b[1..]
  {
    var j, b := IndexOf(s, t), Between(s, c, t);
    if b != [] {
      var p := if c.On? && IndexOf(s, c.task) + 1 < |s| then IndexOf(s, c.task) + 1 else 0;
      assert b[0] == s[p];
      BetweenAt(s, p, j);
      if p < j {
        assert s[p + 1..j] == b[1..];
      } else {
        assert s[p + 1..] + s[..j] == b[1..];
      }
    }
  }

  /** Where a removal moves position j. */
  function Shifted(i: nat, j: nat): nat
    requires i != j
  {
    if j < i then j else j - 1
  }

  /** Position i leaves the queue, and the iterator steps back from it: nothing between changes. */
  lemma ArcWithout(s: seq<nat>, i: nat, j: nat)
    requires i < |s| && j < |s| && i != j
    ensures var r := s[..i] + s[i + 1..]; var p := if i > 0 then i - 1 else |r| - 1;
            Shifted(i, j) < |r| && r[Shifted(i, j)] == s[j] && Arc(r, p, Shifted(i, j)) == Arc(s, i, j)
  {
    var r := s[..i] + s[i + 1..];
    if i == 0 {
      assert r == s[1..];
      assert r[|r|..] == [] && r[..j - 1] == s[1..j];
    } else {
      assert r[i..] == s[i + 1..];
      if i < j {
        assert r[i..j - 1] == s[i + 1..j];
      } else {
        assert r[..j] == s[..j];
      }
    }
  }

  /** The iterator's step back, on what is left. */
  lemma BackOnRest(s: seq<nat>, i: nat)
    requires Distinct(s) && i < |s| && |s| > 1
    ensures var r := s[..i] + s[i + 1..];
            Without(s, s[i]) == r && Distinct(r) && Backward(s, On(s[i])) == On(r[if i > 0 then i - 1 else |r| - 1])
  {
    IndexOfDistinct(s, i);
    RemoveDistinct(s, i);
    assert RemoveAt(s, i) == s[..i] + s[i + 1..];
  }

  lemma BetweenOnRest(s: seq<nat>, r: seq<nat>, i: nat, j: nat, p: nat)
    requires Distinct(s) && Distinct(r) && i < |s| && j < |s| && i != j
    requires r == s[..i] + s[i + 1..] && p == if i > 0 then i - 1 else |r| - 1
    ensures Between(r, On(r[p]), s[j]) == Between(s, On(s[i]), s[j])
  {
    ArcWithout(s, i, j);
    BetweenAt(s, i, j);
    BetweenAt(r, p, Shifted(i, j));
  }

  lemma BetweenLeave(s: seq<nat>, x: nat, t: nat)
    requires Distinct(s) && x in s && t in s && x != t
    ensures t in Without(s, x) && Backward(s, On(x)).On? && Backward(s, On(x)).task in Without(s, x)
    ensures Between(Without(s, x), Backward(s, On(x)), t) == Between(s, On(x), t)
  {
    var i, j := IndexOf(s, x), IndexOf(s, t);
    var r := s[..i] + s[i + 1..];
    var p := if i > 0 then i - 1 else |r| - 1;
    BackOnRest(s, i);
    ArcWithout(s, i, j);
    assert Without(s, x) == r && Backward(s, On(x)) == On(r[p]) && t in r;
    BetweenOnRest(s, r, i, j, p);
  }

  // ---------- the distance ----------

  lemma {:induction false} SlicesSame(k: State, r: State, ts: seq<nat>)
    requires forall u :: u in ts ==> TaskOf(r, u).working == TaskOf(k, u).working
    ensures SliceSum(r, ts) == SliceSum(k, ts)
    decreases |ts|
  {
    if ts != [] {
      SlicesSame(k, r, ts[..|ts| - 1]);
    }
  }

  /** One task's slice grew by d. */
  lemma {:induction false} SlicesRaised(k: State, r: State, ts: seq<nat>, h: nat, d: nat)
    requires Distinct(ts) && TaskOf(r, h).working <= TaskOf(k, h).working + d
    requires forall u :: u in ts && u != h ==> TaskOf(r, u).working == TaskOf(k, u).working
    ensures SliceSum(r, ts) <= SliceSum(k, ts) + d
    decreases |ts|
  {
    if ts != [] {
      var rest := ts[..|ts| - 1];
      if ts[|ts| - 1] == h {
        SlicesSame(k, r, rest);
      } else {
        SlicesRaised(k, r, rest, h, d);
      }
    }
  }

  lemma SlicesInserted(k: State, b: seq<nat>, w: seq<nat>, m: nat)
    requires m <= |b|
    ensures SliceSum(k, b[..m] + w + b[m..]) == SliceSum(k, b) + SliceSum(k, w)
  {
    SlicesConcat(k, b[..m] + w, b[m..]);
    SlicesConcat(k, b[..m], w);
    SlicesConcat(k, b[..m], b[m..]);
    assert b[..m] + b[m..] == b;
  }

  /** What the tasks between cost after w were appended. */
  lemma SlicesAppended(k: State, s: seq<nat>, w: seq<nat>, c: Cursor, t: nat)
    requires t in s && OnQueue(s, c)
    ensures t in s + w && SliceSum(k, Between(s + w, c, t)) <= SliceSum(k, Between(s, c, t)) + SliceSum(k, w)
  {
    BetweenAppend(s, w, c, t);
    var b := Between(s, c, t);
    if Between(s + w, c, t) != b {
      var m :| 0 <= m <= |b| && Between(s + w, c, t) == b[..m] + w + b[m..];
      SlicesInserted(k, b, w, m);
    }
  }

  /** For how many ticks the thread that runs now goes on. */
  function Current(k: State): nat {
    if k.run.Thread? && TaskOf(k, k.run.task).state == ACTIVE then TaskOf(k, k.run.task).working else 1
  }

  /** In how many ticks t runs if nobody joins the run queue, leaves it early or is boosted. */
  function Distance(k: State, t: nat): nat
    requires t in k.runq
  {
    Current(k) + SliceSum(k, Between(k.runq, k.cursor, t))
  }

  // ---------- what a step adds ----------

  /** The tasks that a step appends to the run queue. */
  ghost function Joined(k: State, op: Op): seq<nat>
    requires Enabled(k, op)
  {
    if k.runq <= Next(k, op).runq then Next(k, op).runq[|k.runq|..] else []
  }

  /** By how much a lock raises the slice of the holder. */
  function Raise(k: State, op: Op): nat {
    if !op.Lock? || !k.run.Thread? || op.mtx >= |k.mtxs| || k.mtxs[op.mtx].holder.None? then 0 else
    var check, curr := TaskOf(k, k.run.task).fixed, TaskOf(k, k.mtxs[op.mtx].holder.value).fixed;
    if check > curr then check - curr else 0
  }

  /** The slices that a step puts on the run queue. */
  ghost function Charge(k: State, op: Op): nat
    requires Enabled(k, op)
  {
    SliceSum(Next(k, op), Joined(k, op)) + Raise(k, op)
  }

  /** r is k with w appended to its run queue, and nothing changed for those that were there. */
  ghost predicate Appends(k: State, r: State, w: seq<nat>) {
    && r.runq == k.runq + w && r.cursor == k.cursor && (r.run == k.run || !r.run.Thread?)
    && (k.run.Thread? ==> TaskOf(r, k.run.task).working == TaskOf(k, k.run.task).working
                          && TaskOf(r, k.run.task).state == TaskOf(k, k.run.task).state)
    && (forall u :: u in k.runq ==> TaskOf(r, u).working == TaskOf(k, u).working)
  }

  lemma AppendsDistance(k: State, r: State, w: seq<nat>, t: nat)
    requires Positive(k) && Appends(k, r, w) && t in k.runq && OnQueue(k.runq, k.cursor)
    requires k.run.Thread? ==> k.run.task < |k.tasks|
    ensures t in r.runq && Distance(r, t) <= Distance(k, t) + SliceSum(r, w)
  {
    var b := Between(k.runq, k.cursor, t);
    forall u | u in b ensures TaskOf(r, u).working == TaskOf(k, u).working {
      BetweenInQueue(k.runq, k.cursor, t, u);
    }
    SlicesSame(k, r, b);
    SlicesAppended(r, k.runq, w, k.cursor, t);
  }

  lemma AppendsChain(k: State, m: State, r: State, v: seq<nat>, w: seq<nat>)
    requires Appends(k, m, v) && Appends(m, r, w) && m.run == k.run
    ensures Appends(k, r, v + w)
  {
    assert (k.runq + v) + w == k.runq + (v + w);
  }

  // ---------- every step ----------

  /** t is runnable and some other thread runs. */
  ghost predicate Waits(k: State, t: nat) {
    Sound(k) && Coupled(k) && Positive(k) && t in k.runq && k.run != Thread(t)
  }

  lemma JoinedBy(k: State, op: Op, w: seq<nat>)
    requires Enabled(k, op) && Next(k, op).runq == k.runq + w
    ensures Joined(k, op) == w
  {
    assert (k.runq + w)[|k.runq|..] == w;
  }

  lemma NothingJoins(k: State, op: Op)
    requires Enabled(k, op) && |Next(k, op).runq| < |k.runq|
    ensures Joined(k, op) == []
  {
  }

  /** A step that only appends. */
  lemma AppendingStep(k: State, op: Op, w: seq<nat>, t: nat)
    requires Waits(k, t) && Enabled(k, op) && Appends(k, Next(k, op), w)
    ensures t in Next(k, op).runq && Distance(Next(k, op), t) <= Distance(k, t) + Charge(k, op)
  {
    AppendsDistance(k, Next(k, op), w, t);
    JoinedBy(k, op, w);
  }

  /** The running task leaves the run queue, h having been raised by d. */
  lemma LeavingDistance(k: State, r: State, t: nat, h: nat, d: nat)
    requires Waits(k, t) && Runnable(k) && Current(r) <= Current(k)
    requires r.runq == Without(k.runq, k.run.task) && r.cursor == Backward(k.runq, k.cursor)
    requires TaskOf(r, h).working <= TaskOf(k, h).working + d
    requires forall u :: u in k.runq && u != k.run.task && u != h ==> TaskOf(r, u).working == TaskOf(k, u).working
    ensures t in r.runq && Distance(r, t) <= Distance(k, t) + d
  {
    var b := Between(k.runq, k.cursor, t);
    QueuesDistinct(k);
    BetweenLeave(k.runq, k.run.task, t);
    BetweenDistinct(k.runq, k.cursor, t);
    BetweenOthers(k.runq, k.cursor, t);
    forall u | u in b && u != h ensures TaskOf(r, u).working == TaskOf(k, u).working {
      BetweenInQueue(k.runq, k.cursor, t, u);
    }
    SlicesRaised(k, r, b, h, d);
  }

  lemma LeavingStep(k: State, op: Op, t: nat, h: nat)
    requires Waits(k, t) && Enabled(k, op) && Runnable(k) && Current(Next(k, op)) <= Current(k)
    requires var r := Next(k, op); r.runq == Without(k.runq, k.run.task) && r.cursor == Backward(k.runq, k.cursor)
    requires TaskOf(Next(k, op), h).working <= TaskOf(k, h).working + Raise(k, op)
    requires forall u :: u in k.runq && u != k.run.task && u != h ==>
                         TaskOf(Next(k, op), u).working == TaskOf(k, u).working
    ensures t in Next(k, op).runq && Distance(Next(k, op), t) <= Distance(k, t) + Charge(k, op)
  {
    LeavingDistance(k, Next(k, op), t, h, Raise(k, op));
    QueuesDistinct(k);
    WithoutMember(k.runq, k.run.task, k.run.task);
    NothingJoins(k, op);
  }

  /** The iterator moves on, to t or to a task before t. */
  lemma SwitchDistance(k: State, r: State, t: nat)
    requires Distinct(k.runq) && t in k.runq && OnQueue(k.runq, k.cursor) && Positive(r)
    requires r.runq == k.runq && r.cursor == Forward(k.runq, k.cursor) && r.cursor.On? && r.run == Thread(r.cursor.task)
    requires forall u :: u in k.runq ==> TaskOf(r, u).state == ACTIVE
    ensures r.run == Thread(t) || Distance(r, t) == SliceSum(r, Between(k.runq, k.cursor, t))
  {
    var b := Between(k.runq, k.cursor, t);
    BetweenForward(k.runq, k.cursor, t);
    if b != [] {
      SlicesConcat(r, [b[0]], b[1..]);
      assert [b[0]] + b[1..] == b;
      assert SliceSum(r, [b[0]]) == TaskOf(r, b[0]).working by {
        assert [b[0]][..0] == [];
      }
    }
  }

  lemma LaunchStep(k: State, t: nat)
    requires Waits(k, t) && Enabled(k, Launch)
    ensures var r := Next(k, Launch); t in r.runq && (r.run == Thread(t) || Distance(r, t) <= Distance(k, t))
  {
    var r := Next(k, Launch);
    QueuesDistinct(k);
    ForwardOk(k.runq, k.cursor);
    forall u | u in k.runq ensures TaskOf(r, u).state == ACTIVE {
      RunnableIsOnlyThere(k, u);
    }
    SwitchDistance(k, r, t);
    SlicesSame(k, r, Between(k.runq, k.cursor, t));
  }

  lemma CreateStep(k: State, priority: nat, t: nat)
    requires Waits(k, t) && Enabled(k, Create(priority))
    ensures var r := Next(k, Create(priority));
            t in r.runq && Distance(r, t) <= Distance(k, t) + Charge(k, Create(priority))
  {
    if priority == 0 || k.free == [] {
      assert k.runq + [] == k.runq;
      AppendingStep(k, Create(priority), [], t);
    } else {
      FreeInPool(k);
      AppendingStep(k, Create(priority), [k.free[0]], t);
    }
  }

  lemma PostAppends(k: State, s: nat)
    requires Sound(k) && Runnable(k) && s < |k.sems|
    ensures var w := if Post(k.sems[s]).release.Waiter? then [k.sems[s].wq[0]] else [];
            Appends(k, DoSemPost(k, s), w)
  {
    if Post(k.sems[s]).release.Waiter? {
      ReleasedNotRunning(k, s);
    } else {
      assert k.runq + [] == k.runq;
    }
  }

  lemma {:induction false} JoinersAppend(k: State, s: nat)
    requires Sound(k) && Runnable(k) && s < |k.sems| && Agrees(k.sems[s])
    ensures Appends(k, WakeJoiners(k, s), k.sems[s].wq)
    decreases |k.sems[s].wq|
  {
    if k.sems[s].wq == [] {
      assert k.runq + [] == k.runq;
    } else {
      var m, w := DoSemPost(k, s), k.sems[s].wq[0];
      PostAgrees(k.sems[s]);
      PostAppends(k, s);
      SemPostSound(k, s);
      JoinersAppend(m, s);
      AppendsChain(k, m, WakeJoiners(m, s), [w], m.sems[s].wq);
      assert k.sems[s].wq == [w] + k.sems[s].wq[1..];
    }
  }

  lemma UnlockStep(k: State, m: nat, t: nat)
    requires Waits(k, t) && Enabled(k, Unlock(m))
    ensures var r := Next(k, Unlock(m)); t in r.runq && Distance(r, t) <= Distance(k, t) + Charge(k, Unlock(m))
  {
    if k.mtxs[m].holder == Some(k.run.task) && k.mtxs[m].wq != [] {
      WaiterNotRunning(k, m);
      AppendingStep(k, Unlock(m), [k.mtxs[m].wq[0]], t);
    } else {
      assert k.runq + [] == k.runq;
      AppendingStep(k, Unlock(m), [], t);
    }
  }

  lemma LockLeaves(k: State, m: nat, h: nat)
    requires Sound(k) && Positive(k) && Enabled(k, Lock(m)) && k.mtxs[m].holder == Some(h)
    ensures var r := Next(k, Lock(m));
            && r.runq == Without(k.runq, k.run.task) && r.cursor == Backward(k.runq, k.cursor)
            && Current(r) <= Current(k)
            && TaskOf(r, h).working <= TaskOf(k, h).working + Raise(k, Lock(m))
            && (forall u :: u in k.runq && u != k.run.task && u != h ==> TaskOf(r, u).working == TaskOf(k, u).working)
  {
    RunnableIsOnlyThere(k, k.run.task);
    assert PositiveTask(TaskOf(k, k.run.task));
  }

  lemma LockStep(k: State, m: nat, t: nat)
    requires Waits(k, t) && Enabled(k, Lock(m))
    ensures var r := Next(k, Lock(m)); t in r.runq && Distance(r, t) <= Distance(k, t) + Charge(k, Lock(m))
  {
    match k.mtxs[m].holder
    case None =>
      assert k.runq + [] == k.runq;
      AppendingStep(k, Lock(m), [], t);
    case Some(h) =>
      LockLeaves(k, m, h);
      LeavingStep(k, Lock(m), t, h);
  }

  lemma SleepStep(k: State, ticks: nat, t: nat)
    requires Waits(k, t) && Enabled(k, Sleep(ticks))
    ensures var r := Next(k, Sleep(ticks)); t in r.runq && Distance(r, t) <= Distance(k, t) + Charge(k, Sleep(ticks))
  {
    hide Distance;
    RunnableIsOnlyThere(k, k.run.task);
    if ticks == 0 {
      assert k.runq + [] == k.runq;
      AppendingStep(k, Sleep(ticks), [], t);
    } else {
      LeavingStep(k, Sleep(ticks), t, t);
    }
  }

  lemma SemWaitStep(k: State, s: nat, t: nat)
    requires Waits(k, t) && Enabled(k, SemWait(s))
    ensures var r := Next(k, SemWait(s)); t in r.runq && Distance(r, t) <= Distance(k, t) + Charge(k, SemWait(s))
  {
    hide Distance;
    RunnableIsOnlyThere(k, k.run.task);
    if Wait(k.sems[s], k.run.task, k.n).blocks {
      LeavingStep(k, SemWait(s), t, t);
    } else {
      assert k.runq + [] == k.runq;
      AppendingStep(k, SemWait(s), [], t);
    }
  }

  /** Every step but the tick brings t no further away than by what the step puts on the run queue. */
  lemma QuietStep(k: State, op: Op, t: nat)
    requires Waits(k, t) && Enabled(k, op) && op != Tick
    ensures var r := Next(k, op);
            t in r.runq && (r.run == Thread(t) || Distance(r, t) <= Distance(k, t) + Charge(k, op))
  {
    match op
    case Create(priority) => CreateStep(k, priority, t);
    case Launch => LaunchStep(k, t);
    case Sleep(ticks) => SleepStep(k, ticks, t);
    case SemWait(s) => SemWaitStep(k, s, t);
    case SemTryWait(s) =>
      assert k.runq + [] == k.runq;
      AppendingStep(k, op, [], t);
    case SemPost(s) =>
      PostAppends(k, s);
      AppendingStep(k, op, if Post(k.sems[s]).release.Waiter? then [k.sems[s].wq[0]] else [], t);
    case Lock(m) => LockStep(k, m, t);
    case Unlock(m) => UnlockStep(k, m, t);
    case Exit =>
      JoinersAppend(k, k.run.task);
      AppendingStep(k, op, k.sems[k.run.task].wq, t);
    case Kill => LeavingStep(k, op, t, t);
  }

  /** Nobody between has its slice changed by a tick. */
  lemma TickBetween(k: State, t: nat, u: nat)
    requires Waits(k, t) && Enabled(k, Tick) && u in Between(k.runq, k.cursor, t)
    ensures TaskOf(DoTick(k), u).working == TaskOf(k, u).working
  {
    QueuesDistinct(k);
    BetweenInQueue(k.runq, k.cursor, t, u);
    BetweenOthers(k.runq, k.cursor, t);
    UpdateEffect(k);
  }

  lemma TickAhead(k: State, t: nat)
    requires Waits(k, t) && Enabled(k, Tick)
    ensures var u := Update(k); var r := DoTick(k); var woken := HeapTick(k.sleep).woken;
            && u.runq == r.runq == k.runq + woken && t in u.runq && u.cursor == k.cursor && u.run == k.run
            && SliceSum(r, Between(u.runq, u.cursor, t))
               <= SliceSum(k, Between(k.runq, k.cursor, t)) + SliceSum(r, woken)
  {
    var b := Between(k.runq, k.cursor, t);
    UpdateEffect(k);
    forall v | v in b ensures TaskOf(DoTick(k), v).working == TaskOf(k, v).working {
      TickBetween(k, t, v);
    }
    SlicesSame(k, DoTick(k), b);
    SlicesAppended(DoTick(k), k.runq, HeapTick(k.sleep).woken, k.cursor, t);
  }

  lemma AllActive(u: State, r: State)
    requires Sound(u) && forall v: nat :: TaskOf(r, v).state == TaskOf(u, v).state
    ensures forall v :: v in u.runq ==> TaskOf(r, v).state == ACTIVE
  {
    forall v | v in u.runq ensures TaskOf(r, v).state == ACTIVE {
      RunnableIsOnlyThere(u, v);
    }
  }

  lemma TickSwitches(k: State, t: nat)
    requires Waits(k, t) && Enabled(k, Tick) && Switches(Update(k))
    ensures var u := Update(k); var r := DoTick(k);
            && t in u.runq && t in r.runq
            && (r.run == Thread(t) || Distance(r, t) == SliceSum(r, Between(u.runq, u.cursor, t)))
  {
    var u, r := Update(k), DoTick(k);
    UpdateEffect(k);
    UpdateCursor(k);
    TickPositive(k);
    QueuesDistinct(u);
    ForwardOk(u.runq, u.cursor);
    AllActive(u, r);
    SwitchDistance(u, r, t);
  }

  lemma TickStays(k: State, t: nat)
    requires Waits(k, t) && Enabled(k, Tick) && !Readds(k) && !Switches(Update(k))
    ensures var u := Update(k); var r := DoTick(k);
            && t in u.runq && t in r.runq
            && Distance(r, t) + 1 == Current(k) + SliceSum(r, Between(u.runq, u.cursor, t))
  {
    UpdateEffect(k);
    assert PositiveTask(TaskOf(k, k.run.task));
  }

  /** A tick brings t nearer by one, up to what it wakes. */
  lemma TickStep(k: State, t: nat)
    requires Waits(k, t) && Enabled(k, Tick) && !Readds(k)
    ensures var r := Next(k, Tick);
            t in r.runq && (r.run == Thread(t) || Distance(r, t) + 1 <= Distance(k, t) + Charge(k, Tick))
  {
    TickAhead(k, t);
    JoinedBy(k, Tick, HeapTick(k.sleep).woken);
    assert PositiveTask(TaskOf(k, k.run.task));
    if Switches(Update(k)) {
      TickSwitches(k, t);
    } else {
      TickStays(k, t);
    }
  }

  // ---------- every run ----------

  /** t does not run in any state of the run. */
  ghost predicate NeverRuns(k: State, ops: seq<Op>, t: nat)
    requires IsRun(k, ops)
    decreases |ops|
  {
    k.run != Thread(t) && (ops == [] || NeverRuns(Next(k, ops[0]), ops[1..], t))
  }

  /** All slices that a run puts on the run queue. */
  ghost function Charged(k: State, ops: seq<Op>): nat
    requires IsRun(k, ops)
    decreases |ops|
  {
    if ops == [] then 0 else Charge(k, ops[0]) + Charged(Next(k, ops[0]), ops[1..])
  }

  lemma DistancePositive(k: State, t: nat)
    requires Waits(k, t)
    ensures Distance(k, t) >= 1
  {
    if k.run.Thread? {
      assert PositiveTask(TaskOf(k, k.run.task));
    }
  }

  /**
   No starvation beyond what is put in the way: a runnable task runs in every harmless run with at
   least as many ticks as there are ticks of slice before it at the start, plus those of all tasks
   that join the run queue and of all boosts on the way.
   */
  lemma {:induction false} RunsInTime(k: State, ops: seq<Op>, t: nat)
    requires Healthy(k) && Positive(k) && t in k.runq && k.run != Thread(t) && IsRun(k, ops) && HarmlessRun(k, ops)
    ensures TickCount(ops) >= Distance(k, t) + Charged(k, ops) ==> !NeverRuns(k, ops, t)
    decreases |ops|
  {
    DistancePositive(k, t);
    if ops != [] {
      var op, k' := ops[0], Next(k, ops[0]);
      StepHealthy(k, op);
      StepPositive(k, op);
      if op == Tick {
        TickStep(k, t);
      } else {
        QuietStep(k, op, t);
      }
      if k'.run != Thread(t) {
        RunsInTime(k', ops[1..], t);
      } else {
        assert !NeverRuns(k', ops[1..], t);
      }
    }
  }

  // ---------- a task that waits for ever ----------

  lemma {:induction false} NeverInTrace(states: seq<State>, ops: seq<Op>, t: nat)
    requires Trace(states, ops) && forall i :: 0 <= i < |states| ==> states[i].run != Thread(t)
    ensures IsRun(states[0], ops) && NeverRuns(states[0], ops, t)
    decreases |ops|
  {
    TraceRuns(states, ops);
    if ops != [] {
      assert Leads(states[0], ops[0], states[1]);
      forall i | 0 <= i < |ops[1..]| ensures Leads(states[1..][i], ops[1..][i], states[1..][i + 1]) {
        assert Leads(states[i + 1], ops[i + 1], states[i + 2]);
      }
      NeverInTrace(states[1..], ops[1..], t);
    }
  }

  lemma {:induction false} NeverRunsOn(k: State, a: seq<Op>, b: seq<Op>, t: nat)
    requires IsRun(k, a) && IsRun(Exec(k, a), b) && NeverRuns(k, a, t) && NeverRuns(Exec(k, a), b, t)
    ensures IsRun(k, a + b) && NeverRuns(k, a + b, t)
    decreases |a|
  {
    hide Next, Enabled;
    RunsOn(k, a, b);
    if a == [] {
      assert a + b == b;
    } else {
      assert (a + b)[0] == a[0] && (a + b)[1..] == a[1..] + b;
      NeverRunsOn(Next(k, a[0]), a[1..], b, t);
    }
  }

  const WAITING := [NONE, NONE, NONE, Sem(-1, [0]), NONE]

  /** The run up to the point from which task 2, which is runnable, waits. */
  const OPENING: seq<State> := [
    State(3, [LOW, LOW, LOW], [2, 1, 0], [], 0, Head, Boot, [], [NONE, NONE, NONE, NONE, NONE], []),
    State(3, [LOW, LOW, LOW], [1, 0], [2], 1, Head, Boot, [], [NONE, NONE, NONE, NONE, NONE], []),
    State(3, [LOW, LOW, LOW], [0], [2, 1], 2, Head, Boot, [], [NONE, NONE, NONE, NONE, NONE], []),
    State(3, [LOW, LOW, LOW], [], [2, 1, 0], 3, Head, Boot, [], [NONE, NONE, NONE, NONE, NONE], []),
    State(3, [LOW, LOW, LOW], [], [2, 1, 0], 3, On(2), Thread(2), [], [NONE, NONE, NONE, NONE, NONE], []),
    State(3, [LOW, LOW, LOW], [], [2, 1, 0], 3, On(1), Thread(1), [], [NONE, NONE, NONE, NONE, NONE], []),
    State(3, [LOW, LOW, LOW], [], [2, 1, 0], 3, On(0), Thread(0), [], [NONE, NONE, NONE, NONE, NONE], []),
    State(3, [BLOCKED, LOW, LOW], [], [2, 1], 2, On(1), Thread(0), [], WAITING, []),
    State(3, [BLOCKED, LOW, LOW], [], [2, 1], 2, On(2), Thread(2), [], WAITING, []),
    State(3, [BLOCKED, LOW, LOW], [], [2, 1], 2, On(1), Thread(1), [], WAITING, [])]

  const OPENS := [Create(1), Create(1), Create(1), Launch, Tick, Tick, SemWait(3), Tick, Tick]

  /** Tasks 1 and 0 wake each other in turn. */
  const PINGPONG: seq<State> := [
    State(3, [BLOCKED, LOW, LOW], [], [2, 1], 2, On(1), Thread(1), [], WAITING, []),
    State(3, [LOW, LOW, LOW], [], [2, 1, 0], 3, On(1), Thread(1), [], [NONE, NONE, NONE, NONE, NONE], []),
    State(3, [LOW, BLOCKED, LOW], [], [2, 0], 2, On(2), Thread(1), [], [NONE, NONE, NONE, NONE, Sem(-1, [1])], []),
    State(3, [LOW, BLOCKED, LOW], [], [2, 0], 2, On(0), Thread(0), [], [NONE, NONE, NONE, NONE, Sem(-1, [1])], []),
    State(3, [LOW, LOW, LOW], [], [2, 0, 1], 3, On(0), Thread(0), [], [NONE, NONE, NONE, NONE, NONE], []),
    State(3, [BLOCKED, LOW, LOW], [], [2, 1], 2, On(2), Thread(0), [], WAITING, []),
    State(3, [BLOCKED, LOW, LOW], [], [2, 1], 2, On(1), Thread(1), [], WAITING, [])]

  const ROUND := [SemPost(3), SemWait(4), Tick, SemPost(4), SemWait(3), Tick]

  lemma OpeningStarts()
    ensures Initial(3, [0, 0], 0) == OPENING[0]
    ensures Leads(OPENING[0], Create(1), OPENING[1]) && Leads(OPENING[1], Create(1), OPENING[2])
  {
    assert Pool.Descending(3) == [2, 1, 0];
  }

  lemma OpeningLaunches()
    ensures Leads(OPENING[2], Create(1), OPENING[3]) && Leads(OPENING[3], Launch, OPENING[4])
  {
  }

  lemma OpeningTicks()
    ensures Leads(OPENING[4], Tick, OPENING[5]) && Leads(OPENING[5], Tick, OPENING[6])
  {
    TickAwake(OPENING[4]);
    TickAwake(OPENING[5]);
  }

  lemma OpeningBlocks()
    ensures Leads(OPENING[6], SemWait(3), OPENING[7])
  {
    assert [] + [0] == [0] && Without([2, 1, 0], 0) == [2, 1];
  }

  lemma OpeningReturns()
    ensures Leads(OPENING[7], Tick, OPENING[8]) && Leads(OPENING[8], Tick, OPENING[9])
  {
    TickAwake(OPENING[7]);
    TickAwake(OPENING[8]);
  }

  lemma OpeningTrace()
    ensures Initial(3, [0, 0], 0) == OPENING[0] && Trace(OPENING, OPENS)
  {
    OpeningStarts();
    OpeningLaunches();
    OpeningTicks();
    OpeningBlocks();
    OpeningReturns();
  }

  lemma Opens()
    ensures IsRun(Initial(3, [0, 0], 0), OPENS) && Exec(Initial(3, [0, 0], 0), OPENS) == PINGPONG[0]
  {
    OpeningTrace();
    TraceRuns(OPENING, OPENS);
  }

  lemma Ping()
    ensures Leads(PINGPONG[0], SemPost(3), PINGPONG[1])
  {
    assert Post(Sem(-1, [0])) == Posted(NONE, Waiter(0));
    assert [2, 1] + [0] == [2, 1, 0];
  }

  lemma PingWaits()
    ensures Leads(PINGPONG[1], SemWait(4), PINGPONG[2])
  {
    var k, r := PINGPONG[1], PINGPONG[2];
    assert Wait(NONE, 1, 3) == Waited(Sem(-1, [1]), true);
    assert IndexOf(k.runq, 1) == 1 && Without(k.runq, 1) == [2, 0] && Backward(k.runq, On(1)) == On(2);
    var x := Next(k, SemWait(4));
    assert x.sems == r.sems && x.tasks == r.tasks && x.runq == r.runq && x.cursor == r.cursor;
  }

  lemma Pong()
    ensures Leads(PINGPONG[3], SemPost(4), PINGPONG[4])
  {
    assert Post(Sem(-1, [1])) == Posted(NONE, Waiter(1));
    assert [2, 0] + [1] == [2, 0, 1];
  }

  lemma PongWaits()
    ensures Leads(PINGPONG[4], SemWait(3), PINGPONG[5])
  {
    var k, r := PINGPONG[4], PINGPONG[5];
    assert Wait(NONE, 0, 3) == Waited(Sem(-1, [0]), true);
    assert IndexOf(k.runq, 0) == 1 && Without(k.runq, 0) == [2, 1] && Backward(k.runq, On(0)) == On(2);
    var x := Next(k, SemWait(3));
    assert x.sems == r.sems && x.tasks == r.tasks && x.runq == r.runq && x.cursor == r.cursor;
  }

  lemma BetweenPings()
    ensures Leads(PINGPONG[2], Tick, PINGPONG[3]) && Leads(PINGPONG[5], Tick, PINGPONG[6])
  {
    TickAwake(PINGPONG[2]);
    TickAwake(PINGPONG[5]);
  }

  lemma OneRound()
    ensures IsRun(PINGPONG[0], ROUND) && Exec(PINGPONG[0], ROUND) == PINGPONG[0] && NeverRuns(PINGPONG[0], ROUND, 2)
  {
    hide Leads;
    Ping();
    PingWaits();
    BetweenPings();
    Pong();
    PongWaits();
    TraceRuns(PINGPONG, ROUND);
    NeverInTrace(PINGPONG, ROUND, 2);
  }

  function Repeat(ops: seq<Op>, n: nat): seq<Op> {
    if n == 0 then [] else ops + Repeat(ops, n - 1)
  }

  /** A run that leads back to where it started can be repeated. */
  lemma {:induction false} RepeatRun(k: State, ops: seq<Op>, n: nat, t: nat)
    requires IsRun(k, ops) && Exec(k, ops) == k && NeverRuns(k, ops, t)
    ensures IsRun(k, Repeat(ops, n)) && Exec(k, Repeat(ops, n)) == k && NeverRuns(k, Repeat(ops, n), t)
    decreases n
  {
    if n > 0 {
      RepeatRun(k, ops, n - 1, t);
      RunsOn(k, ops, Repeat(ops, n - 1));
      NeverRunsOn(k, ops, Repeat(ops, n - 1), t);
    } else {
      assert ops == [] || k.run != Thread(t);
    }
  }

  /**
   Starvation: two tasks that wake each other join the run queue ahead of a third, over and over.
   From a state that os_init reaches, the third is runnable for any number of rounds and never runs.
   */
  lemma Starves(rounds: nat)
    ensures 2 in PINGPONG[0].runq
    ensures IsRun(Initial(3, [0, 0], 0), OPENS) && Exec(Initial(3, [0, 0], 0), OPENS) == PINGPONG[0]
    ensures IsRun(PINGPONG[0], Repeat(ROUND, rounds)) && NeverRuns(PINGPONG[0], Repeat(ROUND, rounds), 2)
    ensures Exec(PINGPONG[0], Repeat(ROUND, rounds)) == PINGPONG[0]
  {
    Opens();
    OneRound();
    RepeatRun(PINGPONG[0], ROUND, rounds, 2);
  }
}
