/** The barrier as an object that its threads update in place, one step of one thread at a time. */
module SharedBarrier {
  import opened SleepHeap
  import opened Semaphores
  import opened Tables
  import B = Barrier

  // the three semaphores of barrier_t
  const MUTEX := 0
  const TURNSTILE1 := 1
  const TURNSTILE2 := 2

  /** The sem_init calls of barrier_init. */
  method NewSems(cap: nat) returns (s: SemTable)
    requires cap >= 1
    ensures s.Valid() && fresh(s.Repr) && s.cap == cap && s.View() == [Sem(1, []), Sem(0, []), Sem(0, [])]
  {
    s := new SemTable(cap, [1, 0, 0]);
  }

  /** All threads outside, with no call completed. */
  method NewThreads(val: nat) returns (pc: array<B.Pc>, calls: array<nat>)
    ensures fresh(pc) && fresh(calls) && pc.Length == calls.Length == val
    ensures pc[..] == seq(val, _ => B.Outside) && calls[..] == seq(val, _ => 0)
  {
    pc := new B.Pc[val](_ => B.Outside);
    calls := new nat[val](_ => 0);
  }

  class BarrierWait {
    const val: nat
    var count: nat
    const sems: SemTable
    const pc: array<B.Pc>
    const calls: array<nat>

    ghost predicate Valid()
      reads this, pc, calls, sems.Repr
    {
      && sems.Valid() && |sems.sems| == 3 && pc.Length == calls.Length == val
      && this !in sems.Repr && pc !in sems.Repr && calls !in sems.Repr
    }

    ghost function View(): B.State
      reads this, pc, calls, sems.Repr
      requires Valid()
    {
      var s := sems.View();
      B.State(val, sems.cap, count, s[MUTEX], s[TURNSTILE1], s[TURNSTILE2], pc[..], calls[..])
    }

    /** barrier_init, with all threads outside. */
    constructor (val: nat, cap: nat)
      requires 1 <= val <= cap
      ensures Valid() && Some(View()) == B.InitBarrier(val, cap)
    {
      var s := NewSems(cap);
      var p, c := NewThreads(val);
      this.val, count, sems, pc, calls := val, 0, s, p, c;
      new;
      assert View() == B.State(val, cap, 0, Sem(1, []), Sem(0, []), Sem(0, []), pc[..], calls[..]);
    }

    method SetPc(t: nat, p: B.Pc)
      requires Valid() && t < val
      modifies pc
      ensures Valid() && View() == B.SetPc(old(View()), t, p)
    {
      pc[t] := p;
    }

    method Return(t: nat)
      requires Valid() && t < val
      modifies pc, calls
      ensures Valid() && View() == B.Return(old(View()), t)
    {
      pc[t] := B.Outside;
      calls[t] := calls[t] + 1;
    }

    /** A thread that a post took off a queue goes on behind its sem_wait. */
    method Resume(r: Release)
      requires Valid()
      modifies pc, calls
      ensures Valid() && View() == B.Resume(old(View()), r)
    {
      if r.Waiter? && r.task < val {
        match pc[r.task] {
          case MutexQueue1 => SetPc(r.task, B.Arriving);
          case GateQueue1 => SetPc(r.task, B.Passed1);
          case MutexQueue2 => SetPc(r.task, B.Departing);
          case GateQueue2 => Return(r.task);
          case _ =>
        }
      }
    }

    /** sem_wait on one of the three semaphores. */
    method Wait(s: nat, t: nat, queued: B.Pc, passed: B.Pc) returns (blocks: bool)
      requires Valid() && s < 3 && t < val
      modifies pc, sems.Repr
      ensures Valid()
      ensures var b := old(View());
              var x := if s == MUTEX then b.mutex else if s == TURNSTILE1 then b.turnstile1 else b.turnstile2;
              var w := Semaphores.Wait(x, t, b.cap);
              && blocks == w.blocks
              && View() == B.SetPc(if s == MUTEX then b.(mutex := w.sem)
                                   else if s == TURNSTILE1 then b.(turnstile1 := w.sem)
                                   else b.(turnstile2 := w.sem), t, if blocks then queued else passed)
    {
      blocks := sems.Down(s, t);
      pc[t] := if blocks then queued else passed;
    }

    /** sem_post on one of the three semaphores, by a thread that goes on at p. */
    method Post(s: nat, t: nat, p: B.Pc)
      requires Valid() && s < 3 && t < val
      modifies pc, calls, sems.Repr
      ensures Valid()
      ensures var b := old(View());
              var x := if s == MUTEX then b.mutex else if s == TURNSTILE1 then b.turnstile1 else b.turnstile2;
              var w := Semaphores.Post(x);
              View() == B.Resume(B.SetPc(if s == MUTEX then b.(mutex := w.sem)
                                         else if s == TURNSTILE1 then b.(turnstile1 := w.sem)
                                         else b.(turnstile2 := w.sem), t, p), w.release)
    {
      var release := sems.Up(s);
      SetPc(t, p);
      Resume(release);
    }

    /** The next step of thread t in barrier_wait. */
    method Step(t: nat)
      requires Valid() && B.CanStep(View(), t)
      modifies this`count, pc, calls, sems.Repr
      ensures Valid() && View() == B.Step(old(View()), t)
    {
      if pc[t].Arriving? {
        Arrive(t);
      } else if pc[t].Departing? {
        Depart(t);
      } else if pc[t].AtGate2? {
        LeaveGate(t);
      } else if pc[t].Opening1? {
        OpenGate1(t);
      } else if pc[t].Opening2? {
        OpenGate2(t);
      } else {
        UseMutex(t);
      }
    }

    /** The semaphore calls around the two tests. */
    method UseMutex(t: nat)
      requires Valid() && t < val
      requires pc[t].Outside? || pc[t].Leaving1? || pc[t].AtGate1? || pc[t].Passed1? || pc[t].Leaving2?
      modifies pc, calls, sems.Repr
      ensures Valid() && View() == B.Step(old(View()), t)
    {
      if pc[t].Outside? {
        var _ := Wait(MUTEX, t, B.MutexQueue1, B.Arriving);
      } else if pc[t].Leaving1? {
        Post(MUTEX, t, B.AtGate1);
      } else if pc[t].AtGate1? {
        var _ := Wait(TURNSTILE1, t, B.GateQueue1, B.Passed1);
      } else if pc[t].Passed1? {
        var _ := Wait(MUTEX, t, B.MutexQueue2, B.Departing);
      } else {
        Post(MUTEX, t, B.AtGate2);
      }
    }

    /** The test of phase 1: the last to arrive opens turnstile1. */
    method Arrive(t: nat)
      requires Valid() && t < val && pc[t].Arriving?
      modifies this`count, pc
      ensures Valid() && View() == B.Step(old(View()), t)
    {
      count := count + 1;
      SetPc(t, if count == val then B.Opening1(0) else B.Leaving1);
    }

    /** The test of phase 2: the last to leave opens turnstile2. */
    method Depart(t: nat)
      requires Valid() && t < val && pc[t].Departing?
      modifies this`count, pc
      ensures Valid() && View() == B.Step(old(View()), t)
    {
      count := if count == 0 then WORD - 1 else count - 1;
      SetPc(t, if count == 0 then B.Opening2(0) else B.Leaving2);
    }

    /** One turn of the posting loop of phase 1. */
    method OpenGate1(t: nat)
      requires Valid() && t < val && pc[t].Opening1?
      modifies pc, calls, sems.Repr
      ensures Valid() && View() == B.Step(old(View()), t)
    {
      var i := pc[t].posted;
      Post(TURNSTILE1, t, if i + 1 < val then B.Opening1(i + 1) else B.Leaving1);
    }

    /** One turn of the posting loop of phase 2. */
    method OpenGate2(t: nat)
      requires Valid() && t < val && pc[t].Opening2?
      modifies pc, calls, sems.Repr
      ensures Valid() && View() == B.Step(old(View()), t)
    {
      var i := pc[t].posted;
      Post(TURNSTILE2, t, if i + 1 < val then B.Opening2(i + 1) else B.Leaving2);
    }

    /** sem_wait on turnstile2, after which barrier_wait returns. */
    method LeaveGate(t: nat)
      requires Valid() && t < val && pc[t].AtGate2?
      modifies pc, calls, sems.Repr
      ensures Valid() && View() == B.Step(old(View()), t)
    {
      var blocks := sems.Down(TURNSTILE2, t);
      if blocks {
        SetPc(t, B.GateQueue2);
      } else {
        Return(t);
      }
    }
  }
}
