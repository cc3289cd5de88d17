/** The barrier of barrier.c is safe, reusable and never stuck, for every number of threads and schedule. */
module BarrierProofs {
  import opened Semaphores
  import opened Barrier

  // ---------- one move and the tally ----------

  lemma MoveTally(val: nat, pc: seq<Pc>, t: nat, p: Pc)
    requires t < |pc|
    ensures TallyOf(val, pc[t := p]) == TallyAfter(TallyOf(val, pc), val, pc[t], p)
  {
    TotalUpdate(InMutex, val, pc, t, p);
    TotalUpdate(OnMutex, val, pc, t, p);
    TotalUpdate(Before, val, pc, t, p);
    TotalUpdate(Arrived, val, pc, t, p);
    TotalUpdate(Inside, val, pc, t, p);
    TotalUpdate(Gone, val, pc, t, p);
    TotalUpdate(OnGate1, val, pc, t, p);
    TotalUpdate(OnGate2, val, pc, t, p);
    TotalUpdate(Ready1, val, pc, t, p);
    TotalUpdate(Ready2, val, pc, t, p);
    TotalUpdate(Pending1, val, pc, t, p);
    TotalUpdate(Pending2, val, pc, t, p);
  }

  /** The tally after one thread moved from state o to state p. */
  function TallyAfter(y: Tally, val: nat, o: Pc, p: Pc): Tally {
    Tally(y.inMutex - Weight(InMutex, val, o) + Weight(InMutex, val, p),
          y.onMutex - Weight(OnMutex, val, o) + Weight(OnMutex, val, p),
          y.before - Weight(Before, val, o) + Weight(Before, val, p),
          y.arrived - Weight(Arrived, val, o) + Weight(Arrived, val, p),
          y.inside - Weight(Inside, val, o) + Weight(Inside, val, p),
          y.gone - Weight(Gone, val, o) + Weight(Gone, val, p),
          y.onGate1 - Weight(OnGate1, val, o) + Weight(OnGate1, val, p),
          y.onGate2 - Weight(OnGate2, val, o) + Weight(OnGate2, val, p),
          y.ready1 - Weight(Ready1, val, o) + Weight(Ready1, val, p),
          y.ready2 - Weight(Ready2, val, o) + Weight(Ready2, val, p),
          y.pending1 - Weight(Pending1, val, o) + Weight(Pending1, val, p),
          y.pending2 - Weight(Pending2, val, o) + Weight(Pending2, val, p))
  }

  // what each kind of move changes in the tally

  lemma WaitDeltas1(y: Tally, val: nat)
    ensures TallyAfter(y, val, Outside, MutexQueue1) == y.(onMutex := y.onMutex + 1)
    ensures TallyAfter(y, val, Outside, Arriving) == y.(inMutex := y.inMutex + 1)
  {
  }

  lemma WaitDeltas2(y: Tally, val: nat)
    ensures TallyAfter(y, val, Passed1, MutexQueue2) == y.(onMutex := y.onMutex + 1)
    ensures TallyAfter(y, val, Passed1, Departing) == y.(inMutex := y.inMutex + 1)
  {
  }

  lemma LeaveDeltas(y: Tally, val: nat)
    ensures TallyAfter(y, val, Leaving1, AtGate1) == y.(inMutex := y.inMutex - 1)
    ensures TallyAfter(y, val, Leaving2, AtGate2) == y.(inMutex := y.inMutex - 1)
  {
  }

  lemma ResumeDeltas(y: Tally, val: nat)
    ensures TallyAfter(y, val, MutexQueue1, Arriving) == y.(onMutex := y.onMutex - 1, inMutex := y.inMutex + 1)
    ensures TallyAfter(y, val, MutexQueue2, Departing) == y.(onMutex := y.onMutex - 1, inMutex := y.inMutex + 1)
  {
  }

  lemma ArriveDeltas(y: Tally, val: nat)
    requires val > 0
    ensures TallyAfter(y, val, Arriving, Leaving1)
            == y.(before := y.before - 1, arrived := y.arrived + 1, ready1 := y.ready1 + 1)
    ensures TallyAfter(y, val, Arriving, Opening1(0))
            == y.(before := y.before - 1, arrived := y.arrived + 1,
                  ready1 := y.ready1 + 1, pending1 := y.pending1 + val)
  {
  }

  lemma DepartDeltas(y: Tally, val: nat)
    requires val > 0
    ensures TallyAfter(y, val, Departing, Leaving2)
            == y.(inside := y.inside - 1, gone := y.gone + 1, ready2 := y.ready2 + 1)
    ensures TallyAfter(y, val, Departing, Opening2(0))
            == y.(inside := y.inside - 1, gone := y.gone + 1, ready2 := y.ready2 + 1, pending2 := y.pending2 + val)
  {
  }

  lemma Opening1Delta(y: Tally, val: nat, i: nat)
    requires i < val
    ensures TallyAfter(y, val, Opening1(i), if i + 1 < val then Opening1(i + 1) else Leaving1)
            == y.(pending1 := y.pending1 - 1)
  {
  }

  lemma Gate1Deltas(y: Tally, val: nat)
    ensures TallyAfter(y, val, AtGate1, GateQueue1) == y.(ready1 := y.ready1 - 1, onGate1 := y.onGate1 + 1)
    ensures TallyAfter(y, val, AtGate1, Passed1)
            == y.(ready1 := y.ready1 - 1, arrived := y.arrived - 1, inside := y.inside + 1)
    ensures TallyAfter(y, val, GateQueue1, Passed1)
            == y.(onGate1 := y.onGate1 - 1, arrived := y.arrived - 1, inside := y.inside + 1)
  {
  }

  lemma Opening2Delta(y: Tally, val: nat, i: nat)
    requires i < val
    ensures TallyAfter(y, val, Opening2(i), if i + 1 < val then Opening2(i + 1) else Leaving2)
            == y.(pending2 := y.pending2 - 1)
  {
  }

  lemma Gate2Deltas(y: Tally, val: nat)
    ensures TallyAfter(y, val, AtGate2, GateQueue2) == y.(ready2 := y.ready2 - 1, onGate2 := y.onGate2 + 1)
    ensures TallyAfter(y, val, AtGate2, Outside)
            == y.(ready2 := y.ready2 - 1, gone := y.gone - 1, before := y.before + 1)
    ensures TallyAfter(y, val, GateQueue2, Outside)
            == y.(onGate2 := y.onGate2 - 1, gone := y.gone - 1, before := y.before + 1)
  {
  }

  // ---------- one move and the queues ----------

  /** A move that touches none of the three queues. */
  lemma KeepQueues(b: State, b': State, t: nat, p: Pc)
    requires Queues(b) && t < |b.pc| && b'.pc == b.pc[t := p] && b'.val == b.val
    requires b'.mutex == b.mutex && b'.turnstile1 == b.turnstile1 && b'.turnstile2 == b.turnstile2
    requires !Queueing(b.pc[t]) && !Queueing(p)
    ensures Queues(b')
  {
    KeepQueue(b, b', b.mutex, OnMutex, t, p);
    KeepQueue(b, b', b.turnstile1, OnGate1, t, p);
    KeepQueue(b, b', b.turnstile2, OnGate2, t, p);
  }

  /** sem_wait on the mutex. */
  lemma JoinMutex(b: State, b': State, t: nat, p: Pc)
    requires Sizes(b) && Queues(b) && t < |b.pc| && b'.pc == b.pc[t := p] && b'.val == b.val
    requires b'.mutex == Wait(b.mutex, t, b.cap).sem && b'.turnstile1 == b.turnstile1 && b'.turnstile2 == b.turnstile2
    requires !Queueing(b.pc[t])
    requires if Wait(b.mutex, t, b.cap).blocks then p.MutexQueue1? || p.MutexQueue2? else !Queueing(p)
    ensures Queues(b') && b'.mutex.val == b.mutex.val - 1 && (Wait(b.mutex, t, b.cap).blocks <==> b.mutex.val <= 0)
  {
    JoinQueue(b, b', b.mutex, OnMutex, t, p);
    KeepQueue(b, b', b.turnstile1, OnGate1, t, p);
    KeepQueue(b, b', b.turnstile2, OnGate2, t, p);
  }

  lemma JoinGate1(b: State, b': State, t: nat, p: Pc)
    requires Sizes(b) && Queues(b) && t < |b.pc| && b'.pc == b.pc[t := p] && b'.val == b.val
    requires b'.turnstile1 == Wait(b.turnstile1, t, b.cap).sem && b'.mutex == b.mutex && b'.turnstile2 == b.turnstile2
    requires !Queueing(b.pc[t])
    requires if Wait(b.turnstile1, t, b.cap).blocks then p.GateQueue1? else !Queueing(p)
    ensures Queues(b') && b'.turnstile1.val == b.turnstile1.val - 1
    ensures Wait(b.turnstile1, t, b.cap).blocks <==> b.turnstile1.val <= 0
  {
    JoinQueue(b, b', b.turnstile1, OnGate1, t, p);
    KeepQueue(b, b', b.mutex, OnMutex, t, p);
    KeepQueue(b, b', b.turnstile2, OnGate2, t, p);
  }

  lemma JoinGate2(b: State, b': State, t: nat, p: Pc)
    requires Sizes(b) && Queues(b) && t < |b.pc| && b'.pc == b.pc[t := p] && b'.val == b.val
    requires b'.turnstile2 == Wait(b.turnstile2, t, b.cap).sem && b'.mutex == b.mutex && b'.turnstile1 == b.turnstile1
    requires !Queueing(b.pc[t])
    requires if Wait(b.turnstile2, t, b.cap).blocks then p.GateQueue2? else !Queueing(p)
    ensures Queues(b') && b'.turnstile2.val == b.turnstile2.val - 1
    ensures Wait(b.turnstile2, t, b.cap).blocks <==> b.turnstile2.val <= 0
  {
    JoinQueue(b, b', b.turnstile2, OnGate2, t, p);
    KeepQueue(b, b', b.mutex, OnMutex, t, p);
    KeepQueue(b, b', b.turnstile1, OnGate1, t, p);
  }

  // ---------- the steps up to turnstile1 ----------

  lemma PostingMove(b: State, b': State, t: nat, p: Pc)
    requires Posting(b) && t < |b.pc| && b'.pc == b.pc[t := p] && b'.val == b.val
    requires p.Opening1? || p.Opening2? ==> p.posted < b.val
    ensures Posting(b')
  {
  }

  /** The calls of a generation after a move that does not enter or leave the last stage. */
  lemma CallsMove(b: State, b': State, t: nat, p: Pc, g: nat)
    requires t < |b.pc| && b'.pc == b.pc[t := p] && b'.val == b.val && b'.calls == b.calls
    requires Weight(Gone, b.val, b.pc[t]) == Weight(Gone, b.val, p)
    ensures FillCalls(b, g) ==> FillCalls(b', g)
    ensures DrainCalls(b, g) ==> DrainCalls(b', g)
  {
  }

  lemma MutexWaitTally(b: State, t: nat)
    requires CanStep(b, t) && (b.pc[t].Outside? || b.pc[t].Passed1?)
    ensures var y := TallyOf(b.val, b.pc);
            TallyOf(b.val, Step(b, t).pc) ==
              if Wait(b.mutex, t, b.cap).blocks then y.(onMutex := y.onMutex + 1) else y.(inMutex := y.inMutex + 1)
  {
    MoveTally(b.val, b.pc, t, Step(b, t).pc[t]);
    if b.pc[t].Outside? {
      WaitDeltas1(TallyOf(b.val, b.pc), b.val);
    } else {
      WaitDeltas2(TallyOf(b.val, b.pc), b.val);
    }
  }

  /** sem_wait on the mutex, in either phase. */
  lemma MutexWait(b: State, t: nat, g: nat)
    requires Inv(b, g) && CanStep(b, t) && (b.pc[t].Outside? || b.pc[t].Passed1?)
    ensures Inv(Step(b, t), g)
  {
    var b' := Step(b, t);
    var p := b'.pc[t];
    MutexWaitTally(b, t);
    JoinMutex(b, b', t, p);
    PostingMove(b, b', t, p);
    CallsMove(b, b', t, p, g);
  }

  /** Before the last arrival the count keeps the generation filling; the last one opens turnstile1. */
  lemma ArriveStep(b: State, t: nat, g: nat)
    requires Filling(b, g) && CanStep(b, t) && b.pc[t].Arriving?
    ensures if b.count + 1 == b.val then Draining(Step(b, t), g) else Filling(Step(b, t), g)
  {
    var b' := Step(b, t);
    var p := b'.pc[t];
    MoveTally(b.val, b.pc, t, p);
    ArriveDeltas(TallyOf(b.val, b.pc), b.val);
    KeepQueues(b, b', t, p);
    PostingMove(b, b', t, p);
    CallsMove(b, b', t, p, g);
    Partition(b.val, b'.pc);
    if b.count + 1 == b.val {
      NobodyGone(b', g);
    }
  }

  /** When nobody is in the last stage all calls are equal. */
  lemma NobodyGone(b: State, g: nat)
    requires FillCalls(b, g) && Total(Gone, b.val, b.pc) == 0 && |b.calls| == |b.pc|
    ensures DrainCalls(b, g)
  {
    forall u | 0 <= u < |b.calls| ensures b.calls[u] == g {
      TotalUpdate(Gone, b.val, b.pc, u, b.pc[u]);
    }
  }

  /** sem_wait on turnstile1: no token while filling, one per arrived thread while draining. */
  lemma Gate1Wait(b: State, t: nat, g: nat)
    requires Inv(b, g) && CanStep(b, t) && b.pc[t].AtGate1?
    ensures Inv(Step(b, t), g)
    ensures Filling(b, g) ==> Step(b, t).pc[t].GateQueue1?
  {
    var b' := Step(b, t);
    var p := b'.pc[t];
    MoveTally(b.val, b.pc, t, p);
    Gate1Deltas(TallyOf(b.val, b.pc), b.val);
    JoinGate1(b, b', t, p);
    PostingMove(b, b', t, p);
    CallsMove(b, b', t, p, g);
  }

  // ---------- posts ----------

  /** A post by t, which moves to p, and the released waiter of that queue, if any, moving to q. */
  lemma PostMutexQueues(b: State, b1: State, b': State, t: nat, p: Pc, q: Pc)
    requires Sizes(b) && Queues(b) && t < |b.pc| && b1 == b.(pc := b.pc[t := p], mutex := Post(b.mutex).sem)
    requires b'.val == b.val && b'.mutex == b1.mutex && b'.turnstile1 == b.turnstile1 && b'.turnstile2 == b.turnstile2
    requires b'.pc == if b.mutex.wq == [] then b1.pc else b1.pc[b.mutex.wq[0] := q]
    requires !Queueing(b.pc[t]) && !Queueing(p) && !Queueing(q) && b.mutex.val < VAL_MAX
    ensures Queues(b') && b'.mutex.val == b.mutex.val + 1
  {
    LeaveQueue(b, b1, b', b.mutex, OnMutex, t, p, q);
    KeepQueue(b, b1, b.turnstile1, OnGate1, t, p);
    KeepQueue(b, b1, b.turnstile2, OnGate2, t, p);
    if b.mutex.wq != [] {
      var w := b.mutex.wq[0];
      assert Weight(OnMutex, b.val, b.pc[w]) == 1;
      KeepQueue(b1, b', b.turnstile1, OnGate1, w, q);
      KeepQueue(b1, b', b.turnstile2, OnGate2, w, q);
    }
  }

  lemma PostGate1Queues(b: State, b1: State, b': State, t: nat, p: Pc)
    requires Sizes(b) && Queues(b) && t < |b.pc| && b1 == b.(pc := b.pc[t := p], turnstile1 := Post(b.turnstile1).sem)
    requires b'.val == b.val && b'.turnstile1 == b1.turnstile1 && b'.mutex == b.mutex && b'.turnstile2 == b.turnstile2
    requires b'.pc == if b.turnstile1.wq == [] then b1.pc else b1.pc[b.turnstile1.wq[0] := Passed1]
    requires !Queueing(b.pc[t]) && !Queueing(p) && b.turnstile1.val < VAL_MAX
    ensures Queues(b') && b'.turnstile1.val == b.turnstile1.val + 1
  {
    LeaveQueue(b, b1, b', b.turnstile1, OnGate1, t, p, Passed1);
    KeepQueue(b, b1, b.mutex, OnMutex, t, p);
    KeepQueue(b, b1, b.turnstile2, OnGate2, t, p);
    if b.turnstile1.wq != [] {
      var w := b.turnstile1.wq[0];
      assert Weight(OnGate1, b.val, b.pc[w]) == 1;
      KeepQueue(b1, b', b.mutex, OnMutex, w, Passed1);
      KeepQueue(b1, b', b.turnstile2, OnGate2, w, Passed1);
    }
  }

  lemma PostGate2Queues(b: State, b1: State, b': State, t: nat, p: Pc)
    requires Sizes(b) && Queues(b) && t < |b.pc| && b1 == b.(pc := b.pc[t := p], turnstile2 := Post(b.turnstile2).sem)
    requires b'.val == b.val && b'.turnstile2 == b1.turnstile2 && b'.mutex == b.mutex && b'.turnstile1 == b.turnstile1
    requires b'.pc == if b.turnstile2.wq == [] then b1.pc else b1.pc[b.turnstile2.wq[0] := Outside]
    requires !Queueing(b.pc[t]) && !Queueing(p) && b.turnstile2.val < VAL_MAX
    ensures Queues(b') && b'.turnstile2.val == b.turnstile2.val + 1
  {
    LeaveQueue(b, b1, b', b.turnstile2, OnGate2, t, p, Outside);
    KeepQueue(b, b1, b.mutex, OnMutex, t, p);
    KeepQueue(b, b1, b.turnstile1, OnGate1, t, p);
    if b.turnstile2.wq != [] {
      var w := b.turnstile2.wq[0];
      assert Weight(OnGate2, b.val, b.pc[w]) == 1;
      KeepQueue(b1, b', b.mutex, OnMutex, w, Outside);
      KeepQueue(b1, b', b.turnstile1, OnGate1, w, Outside);
    }
  }

  /** Whom a post releases, and that it is not the poster. */
  lemma Released(b: State, s: Sem, on: Class, t: nat)
    requires QueueOk(b, s, on) && s.val < VAL_MAX && t < |b.pc| && Weight(on, b.val, b.pc[t]) == 0
    ensures Post(s).release == if s.wq == [] then Nobody else Waiter(s.wq[0])
    ensures s.wq != [] ==> s.wq[0] < |b.pc| && s.wq[0] != t && Weight(on, b.val, b.pc[s.wq[0]]) == 1
  {
    PostAgrees(s);
  }

  /** Where a thread on the mutex goes on when it is released. */
  function PastMutex(p: Pc): Pc {
    if p.MutexQueue1? then Arriving else Departing
  }

  /** The poster of the mutex after its post. */
  function Posted(b: State, t: nat): State
    requires t < |b.pc|
  {
    b.(mutex := Post(b.mutex).sem, pc := b.pc[t := if b.pc[t].Leaving1? then AtGate1 else AtGate2])
  }

  /** sem_post of the mutex: the poster moves on, and so does the longest waiter. */
  lemma MutexPostShape(b: State, t: nat)
    requires Common(b) && CanStep(b, t) && (b.pc[t].Leaving1? || b.pc[t].Leaving2?)
    ensures var b1 := Posted(b, t); var q := b.mutex.wq;
            && (q != [] ==> q[0] < |b.pc| && q[0] != t && (b.pc[q[0]].MutexQueue1? || b.pc[q[0]].MutexQueue2?))
            && Step(b, t) == if q == [] then b1 else b1.(pc := b1.pc[q[0] := PastMutex(b.pc[q[0]])])
  {
    Released(b, b.mutex, OnMutex, t);
  }

  /** The mutex part of the tally after a post. */
  lemma MutexPostTally(b: State, t: nat)
    requires Common(b) && CanStep(b, t) && (b.pc[t].Leaving1? || b.pc[t].Leaving2?)
    ensures var y := TallyOf(b.val, b.pc); var d := if b.mutex.wq == [] then 0 else 1;
            TallyOf(b.val, Step(b, t).pc) == y.(inMutex := y.inMutex - 1 + d, onMutex := y.onMutex - d)
  {
    MutexPostShape(b, t);
    var b1 := Posted(b, t);
    MoveTally(b.val, b.pc, t, b1.pc[t]);
    LeaveDeltas(TallyOf(b.val, b.pc), b.val);
    if b.mutex.wq != [] {
      var w := b.mutex.wq[0];
      MoveTally(b.val, b1.pc, w, PastMutex(b.pc[w]));
      ResumeDeltas(TallyOf(b.val, b1.pc), b.val);
    }
  }

  lemma MutexPostQueues(b: State, t: nat)
    requires Common(b) && CanStep(b, t) && (b.pc[t].Leaving1? || b.pc[t].Leaving2?)
    ensures Queues(Step(b, t)) && Posting(Step(b, t)) && Step(b, t).mutex.val == b.mutex.val + 1
  {
    MutexPostShape(b, t);
    var b1, q := Posted(b, t), b.mutex.wq;
    PostingMove(b, b1, t, b1.pc[t]);
    PostMutexQueues(b, b1, Step(b, t), t, b1.pc[t], if q == [] then Arriving else PastMutex(b.pc[q[0]]));
    if q != [] {
      PostingMove(b1, Step(b, t), q[0], PastMutex(b.pc[q[0]]));
    }
  }

  lemma MutexPostCalls(b: State, t: nat, g: nat)
    requires Common(b) && CanStep(b, t) && (b.pc[t].Leaving1? || b.pc[t].Leaving2?)
    ensures FillCalls(b, g) ==> FillCalls(Step(b, t), g)
    ensures DrainCalls(b, g) ==> DrainCalls(Step(b, t), g)
  {
    MutexPostShape(b, t);
    var b1 := Posted(b, t);
    CallsMove(b, b1, t, b1.pc[t], g);
    if b.mutex.wq != [] {
      CallsMove(b1, Step(b, t), b.mutex.wq[0], PastMutex(b.pc[b.mutex.wq[0]]), g);
    }
  }

  /** sem_post of the mutex, in either phase. */
  lemma MutexPost(b: State, t: nat, g: nat)
    requires Inv(b, g) && CanStep(b, t) && (b.pc[t].Leaving1? || b.pc[t].Leaving2?)
    ensures Inv(Step(b, t), g)
  {
    MutexPostShape(b, t);
    MutexPostTally(b, t);
    MutexPostQueues(b, t);
    MutexPostCalls(b, t, g);
  }

  /** The opener of turnstile1 after one post. */
  function Opened1(b: State, t: nat): State
    requires t < |b.pc| && b.pc[t].Opening1?
  {
    var i := b.pc[t].posted;
    b.(turnstile1 := Post(b.turnstile1).sem, pc := b.pc[t := if i + 1 < b.val then Opening1(i + 1) else Leaving1])
  }

  lemma Open1Shape(b: State, t: nat)
    requires Common(b) && CanStep(b, t) && b.pc[t].Opening1? && b.turnstile1.val < VAL_MAX
    ensures var b1 := Opened1(b, t); var q := b.turnstile1.wq;
            && (q != [] ==> q[0] < |b.pc| && q[0] != t && b.pc[q[0]].GateQueue1?)
            && Step(b, t) == if q == [] then b1 else b1.(pc := b1.pc[q[0] := Passed1])
  {
    Released(b, b.turnstile1, OnGate1, t);
  }

  lemma Opened1Tally(b: State, t: nat)
    requires Common(b) && CanStep(b, t) && b.pc[t].Opening1?
    ensures var y := TallyOf(b.val, b.pc);
            TallyOf(b.val, Opened1(b, t).pc) == y.(pending1 := y.pending1 - 1)
  {
    MoveTally(b.val, b.pc, t, Opened1(b, t).pc[t]);
    Opening1Delta(TallyOf(b.val, b.pc), b.val, b.pc[t].posted);
  }

  lemma Resumed1Tally(val: nat, pc: seq<Pc>, w: nat)
    requires w < |pc| && pc[w].GateQueue1?
    ensures var y := TallyOf(val, pc);
            TallyOf(val, pc[w := Passed1])
            == y.(onGate1 := y.onGate1 - 1, arrived := y.arrived - 1, inside := y.inside + 1)
  {
    MoveTally(val, pc, w, Passed1);
    Gate1Deltas(TallyOf(val, pc), val);
  }

  lemma Open1Tally(b: State, t: nat)
    requires Common(b) && CanStep(b, t) && b.pc[t].Opening1? && b.turnstile1.val < VAL_MAX
    ensures var y := TallyOf(b.val, b.pc); var d := if b.turnstile1.wq == [] then 0 else 1;
            TallyOf(b.val, Step(b, t).pc)
            == y.(pending1 := y.pending1 - 1, onGate1 := y.onGate1 - d,
                  arrived := y.arrived - d, inside := y.inside + d)
  {
    Open1Shape(b, t);
    Opened1Tally(b, t);
    if b.turnstile1.wq != [] {
      Resumed1Tally(b.val, Opened1(b, t).pc, b.turnstile1.wq[0]);
    }
  }

  lemma Open1Queues(b: State, t: nat)
    requires Common(b) && CanStep(b, t) && b.pc[t].Opening1? && b.turnstile1.val < VAL_MAX
    ensures Queues(Step(b, t)) && Posting(Step(b, t)) && Step(b, t).turnstile1.val == b.turnstile1.val + 1
  {
    Open1Shape(b, t);
    var b1 := Opened1(b, t);
    PostingMove(b, b1, t, b1.pc[t]);
    PostGate1Queues(b, b1, Step(b, t), t, b1.pc[t]);
    if b.turnstile1.wq != [] {
      PostingMove(b1, Step(b, t), b.turnstile1.wq[0], Passed1);
    }
  }

  /** One turn of the loop that opens turnstile1. */
  lemma Open1Step(b: State, t: nat, g: nat)
    requires Draining(b, g) && CanStep(b, t) && b.pc[t].Opening1?
    ensures Draining(Step(b, t), g)
  {
    Gate1Room(b, t);
    Open1Shape(b, t);
    Open1Tally(b, t);
    Open1Queues(b, t);
  }

  /** While posts are due the token count is below the number of threads. */
  lemma Gate1Room(b: State, t: nat)
    requires Common(b) && DrainTokens(b, TallyOf(b.val, b.pc)) && t < |b.pc| && b.pc[t].Opening1?
    ensures b.turnstile1.val < VAL_MAX && b.pc[t].posted < b.val
  {
    TotalUpdate(Pending1, b.val, b.pc, t, b.pc[t]);
    Partition(b.val, b.pc);
  }

  lemma Gate2Room(b: State, t: nat)
    requires Common(b) && FillTokens(b, TallyOf(b.val, b.pc)) && t < |b.pc| && b.pc[t].Opening2?
    ensures b.turnstile2.val < VAL_MAX && b.pc[t].posted < b.val
  {
    TotalUpdate(Pending2, b.val, b.pc, t, b.pc[t]);
    Partition(b.val, b.pc);
  }

  // ---------- the steps of phase 2 ----------

  /** The last departure closes the generation: the next one fills, and turnstile2 is opened for the leavers. */
  lemma DepartStep(b: State, t: nat, g: nat)
    requires Draining(b, g) && CanStep(b, t) && b.pc[t].Departing?
    ensures if b.count == 1 then Filling(Step(b, t), g + 1) else Draining(Step(b, t), g)
  {
    var b' := Step(b, t);
    var p := b'.pc[t];
    MoveTally(b.val, b.pc, t, p);
    DepartDeltas(TallyOf(b.val, b.pc), b.val);
    KeepQueues(b, b', t, p);
    PostingMove(b, b', t, p);
    Partition(b.val, b'.pc);
    if b.count == 1 {
      EveryoneGone(b', g);
    }
  }

  /** When everybody is in the last stage all are stragglers of the generation that ends. */
  lemma EveryoneGone(b: State, g: nat)
    requires DrainCalls(b, g) && |b.calls| == |b.pc| == Total(Gone, b.val, b.pc)
    ensures FillCalls(b, g + 1)
  {
    Partition(b.val, b.pc);
    forall u | 0 <= u < |b.pc| ensures b.calls[u] + Weight(Gone, b.val, b.pc[u]) == g + 1 {
      TotalUpdate(Before, b.val, b.pc, u, b.pc[u]);
      TotalUpdate(Arrived, b.val, b.pc, u, b.pc[u]);
      TotalUpdate(Inside, b.val, b.pc, u, b.pc[u]);
      PartitionOne(b.val, b.pc[u]);
    }
  }

  /** A straggler returns from its call. */
  lemma ReturnCalls(b: State, b': State, t: nat, g: nat)
    requires FillCalls(b, g) && t < |b.pc| == |b.calls| && Weight(Gone, b.val, b.pc[t]) == 1
    requires b'.pc == b.pc[t := Outside] && b'.calls == b.calls[t := b.calls[t] + 1] && b'.val == b.val
    ensures FillCalls(b', g)
  {
    assert b.calls[t] + Weight(Gone, b.val, b.pc[t]) == g;
  }

  lemma Gate2Common(b: State, t: nat)
    requires Common(b) && CanStep(b, t) && b.pc[t].AtGate2?
    ensures Common(Step(b, t))
    ensures var y := TallyOf(b.val, b.pc); var b' := Step(b, t);
            && TallyOf(b.val, b'.pc)
               == (if b'.pc[t].GateQueue2? then y.(ready2 := y.ready2 - 1, onGate2 := y.onGate2 + 1)
                   else y.(ready2 := y.ready2 - 1, gone := y.gone - 1, before := y.before + 1))
            && b'.turnstile2.val == b.turnstile2.val - 1 && (b'.pc[t].GateQueue2? <==> b.turnstile2.val <= 0)
  {
    var b' := Step(b, t);
    var p := b'.pc[t];
    MoveTally(b.val, b.pc, t, p);
    Gate2Deltas(TallyOf(b.val, b.pc), b.val);
    JoinGate2(b, b', t, p);
    PostingMove(b, b', t, p);
  }

  /** sem_wait on turnstile2: no token while draining, one per straggler while filling. */
  lemma Gate2Wait(b: State, t: nat, g: nat)
    requires Inv(b, g) && CanStep(b, t) && b.pc[t].AtGate2?
    ensures Inv(Step(b, t), g)
    ensures Draining(b, g) ==> Step(b, t).pc[t].GateQueue2?
  {
    var b' := Step(b, t);
    Gate2Common(b, t);
    if b'.pc[t].GateQueue2? {
      CallsMove(b, b', t, b'.pc[t], g);
    } else {
      ReturnCalls(b, b', t, g);
    }
  }

  /** The opener of turnstile2 after one post. */
  function Opened2(b: State, t: nat): State
    requires t < |b.pc| && b.pc[t].Opening2?
  {
    var i := b.pc[t].posted;
    b.(turnstile2 := Post(b.turnstile2).sem, pc := b.pc[t := if i + 1 < b.val then Opening2(i + 1) else Leaving2])
  }

  lemma Open2Shape(b: State, t: nat)
    requires Common(b) && CanStep(b, t) && b.pc[t].Opening2? && b.turnstile2.val < VAL_MAX
    ensures var b1 := Opened2(b, t); var q := b.turnstile2.wq;
            && (q != [] ==> q[0] < |b.pc| && q[0] != t && b.pc[q[0]].GateQueue2?)
            && Step(b, t) == if q == [] then b1 else Return(b1, q[0])
  {
    Released(b, b.turnstile2, OnGate2, t);
  }

  lemma Opened2Tally(b: State, t: nat)
    requires Common(b) && CanStep(b, t) && b.pc[t].Opening2?
    ensures var y := TallyOf(b.val, b.pc);
            TallyOf(b.val, Opened2(b, t).pc) == y.(pending2 := y.pending2 - 1)
  {
    MoveTally(b.val, b.pc, t, Opened2(b, t).pc[t]);
    Opening2Delta(TallyOf(b.val, b.pc), b.val, b.pc[t].posted);
  }

  lemma Resumed2Tally(val: nat, pc: seq<Pc>, w: nat)
    requires w < |pc| && pc[w].GateQueue2?
    ensures var y := TallyOf(val, pc);
            TallyOf(val, pc[w := Outside]) == y.(onGate2 := y.onGate2 - 1, gone := y.gone - 1, before := y.before + 1)
  {
    MoveTally(val, pc, w, Outside);
    Gate2Deltas(TallyOf(val, pc), val);
  }

  lemma Open2Tally(b: State, t: nat)
    requires Common(b) && CanStep(b, t) && b.pc[t].Opening2? && b.turnstile2.val < VAL_MAX
    ensures var y := TallyOf(b.val, b.pc); var d := if b.turnstile2.wq == [] then 0 else 1;
            TallyOf(b.val, Step(b, t).pc)
            == y.(pending2 := y.pending2 - 1, onGate2 := y.onGate2 - d, gone := y.gone - d, before := y.before + d)
  {
    Open2Shape(b, t);
    Opened2Tally(b, t);
    if b.turnstile2.wq != [] {
      Resumed2Tally(b.val, Opened2(b, t).pc, b.turnstile2.wq[0]);
    }
  }

  lemma Open2Queues(b: State, t: nat)
    requires Common(b) && CanStep(b, t) && b.pc[t].Opening2? && b.turnstile2.val < VAL_MAX
    ensures Queues(Step(b, t)) && Posting(Step(b, t)) && Step(b, t).turnstile2.val == b.turnstile2.val + 1
  {
    Open2Shape(b, t);
    var b1 := Opened2(b, t);
    PostingMove(b, b1, t, b1.pc[t]);
    PostGate2Queues(b, b1, Step(b, t), t, b1.pc[t]);
    if b.turnstile2.wq != [] {
      PostingMove(b1, Step(b, t), b.turnstile2.wq[0], Outside);
    }
  }

  lemma Open2Calls(b: State, t: nat, g: nat)
    requires Common(b) && FillCalls(b, g) && CanStep(b, t) && b.pc[t].Opening2? && b.turnstile2.val < VAL_MAX
    ensures FillCalls(Step(b, t), g)
  {
    Open2Shape(b, t);
    var b1 := Opened2(b, t);
    CallsMove(b, b1, t, b1.pc[t], g);
    if b.turnstile2.wq != [] {
      ReturnCalls(b1, Step(b, t), b.turnstile2.wq[0], g);
    }
  }

  /** One turn of the loop that opens turnstile2. */
  lemma Open2Step(b: State, t: nat, g: nat)
    requires Filling(b, g) && CanStep(b, t) && b.pc[t].Opening2?
    ensures Filling(Step(b, t), g)
  {
    Gate2Room(b, t);
    Open2Shape(b, t);
    Open2Tally(b, t);
    Open2Queues(b, t);
    Open2Calls(b, t, g);
  }

  // ---------- the theorems ----------

  /** While a generation fills nobody is past turnstile1 or opens it; while one drains nobody is before it. */
  lemma StagesOfPhase(b: State, g: nat, t: nat)
    requires Inv(b, g) && t < |b.pc|
    ensures Filling(b, g) ==> !b.pc[t].Opening1? && Weight(Inside, b.val, b.pc[t]) == 0
    ensures Draining(b, g) ==> !b.pc[t].Opening2? && Weight(Before, b.val, b.pc[t]) == 0
  {
    TotalUpdate(Pending1, b.val, b.pc, t, b.pc[t]);
    TotalUpdate(Inside, b.val, b.pc, t, b.pc[t]);
    TotalUpdate(Pending2, b.val, b.pc, t, b.pc[t]);
    TotalUpdate(Before, b.val, b.pc, t, b.pc[t]);
  }

  /** Every step of every thread keeps the invariant, of the same generation or of the next. */
  lemma StepInv(b: State, t: nat, g: nat)
    requires Inv(b, g) && CanStep(b, t)
    ensures Inv(Step(b, t), g) || Inv(Step(b, t), g + 1)
  {
    StagesOfPhase(b, g, t);
    match b.pc[t]
    case Outside => MutexWait(b, t, g);
    case Arriving => ArriveStep(b, t, g);
    case Opening1(_) => Open1Step(b, t, g);
    case Leaving1 => MutexPost(b, t, g);
    case AtGate1 => Gate1Wait(b, t, g);
    case Passed1 => MutexWait(b, t, g);
    case Departing => DepartStep(b, t, g);
    case Opening2(_) => Open2Step(b, t, g);
    case Leaving2 => MutexPost(b, t, g);
    case AtGate2 => Gate2Wait(b, t, g);
  }

  /** The invariant, of some generation. */
  ghost predicate Consistent(b: State) {
    exists g :: Inv(b, g)
  }

  lemma StepConsistent(b: State, t: nat)
    requires Consistent(b) && CanStep(b, t)
    ensures Consistent(Step(b, t))
  {
    var g :| Inv(b, g);
    StepInv(b, t, g);
  }

  lemma {:induction false} RunConsistent(b: State, ts: seq<nat>)
    requires Consistent(b) && IsSchedule(b, ts)
    ensures Consistent(Run(b, ts))
    decreases |ts|
  {
    if ts != [] {
      StepConsistent(b, ts[0]);
      RunConsistent(Step(b, ts[0]), ts[1..]);
    }
  }

  lemma {:induction false} AllOutsideTally(val: nat, pc: seq<Pc>)
    requires forall t :: 0 <= t < |pc| ==> pc[t].Outside?
    ensures TallyOf(val, pc) == Tally(0, 0, |pc|, 0, 0, 0, 0, 0, 0, 0, 0, 0)
    decreases |pc|
  {
    if pc != [] {
      AllOutsideTally(val, pc[1..]);
    }
  }

  /** barrier_init starts a run, for every number of threads from 1 to NUM_THREADS. */
  lemma InitConsistent(val: nat, cap: nat)
    requires 1 <= val && cap <= VAL_MAX && InitBarrier(val, cap).Some?
    ensures Consistent(InitBarrier(val, cap).value)
  {
    var b := InitBarrier(val, cap).value;
    AllOutsideTally(val, b.pc);
    assert Inv(b, 0);
  }

  // how often a thread has entered, passed turnstile1, counted down and left

  function Entered(b: State, t: nat): nat
    requires t < |b.pc| == |b.calls|
  {
    b.calls[t] + 1 - Weight(Before, b.val, b.pc[t])
  }

  function PassedGate1(b: State, t: nat): nat
    requires t < |b.pc| == |b.calls|
  {
    b.calls[t] + Weight(Inside, b.val, b.pc[t]) + Weight(Gone, b.val, b.pc[t])
  }

  function CountedDown(b: State, t: nat): nat
    requires t < |b.pc| == |b.calls|
  {
    b.calls[t] + Weight(Gone, b.val, b.pc[t])
  }

  lemma PhaseOf(b: State, g: nat, t: nat)
    requires Inv(b, g) && t < |b.pc|
    ensures Filling(b, g) ==> CountedDown(b, t) == PassedGate1(b, t) == g <= Entered(b, t)
    ensures Draining(b, g) ==> b.calls[t] == g <= PassedGate1(b, t) && Entered(b, t) == g + 1
  {
    StagesOfPhase(b, g, t);
    PartitionOne(b.val, b.pc[t]);
    if Filling(b, g) {
      assert b.calls[t] + Weight(Gone, b.val, b.pc[t]) == g;
    }
  }

  /**
   No thread passes turnstile1 of a generation before all threads have entered that generation, and
   none leaves a generation before all have counted down in it.
   */
  lemma BarrierSafety(b: State, t: nat, u: nat)
    requires Consistent(b) && t < |b.pc| && u < |b.pc| && |b.pc| == |b.calls|
    ensures PassedGate1(b, t) <= Entered(b, u)
    ensures b.calls[t] <= CountedDown(b, u)
  {
    var g :| Inv(b, g);
    PhaseOf(b, g, t);
    PhaseOf(b, g, u);
  }

  /** Tokens of one turnstile are used up before the other gets any, so none is left for a later generation. */
  lemma NoStaleTokens(b: State)
    requires Consistent(b)
    ensures b.turnstile1.val <= 0 || b.turnstile2.val <= 0
    ensures forall t :: 0 <= t < |b.pc| && Weight(Before, b.val, b.pc[t]) == 1 ==> b.turnstile1.val <= 0
    ensures forall t :: 0 <= t < |b.pc| && Weight(Inside, b.val, b.pc[t]) == 1 ==> b.turnstile2.val <= 0
  {
    var g :| Inv(b, g);
    forall t | 0 <= t < |b.pc|
      ensures Weight(Before, b.val, b.pc[t]) == 1 ==> b.turnstile1.val <= 0
      ensures Weight(Inside, b.val, b.pc[t]) == 1 ==> b.turnstile2.val <= 0
    {
      StagesOfPhase(b, g, t);
    }
  }

  /** Whenever all threads are outside, the barrier is as barrier_init left it. */
  lemma Reusable(b: State)
    requires Consistent(b) && forall t :: 0 <= t < |b.pc| ==> b.pc[t].Outside?
    ensures b.count == 0 && b.mutex == Sem(1, []) && b.turnstile1 == Sem(0, []) && b.turnstile2 == Sem(0, [])
  {
    AllOutsideTally(b.val, b.pc);
  }

  lemma {:induction false} QueueingTally(val: nat, pc: seq<Pc>)
    requires forall t :: 0 <= t < |pc| ==> Queueing(pc[t])
    ensures var y := TallyOf(val, pc);
            && y.inMutex == 0 && y.ready1 == 0 && y.ready2 == 0 && y.pending1 == 0 && y.pending2 == 0
            && y.before + y.inside <= y.onMutex
    decreases |pc|
  {
    if pc != [] {
      QueueingTally(val, pc[1..]);
    }
  }

  /** Some thread can always step: the barrier never deadlocks. */
  lemma SomeoneCanStep(b: State)
    requires Consistent(b)
    ensures exists t :: CanStep(b, t)
  {
    if forall t :: 0 <= t < |b.pc| ==> Queueing(b.pc[t]) {
      QueueingTally(b.val, b.pc);
      Partition(b.val, b.pc);
      assert false;
    } else {
      var t: nat :| t < |b.pc| && !Queueing(b.pc[t]);
      assert CanStep(b, t);
    }
  }

  lemma ConsistentSizes(b: State)
    requires Consistent(b)
    ensures |b.pc| == |b.calls| == b.val && Posting(b)
  {
  }

  /** After every schedule from barrier_init the barrier is safe, and somebody can go on. */
  lemma BarrierFromInit(val: nat, cap: nat, ts: seq<nat>, t: nat, u: nat)
    requires 1 <= val && cap <= VAL_MAX && InitBarrier(val, cap).Some?
    requires IsSchedule(InitBarrier(val, cap).value, ts)
    ensures var b := Run(InitBarrier(val, cap).value, ts);
            && |b.pc| == |b.calls| == b.val
            && (t < b.val && u < b.val ==> PassedGate1(b, t) <= Entered(b, u) && b.calls[t] <= CountedDown(b, u))
            && exists v :: CanStep(b, v)
  {
    var start := InitBarrier(val, cap).value;
    var b := Run(start, ts);
    InitConsistent(val, cap);
    RunConsistent(start, ts);
    ConsistentSizes(b);
    SomeoneCanStep(b);
    if t < b.val && u < b.val {
      BarrierSafety(b, t, u);
    }
  }

  // ---------- progress under every schedule ----------

  /** How far a thread is in its call, in steps. */
  function Rank(val: nat, p: Pc): nat {
    match p
    case Outside => 0
    case MutexQueue1 => 1
    case Arriving => 2
    case Opening1(i) => 3 + if i < val then i else val
    case Leaving1 => 3 + val
    case AtGate1 => 4 + val
    case GateQueue1 => 5 + val
    case Passed1 => 6 + val
    case MutexQueue2 => 7 + val
    case Departing => 8 + val
    case Opening2(i) => 9 + val + if i < val then i else val
    case Leaving2 => 9 + 2 * val
    case AtGate2 => 10 + 2 * val
    case GateQueue2 => 11 + 2 * val
  }

  /** The most steps of a call. */
  function CallLength(val: nat): nat { 12 + 2 * val }

  /** The steps of one thread, in its completed calls and in this one. */
  function Steps(val: nat, p: Pc, calls: nat): nat {
    calls * CallLength(val) + Rank(val, p)
  }

  /** The steps of all calls so far. */
  function Work(val: nat, pc: seq<Pc>, calls: seq<nat>): nat
    requires |pc| == |calls|
  {
    if pc == [] then 0 else Steps(val, pc[0], calls[0]) + Work(val, pc[1..], calls[1..])
  }

  lemma {:induction false} WorkUpdate(val: nat, pc: seq<Pc>, calls: seq<nat>, t: nat, p: Pc, n: nat)
    requires |pc| == |calls| && t < |pc|
    ensures Work(val, pc[t := p], calls[t := n]) + Steps(val, pc[t], calls[t])
            == Work(val, pc, calls) + Steps(val, p, n)
    decreases |pc|
  {
    if t > 0 {
      assert pc[t := p][1..] == pc[1..][t - 1 := p] && calls[t := n][1..] == calls[1..][t - 1 := n];
      WorkUpdate(val, pc[1..], calls[1..], t - 1, p, n);
    }
  }

  /** The work of one thread in its first n calls. */
  lemma ThreadWork(val: nat, p: Pc, calls: nat, n: nat)
    requires calls < n
    ensures Steps(val, p, calls) <= n * CallLength(val)
  {
    var c := CallLength(val);
    assert Rank(val, p) <= c;
    assert (calls + 1) * c <= n * c;
    assert (calls + 1) * c == calls * c + c;
  }

  /** n times m, by addition. */
  function Repeated(n: nat, m: nat): nat {
    if n == 0 then 0 else m + Repeated(n - 1, m)
  }

  lemma {:induction false} RepeatedIsProduct(n: nat, m: nat)
    ensures Repeated(n, m) == n * m
  {
    if n > 0 {
      RepeatedIsProduct(n - 1, m);
    }
  }

  lemma {:induction false} WorkBoundBy(val: nat, pc: seq<Pc>, calls: seq<nat>, m: nat)
    requires |pc| == |calls| && forall t :: 0 <= t < |pc| ==> Steps(val, pc[t], calls[t]) <= m
    ensures Work(val, pc, calls) <= Repeated(|pc|, m)
    decreases |pc|
  {
    if pc != [] {
      WorkBoundBy(val, pc[1..], calls[1..], m);
    }
  }

  lemma WorkBound(val: nat, pc: seq<Pc>, calls: seq<nat>, n: nat)
    requires |pc| == |calls| && forall t :: 0 <= t < |calls| ==> calls[t] < n
    ensures Work(val, pc, calls) <= |pc| * (n * CallLength(val))
  {
    forall t | 0 <= t < |pc| ensures Steps(val, pc[t], calls[t]) <= n * CallLength(val) {
      ThreadWork(val, pc[t], calls[t], n);
    }
    WorkBoundBy(val, pc, calls, n * CallLength(val));
    RepeatedIsProduct(|pc|, n * CallLength(val));
  }

  lemma MoveWorks(val: nat, pc: seq<Pc>, calls: seq<nat>, t: nat, p: Pc)
    requires |pc| == |calls| && t < |pc| && Rank(val, pc[t]) < Rank(val, p)
    ensures Work(val, pc[t := p], calls) > Work(val, pc, calls)
  {
    WorkUpdate(val, pc, calls, t, p, calls[t]);
    assert calls[t := calls[t]] == calls;
  }

  lemma ReturnWorks(val: nat, pc: seq<Pc>, calls: seq<nat>, t: nat)
    requires |pc| == |calls| && t < |pc|
    ensures Work(val, pc[t := Outside], calls[t := calls[t] + 1]) > Work(val, pc, calls)
  {
    WorkUpdate(val, pc, calls, t, Outside, calls[t] + 1);
    assert (calls[t] + 1) * CallLength(val) == calls[t] * CallLength(val) + CallLength(val);
    assert Rank(val, pc[t]) < CallLength(val);
  }

  lemma ResumeWorks(b: State, r: Release)
    requires |b.pc| == |b.calls|
    ensures |Resume(b, r).pc| == |Resume(b, r).calls|
    ensures Work(b.val, Resume(b, r).pc, Resume(b, r).calls) >= Work(b.val, b.pc, b.calls)
  {
    if r.Waiter? && r.task < |b.pc| {
      match b.pc[r.task]
      case MutexQueue1 => MoveWorks(b.val, b.pc, b.calls, r.task, Arriving);
      case GateQueue1 => MoveWorks(b.val, b.pc, b.calls, r.task, Passed1);
      case MutexQueue2 => MoveWorks(b.val, b.pc, b.calls, r.task, Departing);
      case GateQueue2 => ReturnWorks(b.val, b.pc, b.calls, r.task);
      case _ =>
    }
  }

  /** A step that moves its thread on, and then perhaps a waiter. */
  lemma PostWorks(b: State, b1: State, t: nat, p: Pc, r: Release)
    requires |b.pc| == |b.calls| && t < |b.pc| && Rank(b.val, b.pc[t]) < Rank(b.val, p)
    requires b1.pc == b.pc[t := p] && b1.calls == b.calls && b1.val == b.val
    ensures |Resume(b1, r).pc| == |Resume(b1, r).calls|
    ensures Work(b.val, Resume(b1, r).pc, Resume(b1, r).calls) > Work(b.val, b.pc, b.calls)
  {
    MoveWorks(b.val, b.pc, b.calls, t, p);
    ResumeWorks(b1, r);
  }

  lemma OpeningWorks(b: State, t: nat)
    requires Posting(b) && CanStep(b, t) && (b.pc[t].Opening1? || b.pc[t].Opening2?)
    ensures |Step(b, t).pc| == |Step(b, t).calls|
    ensures Work(b.val, Step(b, t).pc, Step(b, t).calls) > Work(b.val, b.pc, b.calls)
  {
    var i := b.pc[t].posted;
    assert i < b.val;
    if b.pc[t].Opening1? {
      PostWorks(b, Opened1(b, t), t, Opened1(b, t).pc[t], Post(b.turnstile1).release);
      assert Step(b, t) == Resume(Opened1(b, t), Post(b.turnstile1).release);
    } else {
      PostWorks(b, Opened2(b, t), t, Opened2(b, t).pc[t], Post(b.turnstile2).release);
      assert Step(b, t) == Resume(Opened2(b, t), Post(b.turnstile2).release);
    }
  }

  lemma LeavingWorks(b: State, t: nat)
    requires CanStep(b, t) && (b.pc[t].Leaving1? || b.pc[t].Leaving2?)
    ensures |Step(b, t).pc| == |Step(b, t).calls|
    ensures Work(b.val, Step(b, t).pc, Step(b, t).calls) > Work(b.val, b.pc, b.calls)
  {
    var p := if b.pc[t].Leaving1? then AtGate1 else AtGate2;
    PostWorks(b, SetPc(b.(mutex := Post(b.mutex).sem), t, p), t, p, Post(b.mutex).release);
  }

  /** Every step is progress. */
  lemma StepWorks(b: State, t: nat)
    requires Posting(b) && CanStep(b, t)
    ensures |Step(b, t).pc| == |Step(b, t).calls|
    ensures Work(b.val, Step(b, t).pc, Step(b, t).calls) > Work(b.val, b.pc, b.calls)
  {
    var p := b.pc[t];
    if p.Opening1? || p.Opening2? {
      OpeningWorks(b, t);
    } else if p.Leaving1? || p.Leaving2? {
      LeavingWorks(b, t);
    } else if p.AtGate2? && !Wait(b.turnstile2, t, b.cap).blocks {
      ReturnWorks(b.val, b.pc, b.calls, t);
    } else {
      MoveWorks(b.val, b.pc, b.calls, t, Step(b, t).pc[t]);
    }
  }

  lemma StepVal(b: State, t: nat)
    requires CanStep(b, t)
    ensures Step(b, t).val == b.val
  {
  }

  lemma ConsistentWorks(b: State, t: nat)
    requires Consistent(b) && CanStep(b, t)
    ensures var r := Step(b, t);
            && Consistent(r) && r.val == b.val && |r.pc| == |r.calls|
            && Work(b.val, r.pc, r.calls) > Work(b.val, b.pc, b.calls)
  {
    ConsistentSizes(b);
    StepConsistent(b, t);
    StepVal(b, t);
    StepWorks(b, t);
  }

  lemma {:induction false} RunWorks(b: State, ts: seq<nat>)
    requires Consistent(b) && IsSchedule(b, ts) && |b.pc| == |b.calls|
    ensures var r := Run(b, ts);
            && r.val == b.val && |r.pc| == |r.calls| && Work(b.val, r.pc, r.calls) >= Work(b.val, b.pc, b.calls) + |ts|
    decreases |ts|
  {
    if ts != [] {
      ConsistentWorks(b, ts[0]);
      RunWorks(Step(b, ts[0]), ts[1..]);
    }
  }

  /**
   Every schedule, fair or not, drives all threads through the barrier: after n steps each thread
   has completed c calls, for every c with n > val * (c + 2) * (12 + 2 * val).
   */
  lemma EveryScheduleProgresses(b: State, ts: seq<nat>, t: nat, c: nat)
    requires Consistent(b) && IsSchedule(b, ts) && t < |b.calls| == |b.pc|
    ensures |ts| > b.val * ((c + 2) * CallLength(b.val)) ==> t < |Run(b, ts).calls| && Run(b, ts).calls[t] > c
  {
    var r := Run(b, ts);
    RunWorks(b, ts);
    RunConsistent(b, ts);
    var g :| Inv(r, g);
    if forall u :: 0 <= u < |r.calls| ==> r.calls[u] <= c + 1 {
      WorkBound(b.val, r.pc, r.calls, c + 2);
    } else {
      var u :| 0 <= u < |r.calls| && r.calls[u] > c + 1;
      PhaseOf(r, g, u);
      PhaseOf(r, g, t);
    }
  }
}
