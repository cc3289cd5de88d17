/** All semaphores and all mutexes of a program: separate objects, each call changing one of them. */
module Tables {
  import opened Sequences
  import opened Semaphores
  import opened RingBuffer
  import opened Objects
  import K = Kernel

  class SemTable {
    const cap: nat
    const sems: seq<Semaphore>
    const queues: seq<Queue<nat>>
    const stores: seq<array<nat>>
    ghost const Repr: set<object>

    ghost predicate Valid()
      reads Repr
    {
      && (forall i :: 0 <= i < |sems| ==> sems[i] in Repr)
      && (forall i :: 0 <= i < |queues| ==> queues[i] in Repr)
      && (forall i :: 0 <= i < |stores| ==> stores[i] in Repr)
      && |sems| == |queues| == |stores|
      && (forall i :: 0 <= i < |sems| ==> sems[i].wq == queues[i] && queues[i].storage == stores[i])
      && (forall i :: 0 <= i < |sems| ==> sems[i].Valid() && stores[i].Length == cap)
      && Distinct(sems) && Distinct(queues) && Distinct(stores)
    }

    ghost function View(): (r: seq<Sem>)
      reads Repr
      requires Valid()
      ensures |r| == |sems| && forall i :: 0 <= i < |r| ==> r[i] == sems[i].View()
    {
      seq(|sems|, i requires 0 <= i < |sems| && Valid() reads Repr => sems[i].View())
    }

    /** One semaphore for each value, which must be one that sem_init accepts. */
    constructor (cap: nat, values: seq<nat>)
      requires cap > 0 && forall i :: 0 <= i < |values| ==> values[i] <= cap
      ensures Valid() && this.cap == cap && |sems| == |values|
      ensures fresh(Repr)
      ensures forall i :: 0 <= i < |sems| ==> View()[i] == Sem(values[i], [])
    {
      var s: seq<Semaphore> := [];
      var q: seq<Queue<nat>> := [];
      var a: seq<array<nat>> := [];
      ghost var repr: set<object> := {};
      for k := 0 to |values|
        invariant |s| == |q| == |a| == k && Distinct(s) && Distinct(q) && Distinct(a)
        invariant fresh(repr) && forall i :: 0 <= i < k ==> s[i] in repr && q[i] in repr && a[i] in repr
        invariant forall i :: 0 <= i < k ==> s[i].wq == q[i] && q[i].storage == a[i]
        invariant forall i :: 0 <= i < k ==>
                    s[i].Valid() && a[i].Length == cap && s[i].View() == Sem(values[i], [])
      {
        var x := new Semaphore(cap);
        var ok := x.Init(values[k]);
        s, q, a := s + [x], q + [x.wq], a + [x.wq.storage];
        repr := repr + {x, x.wq, x.wq.storage};
      }
      this.cap, sems, queues, stores := cap, s, q, a;
      Repr := repr;
    }

    method Init(s: nat, value: nat) returns (ok: bool)
      requires Valid() && s < |sems|
      modifies Repr
      ensures Valid() && ok == (value <= cap)
      ensures View() == if ok then old(View())[s := Sem(value, [])] else old(View())
    {
      ok := sems[s].Init(value);
    }

    method Down(s: nat, caller: nat) returns (blocks: bool)
      requires Valid() && s < |sems|
      modifies Repr
      ensures Valid()
      ensures var r := Wait(old(View())[s], caller, cap);
              View() == old(View())[s := r.sem] && blocks == r.blocks
    {
      blocks := sems[s].Down(caller);
    }

    method TryDown(s: nat) returns (ok: bool)
      requires Valid() && s < |sems|
      modifies Repr
      ensures Valid()
      ensures var r := TryWait(old(View())[s]);
              View() == old(View())[s := r.sem] && ok == r.ok
    {
      ok := sems[s].TryDown();
    }

    method Up(s: nat) returns (release: Release)
      requires Valid() && s < |sems|
      modifies Repr
      ensures Valid()
      ensures var r := Post(old(View())[s]);
              View() == old(View())[s := r.sem] && release == r.release
    {
      release := sems[s].Up();
    }

    method Waiting(s: nat) returns (n: nat)
      requires Valid() && s < |sems|
      ensures n == |View()[s].wq|
    {
      n := sems[s].wq.Count();
    }
  }

  class MtxTable {
    const cap: nat
    const mtxs: seq<Mutex>
    const queues: seq<Queue<nat>>
    const stores: seq<array<nat>>
    ghost const Repr: set<object>

    ghost predicate Valid()
      reads Repr
    {
      && (forall i :: 0 <= i < |mtxs| ==> mtxs[i] in Repr)
      && (forall i :: 0 <= i < |queues| ==> queues[i] in Repr)
      && (forall i :: 0 <= i < |stores| ==> stores[i] in Repr)
      && |mtxs| == |queues| == |stores|
      && (forall i :: 0 <= i < |mtxs| ==> mtxs[i].wq == queues[i] && queues[i].storage == stores[i])
      && (forall i :: 0 <= i < |mtxs| ==> mtxs[i].Valid() && stores[i].Length == cap)
      && Distinct(mtxs) && Distinct(queues) && Distinct(stores)
    }

    ghost function View(): (r: seq<K.Mutex>)
      reads Repr
      requires Valid()
      ensures |r| == |mtxs| && forall i :: 0 <= i < |r| ==> r[i] == mtxs[i].View()
    {
      seq(|mtxs|, i requires 0 <= i < |mtxs| && Valid() reads Repr => mtxs[i].View())
    }

    constructor (cap: nat, count: nat)
      requires cap > 0
      ensures Valid() && this.cap == cap && |mtxs| == count
      ensures fresh(Repr)
      ensures forall i :: 0 <= i < |mtxs| ==> View()[i] == K.Mutex(None, [])
    {
      var s: seq<Mutex> := [];
      var q: seq<Queue<nat>> := [];
      var a: seq<array<nat>> := [];
      ghost var repr: set<object> := {};
      for k := 0 to count
        invariant |s| == |q| == |a| == k && Distinct(s) && Distinct(q) && Distinct(a)
        invariant fresh(repr) && forall i :: 0 <= i < k ==> s[i] in repr && q[i] in repr && a[i] in repr
        invariant forall i :: 0 <= i < k ==> s[i].wq == q[i] && q[i].storage == a[i]
        invariant forall i :: 0 <= i < k ==>
                    s[i].Valid() && a[i].Length == cap && s[i].View() == K.Mutex(None, [])
      {
        var x := new Mutex(cap);
        s, q, a := s + [x], q + [x.wq], a + [x.wq.storage];
        repr := repr + {x, x.wq, x.wq.storage};
      }
      this.cap, mtxs, queues, stores := cap, s, q, a;
      Repr := repr;
    }

    method Holder(m: nat) returns (h: Option<nat>)
      requires Valid() && m < |mtxs|
      ensures h == View()[m].holder
    {
      h := mtxs[m].holder;
    }

    method Take(m: nat, t: nat)
      requires Valid() && m < |mtxs|
      modifies Repr
      ensures Valid() && View() == old(View())[m := old(View())[m].(holder := Some(t))]
    {
      mtxs[m].holder := Some(t);
    }

    /** The result of the push is ignored. */
    method Enqueue(m: nat, t: nat)
      requires Valid() && m < |mtxs|
      modifies Repr
      ensures Valid()
      ensures var x := old(View())[m];
              View() == old(View())[m := x.(wq := Semaphores.Enqueue(x.wq, t, cap))]
    {
      var _ := mtxs[m].wq.Push(t);
    }

    method PassOn(m: nat) returns (wakeup: Option<nat>)
      requires Valid() && m < |mtxs|
      modifies Repr
      ensures Valid()
      ensures var q := old(View())[m].wq;
              && wakeup == (if q == [] then None else Some(q[0]))
              && View() == old(View())[m := K.Mutex(wakeup, if q == [] then [] else q[1..])]
    {
      wakeup := mtxs[m].PassOn();
    }
  }
}
