/** The semaphore and mutex objects: a count or a holder, and a ring buffer of waiting tasks. */
module Objects {
  import opened Semaphores
  import opened RingBuffer
  import K = Kernel

  class Semaphore {
    var val: int
    const wq: Queue<nat>

    ghost predicate Valid()
      reads this, wq, wq.storage
    {
      wq.Valid()
    }

    ghost function View(): Sem
      reads this, wq, wq.storage
      requires Valid()
    {
      Sem(val, wq.Contents())
    }

    /** How many tasks the wait queue holds. */
    ghost function Cap(): nat { wq.storage.Length }

    constructor (cap: nat)
      requires cap > 0
      ensures Valid() && fresh(wq) && fresh(wq.storage) && Cap() == cap && View() == Sem(0, [])
    {
      wq := new Queue<nat>(cap, 0);
      val := 0;
    }

    /** sem_init */
    method Init(value: nat) returns (ok: bool)
      requires Valid()
      modifies this, wq, wq.storage
      ensures Valid() && ok == (value <= Cap())
      ensures (if ok then Some(View()) else None) == Semaphores.Init(value, Cap())
      ensures !ok ==> View() == old(View())
    {
      if value > wq.storage.Length {
        return false;
      }
      val := value;
      wq.Init(0);
      return true;
    }

    /** The part of sem_wait before the caller is blocked. The result of the push is ignored. */
    method Down(caller: nat) returns (blocks: bool)
      requires Valid()
      modifies this, wq, wq.storage
      ensures Valid() && Waited(View(), blocks) == Wait(old(View()), caller, Cap())
    {
      val := Wrap16(val - 1);
      blocks := val < 0;
      if blocks {
        var _ := wq.Push(caller);
      }
    }

    /** sem_trywait */
    method TryDown() returns (ok: bool)
      requires Valid()
      modifies this`val
      ensures Valid() && Tried(View(), ok) == TryWait(old(View()))
    {
      ok := val > 0;
      if ok {
        val := val - 1;
      }
    }

    /** The part of sem_post before a waiter is unblocked. */
    method Up() returns (release: Release)
      requires Valid()
      modifies this, wq
      ensures Valid() && Posted(View(), release) == Post(old(View()))
    {
      val := Wrap16(val + 1);
      release := Nobody;
      if val <= 0 {
        var ok, wakeup := wq.Pop();
        release := if ok then Waiter(wakeup) else Garbage;
      }
    }
  }

  class Mutex {
    var holder: Option<nat>
    const wq: Queue<nat>

    ghost predicate Valid()
      reads this, wq, wq.storage
    {
      wq.Valid()
    }

    ghost function View(): K.Mutex
      reads this, wq, wq.storage
      requires Valid()
    {
      K.Mutex(holder, wq.Contents())
    }

    ghost function Cap(): nat { wq.storage.Length }

    constructor (cap: nat)
      requires cap > 0
      ensures Valid() && fresh(wq) && fresh(wq.storage) && Cap() == cap && View() == K.Mutex(None, [])
    {
      wq := new Queue<nat>(cap, 0);
      holder := None;
    }

    /** The last part of mtx_unlock: ownership goes to the longest waiter, if there is one. */
    method PassOn() returns (wakeup: Option<nat>)
      requires Valid()
      modifies this, wq
      ensures Valid()
      ensures var q := old(wq.Contents());
              && wakeup == (if q == [] then None else Some(q[0]))
              && View() == K.Mutex(wakeup, if q == [] then [] else q[1..])
    {
      var count := wq.Count();
      if count > 0 {
        var _, w := wq.Pop();
        wakeup := Some(w);
      } else {
        wakeup := None;
      }
      holder := wakeup;
    }
  }
}
