/** The FIFO queue of queue.h: a ring buffer over a fixed array. */
module RingBuffer {

  /** What a foreach callback does with one element: whether it stops the walk, and what it leaves behind. */
  datatype Outcome<T, C> = Outcome(stop: bool, item: T, ctx: C)

  /** A callback walked over a sequence until it stops: the sequence and the context it leaves. */
  function Visit<T, C>(s: seq<T>, fun: (T, C) -> Outcome<T, C>, ctx: C): (r: (seq<T>, C))
    ensures |r.0| == |s|
  {
    if s == [] then ([], ctx) else
    var o := fun(s[0], ctx);
    if o.stop then ([o.item] + s[1..], o.ctx) else
    var r := Visit(s[1..], fun, o.ctx);
    ([o.item] + r.0, r.1)
  }

  /** A callback that never rewrites its element leaves the queue as it was, wherever it stops. */
  lemma {:induction false} VisitReadOnly<T(!new), C(!new)>(s: seq<T>, fun: (T, C) -> Outcome<T, C>, ctx: C)
    requires forall x, c :: fun(x, c).item == x
    ensures Visit(s, fun, ctx).0 == s
    decreases |s|
  {
    if s != [] {
      VisitReadOnly(s[1..], fun, fun(s[0], ctx).ctx);
    }
  }

  /** What a callback has noted that notes every element it sees and stops at some. */
  function Noted<T(!new)>(s: seq<T>, stop: T -> bool, seen: seq<T>): seq<T> {
    Visit(s, (x: T, c: seq<T>) => Outcome(stop(x), x, c + [x]), seen).1
  }

  /** It has seen every element once, from the oldest on, up to and with the first at which it stops. */
  lemma {:induction false} VisitOrder<T(!new)>(s: seq<T>, stop: T -> bool, seen: seq<T>) returns (j: nat)
    ensures j <= |s| && Noted(s, stop, seen) == seen + s[..j]
    ensures forall i :: 0 <= i < j - 1 ==> !stop(s[i])
    ensures j < |s| ==> j > 0 && stop(s[j - 1])
    decreases |s|
  {
    if s == [] {
      j := 0;
      assert seen + [] == seen;
    } else if stop(s[0]) {
      j := 1;
      assert s[..1] == [s[0]];
    } else {
      var i := VisitOrder(s[1..], stop, seen + [s[0]]);
      j := i + 1;
      assert s[..j] == [s[0]] + s[1..][..i];
      assert (seen + [s[0]]) + s[1..][..i] == seen + s[..j];
    }
  }

  /** cur after the first i elements have been visited, and the rest still to be. */
  ghost function Progress<T, C>(cur: seq<T>, s: seq<T>, i: nat, fun: (T, C) -> Outcome<T, C>, ctx: C): (seq<T>, C)
    requires i <= |cur| && i <= |s|
  {
    var r := Visit(s[i..], fun, ctx);
    (cur[..i] + r.0, r.1)
  }

  lemma ProgressStep<T, C>(cur: seq<T>, s: seq<T>, i: nat, fun: (T, C) -> Outcome<T, C>, ctx: C)
    requires i < |s| == |cur| && cur[i..] == s[i..]
    ensures var o := fun(s[i], ctx);
            var next := cur[i := o.item];
            Progress(cur, s, i, fun, ctx) == if o.stop then (next, o.ctx) else Progress(next, s, i + 1, fun, o.ctx)
  {
    var o := fun(s[i], ctx);
    var next := cur[i := o.item];
    assert s[i..][0] == s[i] && s[i..][1..] == s[i + 1..];
    if o.stop {
      assert next[i + 1..] == cur[i..][1..] == s[i + 1..];
      assert next == cur[..i] + ([o.item] + s[i + 1..]);
    } else {
      var rest := Visit(s[i + 1..], fun, o.ctx).0;
      assert cur[..i] + ([o.item] + rest) == next[..i + 1] + rest;
    }
  }

  lemma Wrap(x: nat, n: nat)
    requires 0 < n && x < 2 * n
    ensures x % n == if x < n then x else x - n
  {
    if x >= n {
      assert x == 1 * n + (x - n);
      assert x / n == 1;
    }
  }

  class Queue<T(0)> {
    const storage: array<T>
    var read: nat
    var write: nat
    var count: nat

    ghost predicate Valid()
      reads this, storage
    {
      && read < storage.Length && write < storage.Length && count <= storage.Length
      && write == Slot(count)
    }

    /** The slot i places behind the read head, counting round the end of the array. */
    ghost function Slot(i: nat): (r: nat)
      reads this
      requires read < storage.Length && i <= storage.Length
      ensures r < storage.Length
    {
      if read + i < storage.Length then read + i else read + i - storage.Length
    }

    /** The queued items, oldest first. */
    ghost function Contents(): (s: seq<T>)
      reads this, storage
      requires Valid()
      ensures |s| == count
    {
      seq(count, i requires 0 <= i < count && Valid() reads this, storage => storage[Slot(i + 1)])
    }

    constructor (size: nat, zero: T)
      requires size > 0
      ensures Valid() && fresh(storage) && storage.Length == size && Contents() == []
    {
      storage := new T[size](_ => zero);
      read, write, count := 0, 0, 0;
    }

    method Init(zero: T)
      requires Valid()
      modifies this`read, this`write, this`count, storage
      ensures Valid() && Contents() == []
    {
      read, write, count := 0, 0, 0;
      forall i | 0 <= i < storage.Length {
        storage[i] := zero;
      }
    }

    method Push(item: T) returns (ok: bool)
      requires Valid()
      modifies this`write, this`count, storage
      ensures Valid()
      ensures ok == (|old(Contents())| < storage.Length)
      ensures Contents() == if ok then old(Contents()) + [item] else old(Contents())
    {
      if count < storage.Length {
        var next := (write + 1) % storage.Length;
        Wrap(write + 1, storage.Length);
        storage[next] := item;
        write := next;
        count := count + 1;
        return true;
      } else {
        return false;
      }
    }

    method Pop() returns (ok: bool, item: T)
      requires Valid()
      modifies this`read, this`count
      ensures Valid()
      ensures ok == (old(Contents()) != [])
      ensures ok ==> item == old(Contents())[0] && Contents() == old(Contents())[1..]
      ensures !ok ==> Contents() == []
    {
      if count > 0 {
        var next := (read + 1) % storage.Length;
        Wrap(read + 1, storage.Length);
        item := storage[next];
        read := next;
        count := count - 1;
        return true, item;
      } else {
        return false, storage[0];
      }
    }

    method Count() returns (n: nat)
      requires Valid()
      ensures n == |Contents()|
    {
      return count;
    }

    /** One call of the callback, on the i-th queued item. */
    method VisitAt<C>(i: nat, fun: (T, C) -> Outcome<T, C>, ctx: C) returns (stop: bool, last: C)
      requires Valid() && i < count
      modifies storage
      ensures Valid()
      ensures var o := fun(old(Contents())[i], ctx);
              Contents() == old(Contents())[i := o.item] && stop == o.stop && last == o.ctx
    {
      var k := (read + i + 1) % storage.Length;
      Wrap(read + i + 1, storage.Length);
      assert k == Slot(i + 1);
      var o := fun(storage[k], ctx);
      storage[k] := o.item;
      return o.stop, o.ctx;
    }

    method Foreach<C>(fun: (T, C) -> Outcome<T, C>, ctx: C) returns (last: C)
      requires Valid()
      modifies storage
      ensures Valid()
      ensures (Contents(), last) == Visit(old(Contents()), fun, ctx)
    {
      last := ctx;
      ghost var s := Contents();
      var i := 0;
      assert s[0..] == s && s[..0] + Visit(s, fun, ctx).0 == Visit(s, fun, ctx).0;
      while i < count
        invariant 0 <= i <= count && Valid() && |s| == count
        invariant Contents()[i..] == s[i..]
        invariant Progress(Contents(), s, i, fun, last) == Visit(s, fun, ctx)
      {
        ghost var cur := Contents();
        assert cur[i] == cur[i..][0] == s[i];
        ProgressStep(cur, s, i, fun, last);
        var stop;
        stop, last := VisitAt(i, fun, last);
        if stop {
          return;
        }
        assert Contents()[i + 1..] == s[i..][1..] == s[i + 1..];
        i := i + 1;
      }
      assert Contents()[..i] + [] == Contents();
    }
  }
}
