/** The pool's three critical sections (llm/pool.go), as functions of the state
    the mutex guards. They are generic in the waiters: the class below instantiates
    them with waiter objects, the protocol in PoolProtocol with arrival numbers. */
module PoolCore {
  import opened Wrappers

  datatype Shared<W(==)> = Shared(capacity: nat, inflight: int, queue: seq<W>, done: set<W>)

  /** How many waiters at the head of the queue are already marked done. */
  function LeadingDone<W(==)>(queue: seq<W>, done: set<W>): (n: nat)
    ensures n <= |queue|
    ensures forall i :: 0 <= i < n ==> queue[i] in done
    ensures n < |queue| ==> queue[n] !in done
  {
    if queue == [] || queue[0] !in done then 0 else 1 + LeadingDone(queue[1..], done)
  }

  /** The queue without the first occurrence of w. */
  function RemoveFirst<W(==)>(queue: seq<W>, w: W): (r: seq<W>)
    ensures w !in queue ==> r == queue
    ensures w in queue ==> |r| == |queue| - 1
  {
    if queue == [] then []
    else if queue[0] == w then queue[1..]
    else [queue[0]] + RemoveFirst(queue[1..], w)
  }

  lemma {:induction false} RemoveFirstAt<W>(queue: seq<W>, i: nat)
    requires i < |queue| && queue[i] !in queue[..i]
    ensures RemoveFirst(queue, queue[i]) == queue[..i] + queue[i + 1..]
  {
    if i > 0 {
      assert queue[1..][i - 1] == queue[i] && queue[1..][..i - 1] == queue[..i][1..];
      RemoveFirstAt(queue[1..], i - 1);
      assert queue[0] in queue[..i];
    }
  }

  /** release(): hand the slot to the oldest live waiter, or give it back. */
  function Release<W(==)>(s: Shared<W>): (Shared<W>, Option<W>) {
    var n := LeadingDone(s.queue, s.done);
    if n < |s.queue| then
      (s.(queue := s.queue[n + 1..], done := s.done + {s.queue[n]}), Some(s.queue[n]))
    else
      (s.(queue := [], inflight := s.inflight - 1), None)
  }

  /** abandon(w): true when w already owns a handed-off slot and must pass it on. */
  function Abandon<W(==)>(s: Shared<W>, w: W): (Shared<W>, bool) {
    if w in s.done then (s, true)
    else (s.(queue := RemoveFirst(s.queue, w), done := s.done + {w}), false)
  }

  /** The locked part of Acquire for a caller that would park as w. */
  function Arrive<W(==)>(s: Shared<W>, w: W): (Shared<W>, bool) {
    if s.inflight < s.capacity then (s.(inflight := s.inflight + 1), true)
    else (s.(queue := s.queue + [w]), false)
  }

  class Waiter {
    var done: bool

    constructor ()
      ensures !done
    { done := false; }
  }

  class Pool {
    const capacity: nat
    var inflight: int
    var queue: seq<Waiter>
    ghost var waiters: set<Waiter>  // every waiter this pool ever parked

    ghost predicate Valid()
      reads this
    {
      capacity >= 1 && forall w :: w in queue ==> w in waiters
    }

    ghost function Abs(): Shared<Waiter>
      reads this, waiters
    {
      Shared(capacity, inflight, queue, set w | w in waiters && w.done)
    }

    /** A size below one clamps to one. */
    constructor (size: int)
      ensures Valid() && fresh(waiters)
      ensures Abs() == Shared(if size < 1 then 1 else size, 0, [], {})
    {
      capacity := if size < 1 then 1 else size;
      inflight, queue, waiters := 0, [], {};
    }

    /** Acquire's critical section: null when a slot was free, else the parked waiter. */
    method ArriveLocked() returns (w: Waiter?)
      requires Valid()
      modifies this
      ensures Valid()
      ensures w == null <==> old(inflight) < capacity
      ensures w == null ==> waiters == old(waiters) && Abs() == old(Abs()).(inflight := old(inflight) + 1)
      ensures w != null ==> fresh(w) && waiters == old(waiters) + {w} && Abs() == Arrive(old(Abs()), w).0
    {
      if inflight < capacity {
        inflight := inflight + 1;
        return null;
      }
      w := new Waiter();
      queue := queue + [w];
      waiters := waiters + {w};
    }

    /** abandon's critical section. */
    method AbandonLocked(w: Waiter) returns (passOn: bool)
      requires Valid() && w in waiters
      modifies this`queue, w
      ensures Valid() && waiters == old(waiters)
      ensures (Abs(), passOn) == Abandon(old(Abs()), w)
    {
      if w.done {
        return true;
      }
      w.done := true;
      var i := 0;
      while i < |queue|
        invariant 0 <= i <= |queue| && queue == old(queue)
        invariant w !in queue[..i]
      {
        if queue[i] == w {
          RemoveFirstAt(queue, i);
          queue := queue[..i] + queue[i + 1..];
          break;
        }
        i := i + 1;
      }
      assert Abs().done == old(Abs()).done + {w};
      return false;
    }

    /** release's critical section: the waiter to signal, or null when inflight dropped. */
    method ReleaseLocked() returns (w: Waiter?)
      requires Valid()
      modifies this`queue, this`inflight, waiters
      ensures Valid() && waiters == old(waiters)
      ensures Abs() == Release(old(Abs())).0
      ensures w == (match Release(old(Abs())).1 case None => null case Some(x) => x)
    {
      ghost var was := Abs();
      ghost var n := 0;
      while |queue| > 0
        invariant n <= |was.queue| && queue == was.queue[n..] && Valid() && waiters == old(waiters)
        invariant Abs() == was.(queue := queue)
        invariant forall i :: 0 <= i < n ==> was.queue[i] in was.done
        decreases |queue|
      {
        var x := queue[0];
        queue := queue[1..];
        n := n + 1;
        if x.done {
          continue;
        }
        x.done := true;
        assert LeadingDone(was.queue, was.done) == n - 1;
        assert Abs().done == was.done + {x};
        return x;
      }
      inflight := inflight - 1;
      return null;
    }
  }
}
