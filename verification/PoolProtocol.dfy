/** Every interleaving of Acquire, hand-off, timeout, cancellation and release on
    one pool. A call is named by its arrival number: the order in which the calls
    entered Acquire's critical section. */
module PoolProtocol {
  import opened Wrappers
  import opened PoolCore

  /** Where one Acquire call, and the release that follows it, has got to. */
  datatype Pc =
    | Parked              // waiting in select
    | GivingUp            // select chose cancel or timeout; abandon not yet entered
    | PassingOn           // abandon found the slot already handed over; about to release it
    | Holding             // owns a slot; its release func was not called yet
    | Releasing           // inside once.Do, before release's critical section
    | Sending(to: nat)    // marked waiter `to`; its channel send is still to come
    | Finished

  datatype Call = Call(pc: Pc, token: bool)  // token: the waiter's one-place channel is full

  datatype Event = Granted(call: nat) | GaveUp(call: nat)

  datatype State = State(pool: Shared<nat>, calls: seq<Call>, log: seq<Event>)

  datatype Step =
    | Arrive
    | GiveUp(k: nat)
    | Abandon(k: nat)
    | Receive(k: nat)
    | CallRelease(k: nat)
    | ReleaseLock(k: nat)
    | Send(k: nat)

  predicate Enabled(s: State, step: Step) {
    step.Arrive? ||
    (step.k < |s.calls| &&
     var c := s.calls[step.k];
     match step
     case GiveUp(_) => c.pc == Parked
     case Abandon(_) => c.pc == GivingUp
     case Receive(_) => c.pc == Parked && c.token
     case CallRelease(_) => c.pc == Holding || c.pc == Releasing || c.pc.Sending? || c.pc == Finished
     case ReleaseLock(_) => c.pc == Releasing || c.pc == PassingOn
     case Send(_) => c.pc.Sending? && c.pc.to < |s.calls| && !s.calls[c.pc.to].token)
  }

  function SetPc(s: State, k: nat, pc: Pc): State
    requires k < |s.calls|
  {
    s.(calls := s.calls[k := s.calls[k].(pc := pc)])
  }

  function Next(s: State, step: Step): State
    requires Enabled(s, step)
  {
    match step
    case Arrive =>
      var n := |s.calls|;
      var (pool, granted) := PoolCore.Arrive(s.pool, n);
      if granted then State(pool, s.calls + [Call(Holding, false)], s.log + [Granted(n)])
      else State(pool, s.calls + [Call(Parked, false)], s.log)
    case GiveUp(k) => SetPc(s, k, GivingUp)
    case Abandon(k) =>
      var (pool, passOn) := PoolCore.Abandon(s.pool, k);
      if passOn then SetPc(s, k, PassingOn)
      else SetPc(s, k, Finished).(pool := pool, log := s.log + [GaveUp(k)])
    case Receive(k) => s.(calls := s.calls[k := Call(Holding, false)])
    case CallRelease(k) =>
      // sync.Once: only the first call of a holder's release func does anything
      if s.calls[k].pc == Holding then SetPc(s, k, Releasing) else s
    case ReleaseLock(k) =>
      var (pool, to) := Release(s.pool);
      if to.Some? then SetPc(s, k, Sending(to.value)).(pool := pool, log := s.log + [Granted(to.value)])
      else SetPc(s, k, Finished).(pool := pool)
    case Send(k) =>
      var to := s.calls[k].pc.to;
      var t := s.(calls := s.calls[to := s.calls[to].(token := true)]);
      SetPc(t, k, Finished)
  }

  function Init(capacity: nat): State {
    State(Shared(capacity, 0, [], {}), [], [])
  }

  ghost predicate Legal(s: State, steps: seq<Step>)
    decreases |steps|
  {
    steps == [] || (Enabled(s, steps[0]) && Legal(Next(s, steps[0]), steps[1..]))
  }

  ghost function Exec(s: State, steps: seq<Step>): State
    requires Legal(s, steps)
    decreases |steps|
  {
    if steps == [] then s else Exec(Next(s, steps[0]), steps[1..])
  }

  // ---- The invariant ----------------------------------------------------------

  predicate Waits(c: Call) { c.pc == Parked || c.pc == GivingUp }

  /** Call k accounts for one slot: it holds it, is giving it back, or was handed it. */
  predicate Owns(s: State, k: nat)
    requires k < |s.calls|
  {
    var c := s.calls[k];
    c.pc == Holding || c.pc == Releasing || c.pc == PassingOn || (Waits(c) && k in s.pool.done)
  }

  ghost function Owners(s: State): set<nat> {
    set k: nat | k < |s.calls| && Owns(s, k)
  }

  ghost predicate Conserved(s: State) {
    && s.pool.capacity >= 1
    && s.pool.inflight == |Owners(s)|
    && s.pool.inflight <= s.pool.capacity
    && (s.pool.queue != [] ==> s.pool.inflight == s.pool.capacity)
  }

  /** The queue is the undecided waiters, in arrival order. */
  ghost predicate QueueOrdered(s: State) {
    && Ascending(s.pool.queue)
    && (forall k: nat :: k in s.pool.queue <==> k < |s.calls| && Waits(s.calls[k]) && k !in s.pool.done)
  }

  /** Whoever has a token, or one on the way, is marked done. */
  ghost predicate Marked(s: State) {
    && (forall k :: k in s.pool.done ==> k < |s.calls|)
    && (forall k: nat :: k < |s.calls| && s.calls[k].token ==> k in s.pool.done)
    && (forall k: nat :: k < |s.calls| && s.calls[k].pc.Sending? ==> s.calls[k].pc.to in s.pool.done)
  }

  ghost predicate Ordered(s: State) {
    QueueOrdered(s) && Marked(s)
  }

  /** A hand-off is a mark, then one send: the token is there or on its way, never twice. */
  ghost predicate HandedOver(s: State) {
    RoomToSend(s) && OneSender(s) && AllComing(s)
  }

  ghost predicate RoomToSend(s: State) {
    forall j: nat :: j < |s.calls| && s.calls[j].pc.Sending? ==>
      s.calls[j].pc.to < |s.calls| && !s.calls[s.calls[j].pc.to].token
  }

  ghost predicate OneSender(s: State) {
    forall i: nat, j: nat :: i < |s.calls| && j < |s.calls| && s.calls[i].pc.Sending? && s.calls[i].pc == s.calls[j].pc ==> i == j
  }

  ghost predicate AllComing(s: State) {
    forall k: nat :: Expects(s, k) ==> Coming(s, k)
  }

  /** k was handed a slot and has no token yet. */
  ghost predicate Expects(s: State, k: nat) {
    k < |s.calls| && Waits(s.calls[k]) && k in s.pool.done && !s.calls[k].token
  }

  ghost predicate Coming(s: State, k: nat) {
    exists j: nat :: j < |s.calls| && s.calls[j].pc == Sending(k)
  }

  predicate Decided(log: seq<Event>, k: nat) { Granted(k) in log || GaveUp(k) in log }

  /** Each arrival is decided once, and only after every earlier arrival was. */
  ghost predicate Fair(s: State) {
    && (forall k: nat :: k < |s.calls| && k !in s.pool.queue ==> Decided(s.log, k))
    && (forall e :: e in s.log ==> e.call < |s.calls| && e.call !in s.pool.queue)
    && (forall i, j :: 0 <= i < j < |s.log| ==> s.log[i].call != s.log[j].call)
    && FifoLog(s.log)
  }

  /** Whenever arrival k is granted, every earlier arrival was already granted or gave up. */
  ghost predicate FifoLog(log: seq<Event>) {
    forall i: nat, k: nat :: i < |log| && log[i].Granted? && k < log[i].call ==> Decided(log[..i], k)
  }

  ghost predicate Inv(s: State) {
    Conserved(s) && Ordered(s) && HandedOver(s) && Fair(s)
  }

  lemma ReleaseTakesHead(s: State)
    requires Ordered(s)
    ensures LeadingDone(s.pool.queue, s.pool.done) == 0
  {
    if s.pool.queue != [] {
      assert s.pool.queue[0] in s.pool.queue;
    }
  }

  lemma NextConserved(s: State, step: Step)
    requires Conserved(s) && Ordered(s) && Enabled(s, step)
    ensures Conserved(Next(s, step))
  {
    match step {
      case Arrive => ArriveConserved(s);
      case ReleaseLock(k) => ReleaseConserved(s, k);
      case Abandon(k) => AbandonConserved(s, k);
      case _ => QuietOwners(s, step);
    }
  }

  lemma ArriveConserved(s: State)
    requires Conserved(s) && Ordered(s)
    ensures Conserved(Next(s, Arrive))
  {
    var t, n := Next(s, Arrive), |s.calls|;
    assert n !in s.pool.done && t.pool.done == s.pool.done;
    assert forall k: nat :: k < n ==> t.calls[k] == s.calls[k];
    if s.pool.inflight < s.pool.capacity {
      assert Owners(t) == Owners(s) + {n};
    } else {
      assert Owners(t) == Owners(s);
    }
  }

  lemma AbandonConserved(s: State, k: nat)
    requires Conserved(s) && Ordered(s) && Enabled(s, Abandon(k))
    ensures Conserved(Next(s, Abandon(k)))
  {
    var t := Next(s, Abandon(k));
    assert forall i: nat :: i < |s.calls| ==> Owns(t, i) == Owns(s, i);
    assert Owners(t) == Owners(s);
  }

  lemma QuietOwners(s: State, step: Step)
    requires Ordered(s) && Enabled(s, step)
    requires !step.Arrive? && !step.ReleaseLock? && !step.Abandon?
    ensures Owners(Next(s, step)) == Owners(s) && Next(s, step).pool == s.pool
  {
    var t := Next(s, step);
    forall i: nat | i < |s.calls| ensures Owns(t, i) == Owns(s, i) {}
  }

  lemma ReleaseConserved(s: State, k: nat)
    requires Conserved(s) && Ordered(s) && Enabled(s, ReleaseLock(k))
    ensures Conserved(Next(s, ReleaseLock(k)))
  {
    var t := Next(s, ReleaseLock(k));
    ReleaseTakesHead(s);
    assert k in Owners(s) && !Owns(t, k);
    if s.pool.queue == [] {
      assert Owners(t) == Owners(s) - {k};
    } else {
      var w := s.pool.queue[0];
      assert w in s.pool.queue;
      ReleaseHandsOver(s, k, w);
    }
  }

  lemma ReleaseHandsOver(s: State, k: nat, w: nat)
    requires Ordered(s) && Enabled(s, ReleaseLock(k)) && s.pool.queue != [] && w == s.pool.queue[0]
    ensures k in Owners(s) && w !in Owners(s) && w != k
    ensures Owners(Next(s, ReleaseLock(k))) == (Owners(s) - {k}) + {w}
  {
    var t := Next(s, ReleaseLock(k));
    ReleaseTakesHead(s);
    assert w in s.pool.queue;
    forall i: nat | i < |s.calls| && i != k && i != w ensures Owns(t, i) == Owns(s, i) {}
    assert !Owns(t, k) && Owns(t, w);
  }

  lemma NextOrdered(s: State, step: Step)
    requires Conserved(s) && Ordered(s) && Enabled(s, step)
    ensures Ordered(Next(s, step))
  {
    match step {
      case Arrive => ArriveOrdered(s);
      case Abandon(k) => AbandonOrdered(s, k);
      case ReleaseLock(k) => ReleaseOrdered(s, k);
      case Send(k) =>
      case GiveUp(k) =>
      case Receive(k) =>
      case CallRelease(k) =>
    }
  }

  lemma ArriveOrdered(s: State)
    requires Ordered(s)
    ensures Ordered(Next(s, Arrive))
  {
    assert Marked(Next(s, Arrive));
    ArriveQueueOrdered(s);
  }

  lemma ArriveQueueOrdered(s: State)
    requires Ordered(s)
    ensures QueueOrdered(Next(s, Arrive))
  {
    var q, n := s.pool.queue, |s.calls|;
    assert forall i :: 0 <= i < |q| ==> q[i] in q;
    assert forall k :: k in q + [n] <==> k in q || k == n;
    assert n !in s.pool.done;
  }

  lemma ReleaseOrdered(s: State, k: nat)
    requires Ordered(s) && Enabled(s, ReleaseLock(k))
    ensures Ordered(Next(s, ReleaseLock(k)))
  {
    ReleaseTakesHead(s);
    ReleaseQueueOrdered(s, k);
    assert s.pool.queue != [] ==> s.pool.queue[0] in s.pool.queue;
  }

  lemma ReleaseQueueOrdered(s: State, k: nat)
    requires Ordered(s) && Enabled(s, ReleaseLock(k)) && LeadingDone(s.pool.queue, s.pool.done) == 0
    ensures QueueOrdered(Next(s, ReleaseLock(k)))
  {
    var t, q := Next(s, ReleaseLock(k)), s.pool.queue;
    if q == [] {
      assert t.pool == s.pool.(inflight := s.pool.inflight - 1);
      forall i: nat ensures i in t.pool.queue <==> i < |t.calls| && Waits(t.calls[i]) && i !in t.pool.done {
        assert i < |s.calls| && i != k ==> t.calls[i] == s.calls[i];
      }
    } else {
      HeadOrdered(q);
      assert t.pool == s.pool.(queue := q[1..], done := s.pool.done + {q[0]});
      forall i: nat ensures i in t.pool.queue <==> i < |t.calls| && Waits(t.calls[i]) && i !in t.pool.done {
        assert i in q[1..] <==> i in q && i != q[0];
        assert i < |s.calls| && i != k ==> t.calls[i] == s.calls[i];
      }
    }
  }

  ghost predicate Ascending(q: seq<nat>) {
    forall i, j :: 0 <= i < j < |q| ==> q[i] < q[j]
  }

  lemma HeadOrdered(q: seq<nat>)
    requires q != [] && Ascending(q)
    ensures Ascending(q[1..])
    ensures forall x :: x in q[1..] <==> x in q && x != q[0]
    ensures forall x :: x in q[1..] ==> q[0] < x
  {}

  lemma {:induction false} RemoveOrdered(q: seq<nat>, k: nat)
    requires Ascending(q) && k in q
    ensures Ascending(RemoveFirst(q, k))
    ensures forall x :: x in RemoveFirst(q, k) <==> x in q && x != k
  {
    HeadOrdered(q);
    if q[0] != k {
      RemoveOrdered(q[1..], k);
      PushOrdered(q[0], RemoveFirst(q[1..], k));
      assert RemoveFirst(q, k) == [q[0]] + RemoveFirst(q[1..], k);
    }
  }

  lemma PushOrdered(h: nat, r: seq<nat>)
    ensures forall x :: x in [h] + r <==> x == h || x in r
    ensures Ascending(r) && (forall x :: x in r ==> h < x) ==> Ascending([h] + r)
  {
    assert forall i :: 0 <= i < |r| ==> r[i] in r;
  }

  lemma AbandonOrdered(s: State, k: nat)
    requires Ordered(s) && Enabled(s, Abandon(k))
    ensures Ordered(Next(s, Abandon(k)))
  {
    if k in s.pool.queue { RemoveOrdered(s.pool.queue, k); }
  }

  lemma NextHandedOver(s: State, step: Step)
    requires Ordered(s) && HandedOver(s) && Enabled(s, step)
    ensures HandedOver(Next(s, step))
  {
    match step {
      case Arrive => ArriveHandedOver(s);
      case ReleaseLock(k) => ReleaseHandedOver(s, k);
      case Send(k) => SendHandedOver(s, k);
      case _ => QuietHandedOver(s, step);
    }
  }

  /** A send under way stays under way while its sender has not moved. */
  lemma StillComing(s: State, t: State, w: nat)
    requires Coming(s, w)
    requires forall j: nat :: j < |s.calls| && s.calls[j].pc == Sending(w) ==> j < |t.calls| && t.calls[j].pc == Sending(w)
    ensures Coming(t, w)
  {
    var j: nat :| j < |s.calls| && s.calls[j].pc == Sending(w);
    assert t.calls[j].pc == Sending(w);
  }

  lemma ArriveHandedOver(s: State)
    requires Ordered(s) && HandedOver(s)
    ensures HandedOver(Next(s, Arrive))
  {
    var t, n := Next(s, Arrive), |s.calls|;
    assert n !in s.pool.done && t.pool.done == s.pool.done;
    assert !t.calls[n].pc.Sending? && forall j: nat :: j < n ==> t.calls[j] == s.calls[j];
    forall w: nat | Expects(t, w) ensures Coming(t, w) {
      assert Expects(s, w);
      StillComing(s, t, w);
    }
  }

  lemma QuietHandedOver(s: State, step: Step)
    requires Ordered(s) && HandedOver(s) && Enabled(s, step)
    requires !step.Arrive? && !step.ReleaseLock? && !step.Send?
    ensures HandedOver(Next(s, step))
  {
    var t := Next(s, step);
    forall j: nat | j < |s.calls|
      ensures (s.calls[j].pc.Sending? || t.calls[j].pc.Sending?) ==> t.calls[j].pc == s.calls[j].pc
      ensures t.calls[j].token ==> s.calls[j].token
    {}
    SameSends(s, t, step.k);
  }

  lemma SameSends(s: State, t: State, k: nat)
    requires HandedOver(s) && |t.calls| == |s.calls| && k < |s.calls|
    requires forall j: nat :: j < |s.calls| && (s.calls[j].pc.Sending? || t.calls[j].pc.Sending?) ==> t.calls[j].pc == s.calls[j].pc
    requires forall j: nat :: j < |s.calls| ==> t.calls[j].token ==> s.calls[j].token
    requires forall j: nat :: j < |s.calls| && j != k ==> t.calls[j] == s.calls[j]
    requires Waits(t.calls[k]) ==> Waits(s.calls[k]) && t.calls[k].token == s.calls[k].token
    requires forall j :: j in t.pool.done ==> j in s.pool.done || (j == k && !Waits(t.calls[k]))
    ensures HandedOver(t)
  {
    forall w: nat | Expects(t, w) ensures Coming(t, w) {
      assert Expects(s, w);
      StillComing(s, t, w);
    }
  }

  lemma SendHandedOver(s: State, k: nat)
    requires Ordered(s) && HandedOver(s) && Enabled(s, Send(k))
    ensures HandedOver(Next(s, Send(k)))
  {
    var t, to := Next(s, Send(k)), s.calls[k].pc.to;
    assert t.calls[to].token && !t.calls[k].pc.Sending?;
    assert forall j: nat :: j < |s.calls| && j != k ==> t.calls[j].pc == s.calls[j].pc;
    assert forall j: nat :: j < |s.calls| && j != to ==> t.calls[j].token == s.calls[j].token;
    forall w: nat | Expects(t, w) ensures Coming(t, w) {
      assert w != to && Expects(s, w);
      StillComing(s, t, w);
    }
  }

  lemma ReleaseHandedOver(s: State, k: nat)
    requires Ordered(s) && HandedOver(s) && Enabled(s, ReleaseLock(k))
    ensures HandedOver(Next(s, ReleaseLock(k)))
  {
    ReleaseTakesHead(s);
    if s.pool.queue == [] {
      FreeHandedOver(s, k);
    } else {
      MarkHandedOver(s, k, s.pool.queue[0]);
    }
  }

  lemma FreeHandedOver(s: State, k: nat)
    requires HandedOver(s) && Enabled(s, ReleaseLock(k)) && s.pool.queue == []
    ensures HandedOver(Next(s, ReleaseLock(k)))
  {
    var t := Next(s, ReleaseLock(k));
    assert t.calls[k].pc == Finished && forall j: nat :: j < |s.calls| && j != k ==> t.calls[j] == s.calls[j];
    forall w: nat | Expects(t, w) ensures Coming(t, w) {
      assert Expects(s, w);
      StillComing(s, t, w);
    }
  }

  lemma MarkHandedOver(s: State, k: nat, h: nat)
    requires Ordered(s) && HandedOver(s) && Enabled(s, ReleaseLock(k)) && LeadingDone(s.pool.queue, s.pool.done) == 0
    requires s.pool.queue != [] && h == s.pool.queue[0]
    ensures HandedOver(Next(s, ReleaseLock(k)))
  {
    var t := Next(s, ReleaseLock(k));
    assert h in s.pool.queue;
    assert h !in s.pool.done && h < |s.calls| && !s.calls[h].token;
    assert t.calls[k].pc == Sending(h) && t.pool.done == s.pool.done + {h};
    assert forall j: nat :: j < |s.calls| && j != k ==> t.calls[j] == s.calls[j];
    assert forall j: nat :: j < |s.calls| && s.calls[j].pc.Sending? ==> s.calls[j].pc.to != h;
    forall w: nat | Expects(t, w) ensures Coming(t, w) {
      if w != h {
        assert Expects(s, w);
        StillComing(s, t, w);
      }
    }
  }

  lemma NextFair(s: State, step: Step)
    requires Conserved(s) && Ordered(s) && Fair(s) && Enabled(s, step)
    ensures Fair(Next(s, step))
  {
    var t := Next(s, step);
    var q := s.pool.queue;
    match step {
      case Arrive =>
        assert forall k :: k in q + [|s.calls|] <==> k in q || k == |s.calls|;
        if s.pool.inflight < s.pool.capacity { LogGrows(s, t, Granted(|s.calls|)); }
      case Abandon(k) =>
        if k in q {
          AbandonOrdered(s, k);
          LogGrows(s, t, GaveUp(k));
        }
      case ReleaseLock(k) =>
        ReleaseTakesHead(s);
        if q != [] {
          HeadOrdered(q);
          assert q[0] in q;
          LogGrows(s, t, Granted(q[0]));
        }
      case _ =>
    }
  }

  /** Deciding one more arrival keeps the log fair, if a grant skips nobody in the queue. */
  lemma LogGrows(s: State, t: State, e: Event)
    requires Fair(s)
    requires t.log == s.log + [e] && e.call < |t.calls|
    requires |s.calls| <= |t.calls| <= |s.calls| + 1 && (|t.calls| > |s.calls| ==> e.call == |s.calls|)
    requires e.call in s.pool.queue || e.call == |s.calls|
    requires forall k: nat :: k in t.pool.queue <==> k in s.pool.queue && k != e.call
    requires e.Granted? ==> forall k :: k in s.pool.queue ==> e.call <= k
    ensures Fair(t)
  {
    assert t.log[..|s.log|] == s.log;
    forall i: nat, k: nat | i < |t.log| && t.log[i].Granted? && k < t.log[i].call
      ensures Decided(t.log[..i], k)
    {
      if i < |s.log| { assert t.log[..i] == s.log[..i]; }
    }
  }

  /** Every step keeps the invariant. */
  lemma NextInv(s: State, step: Step)
    requires Inv(s) && Enabled(s, step)
    ensures Inv(Next(s, step))
  {
    NextConserved(s, step);
    NextOrdered(s, step);
    NextHandedOver(s, step);
    NextFair(s, step);
  }

  lemma {:induction false} ReachableInv(s: State, steps: seq<Step>)
    requires Inv(s) && Legal(s, steps)
    ensures Inv(Exec(s, steps))
    decreases |steps|
  {
    if steps != [] {
      NextInv(s, steps[0]);
      ReachableInv(Next(s, steps[0]), steps[1..]);
    }
  }

  // ---- Theorems over every run ---------------------------------------------------

  lemma InitInv(capacity: nat)
    requires capacity >= 1
    ensures Inv(Init(capacity))
  {
    assert Owners(Init(capacity)) == {};
  }

  /** No interleaving loses or invents a slot, and release never meets a dead waiter. */
  lemma Conservation(capacity: nat, steps: seq<Step>)
    requires capacity >= 1 && Legal(Init(capacity), steps)
    ensures var s := Exec(Init(capacity), steps);
      && s.pool.inflight == |Owners(s)|
      && 0 <= s.pool.inflight <= s.pool.capacity == capacity
      && (s.pool.queue != [] ==> s.pool.inflight == capacity)
      && (forall k :: k in s.pool.queue ==> k !in s.pool.done)
      && LeadingDone(s.pool.queue, s.pool.done) == 0
  {
    InitInv(capacity);
    ReachableInv(Init(capacity), steps);
    CapacityFixed(Init(capacity), steps);
    ReleaseTakesHead(Exec(Init(capacity), steps));
  }

  lemma {:induction false} CapacityFixed(s: State, steps: seq<Step>)
    requires Legal(s, steps)
    ensures Exec(s, steps).pool.capacity == s.pool.capacity
    decreases |steps|
  {
    if steps != [] {
      CapacityFixed(Next(s, steps[0]), steps[1..]);
    }
  }

  lemma DecidedAt(log: seq<Event>, k: nat) returns (m: nat)
    requires Decided(log, k)
    ensures m < |log| && log[m].call == k
  {
    var e := if Granted(k) in log then Granted(k) else GaveUp(k);
    m :| m < |log| && log[m] == e;
  }

  /** Grants happen in strict arrival order; a skipped earlier arrival had given up. */
  lemma StrictFifo(capacity: nat, steps: seq<Step>)
    requires capacity >= 1 && Legal(Init(capacity), steps)
    ensures var log := Exec(Init(capacity), steps).log;
      && FifoLog(log)
      && (forall i, j :: 0 <= i < j < |log| ==> log[i].call != log[j].call)
      && (forall i, j :: 0 <= i < j < |log| && log[i].Granted? && log[j].Granted? ==> log[i].call < log[j].call)
  {
    InitInv(capacity);
    ReachableInv(Init(capacity), steps);
    var log := Exec(Init(capacity), steps).log;
    forall i, j | 0 <= i < j < |log| && log[i].Granted? && log[j].Granted?
      ensures log[i].call < log[j].call
    {
      if log[j].call < log[i].call {
        var m := DecidedAt(log[..i], log[j].call);
        assert false;
      }
    }
  }

  /** The one-place channel has room whenever a hand-off reaches its send. */
  lemma SendNeverBlocks(s: State, k: nat)
    requires Inv(s) && k < |s.calls| && s.calls[k].pc.Sending?
    ensures Enabled(s, Send(k))
  {
  }

  /** A step the pool or a slot's owner takes: not an arrival, a decision to give up,
      or a repeated call of a release func. */
  predicate Driving(s: State, step: Step) {
    && Enabled(s, step)
    && !step.Arrive? && !step.GiveUp?
    && (step.CallRelease? ==> s.calls[step.k].pc == Holding)
  }

  /** While any call is unfinished, some slot can move: no wakeup is ever lost. */
  lemma NoLostWakeup(s: State, k: nat) returns (step: Step)
    requires Inv(s) && k < |s.calls| && s.calls[k].pc != Finished
    ensures Driving(s, step)
  {
    var o := k;
    if s.calls[k].pc == Parked && k !in s.pool.done {
      assert k in s.pool.queue;
      assert Owners(s) != {};
      o :| o in Owners(s);
    }
    match s.calls[o].pc {
      case Parked =>
        if s.calls[o].token {
          step := Receive(o);
        } else {
          assert Coming(s, o);
          var j: nat :| j < |s.calls| && s.calls[j].pc == Sending(o);
          step := Send(j);
        }
      case GivingUp => step := Abandon(o);
      case PassingOn => step := ReleaseLock(o);
      case Holding => step := CallRelease(o);
      case Releasing => step := ReleaseLock(o);
      case Sending(to) => step := Send(o);
      case Finished => assert false;
    }
  }

  function Weight(pc: Pc): nat {
    match pc
    case Parked => 4
    case GivingUp => 3
    case PassingOn => 2
    case Holding => 3
    case Releasing => 2
    case Sending(_) => 1
    case Finished => 0
  }

  /** Steps still to come before every present call is over. */
  function Work(calls: seq<Call>): nat {
    if calls == [] then 0 else Weight(calls[0].pc) + Work(calls[1..])
  }

  lemma {:induction false} WorkUpdate(calls: seq<Call>, k: nat, c: Call)
    requires k < |calls|
    ensures Work(calls[k := c]) == Work(calls) - Weight(calls[k].pc) + Weight(c.pc)
  {
    if k == 0 {
      assert calls[k := c][1..] == calls[1..];
    } else {
      assert calls[k := c][1..] == calls[1..][k - 1 := c];
      WorkUpdate(calls[1..], k - 1, c);
    }
  }

  ghost predicate Productive(s: State, steps: seq<Step>)
    requires Legal(s, steps)
    decreases |steps|
  {
    steps == [] || ((Driving(s, steps[0]) || steps[0].GiveUp?) && Productive(Next(s, steps[0]), steps[1..]))
  }

  lemma NextWork(s: State, step: Step)
    requires Driving(s, step) || (step.GiveUp? && Enabled(s, step))
    ensures Work(Next(s, step).calls) < Work(s.calls)
  {
    var t := Next(s, step);
    if step.Send? {
      var to := s.calls[step.k].pc.to;
      var calls := s.calls[to := s.calls[to].(token := true)];
      WorkUpdate(s.calls, to, calls[to]);
      WorkUpdate(calls, step.k, t.calls[step.k]);
    } else {
      WorkUpdate(s.calls, step.k, t.calls[step.k]);
    }
  }

  /** Once arrivals stop, every schedule is finite, and one that cannot be continued
      has granted every arrival that did not give up and returned every slot. */
  lemma {:induction false} EveryoneServed(s: State, steps: seq<Step>)
    requires Inv(s) && Legal(s, steps) && Productive(s, steps)
    ensures |steps| + Work(Exec(s, steps).calls) <= Work(s.calls)
    ensures var t := Exec(s, steps);
      (forall step :: !Driving(t, step)) ==>
        && t.pool.queue == [] && t.pool.inflight == 0
        && forall k: nat :: k < |t.calls| ==> t.calls[k].pc == Finished && Decided(t.log, k)
    decreases |steps|
  {
    if steps == [] {
      assert s.pool.queue != [] ==> s.pool.queue[0] in s.pool.queue;
      if forall step :: !Driving(s, step) {
        forall k: nat | k < |s.calls| ensures s.calls[k].pc == Finished {
          if s.calls[k].pc != Finished {
            var step := NoLostWakeup(s, k);
          }
        }
        assert Owners(s) == {};
      }
    } else {
      NextWork(s, steps[0]);
      NextInv(s, steps[0]);
      EveryoneServed(Next(s, steps[0]), steps[1..]);
    }
  }

  /** The place of k in the queue. */
  function Place(q: seq<nat>, k: nat): (i: nat)
    requires k in q
    ensures i < |q| && q[i] == k
  {
    if q[0] == k then 0 else 1 + Place(q[1..], k)
  }

  function Releases(steps: seq<Step>): nat {
    if steps == [] then 0 else (if steps[0].ReleaseLock? then 1 else 0) + Releases(steps[1..])
  }

  lemma {:induction false} PlaceAfterRemove(q: seq<nat>, x: nat, k: nat)
    requires k in q && k != x
    ensures k in RemoveFirst(q, x) && Place(RemoveFirst(q, x), k) <= Place(q, k)
  {
    if q[0] != x && q[0] != k {
      PlaceAfterRemove(q[1..], x, k);
    }
  }

  lemma {:induction false} PlaceAfterAppend(q: seq<nat>, x: nat, k: nat)
    requires k in q
    ensures k in q + [x] && Place(q + [x], k) == Place(q, k)
  {
    if q[0] != k {
      assert (q + [x])[1..] == q[1..] + [x];
      PlaceAfterAppend(q[1..], x, k);
    }
  }

  lemma NextPlace(s: State, step: Step, k: nat)
    requires Inv(s) && Enabled(s, step) && k < |s.calls| && k in Next(s, step).pool.queue
    ensures k in s.pool.queue
    ensures Place(Next(s, step).pool.queue, k) + (if step.ReleaseLock? then 1 else 0) <= Place(s.pool.queue, k)
  {
    var q := s.pool.queue;
    match step {
      case Arrive => if s.pool.inflight >= s.pool.capacity { PlaceAfterAppend(q, |s.calls|, k); }
      case Abandon(x) =>
        if x !in s.pool.done {
          RemoveOrdered(q, x);
          PlaceAfterRemove(q, x, k);
        }
      case ReleaseLock(_) =>
        ReleaseTakesHead(s);
        if q != [] { HeadOrdered(q); }
      case _ =>
    }
  }

  /** Bounded bypass: while k stays queued, each release serves someone ahead of it,
      so at most Place(k) slots are released before its own turn, whatever else happens. */
  lemma {:induction false} BoundedBypass(s: State, steps: seq<Step>, k: nat)
    requires Inv(s) && Legal(s, steps) && k < |s.calls| && k in Exec(s, steps).pool.queue
    ensures k in s.pool.queue
    ensures Releases(steps) + Place(Exec(s, steps).pool.queue, k) <= Place(s.pool.queue, k)
    decreases |steps|
  {
    if steps != [] {
      NextInv(s, steps[0]);
      BoundedBypass(Next(s, steps[0]), steps[1..], k);
      NextPlace(s, steps[0], k);
    }
  }

  // ---- Tokens ---------------------------------------------------------------------------------

  predicate HasSlot(c: Call) { c.pc == Holding || c.pc == Releasing }

  /** Whoever holds a slot, or is giving it back, has an empty channel, and no token is on
      its way there: the one it got was taken out. */
  ghost predicate TokensTaken(s: State) {
    && (forall k: nat :: k < |s.calls| && HasSlot(s.calls[k]) ==> !s.calls[k].token)
    && (forall j: nat :: j < |s.calls| && s.calls[j].pc.Sending? && s.calls[j].pc.to < |s.calls| ==> !HasSlot(s.calls[s.calls[j].pc.to]))
  }

  lemma NextTaken(s: State, step: Step)
    requires Inv(s) && TokensTaken(s) && Enabled(s, step)
    ensures TokensTaken(Next(s, step))
  {
    match step {
      case Arrive => ArriveTaken(s);
      case ReleaseLock(k) => ReleaseTaken(s, k);
      case Send(k) => SendTaken(s, k);
      case Receive(k) => ReceiveTaken(s, k);
      case _ => QuietTaken(s, step);
    }
  }

  lemma ArriveTaken(s: State)
    requires Inv(s) && TokensTaken(s)
    ensures TokensTaken(Next(s, Arrive))
  {
    var t, n := Next(s, Arrive), |s.calls|;
    assert !t.calls[n].token && !t.calls[n].pc.Sending? && forall j: nat :: j < n ==> t.calls[j] == s.calls[j];
    forall j: nat | j < n && s.calls[j].pc.Sending? ensures s.calls[j].pc.to < n {}
  }

  lemma ReleaseTaken(s: State, k: nat)
    requires Inv(s) && TokensTaken(s) && Enabled(s, ReleaseLock(k))
    ensures TokensTaken(Next(s, ReleaseLock(k)))
  {
    var t, q := Next(s, ReleaseLock(k)), s.pool.queue;
    ReleaseTakesHead(s);
    assert q != [] ==> q[0] in q;
    assert !HasSlot(t.calls[k]) && forall j: nat :: j < |s.calls| && j != k ==> t.calls[j] == s.calls[j];
    if q != [] { assert t.calls[k].pc == Sending(q[0]) && Waits(s.calls[q[0]]); }
  }

  lemma SendTaken(s: State, k: nat)
    requires TokensTaken(s) && Enabled(s, Send(k))
    ensures TokensTaken(Next(s, Send(k)))
  {
    var t, to := Next(s, Send(k)), s.calls[k].pc.to;
    assert !HasSlot(s.calls[to]) && t.calls[k].pc == Finished;
    assert forall j: nat :: j < |s.calls| && j != k ==> t.calls[j].pc == s.calls[j].pc;
    assert forall j: nat :: j < |s.calls| && j != to ==> t.calls[j].token == s.calls[j].token;
  }

  lemma ReceiveTaken(s: State, k: nat)
    requires RoomToSend(s) && TokensTaken(s) && Enabled(s, Receive(k))
    ensures TokensTaken(Next(s, Receive(k)))
  {
    var t := Next(s, Receive(k));
    assert !t.calls[k].token && t.calls[k].pc == Holding && forall j: nat :: j < |s.calls| && j != k ==> t.calls[j] == s.calls[j];
  }

  lemma QuietTaken(s: State, step: Step)
    requires TokensTaken(s) && Enabled(s, step) && (step.GiveUp? || step.Abandon? || step.CallRelease?)
    ensures TokensTaken(Next(s, step))
  {
    var t := Next(s, step);
    assert forall j: nat :: j < |s.calls| && j != step.k ==> t.calls[j] == s.calls[j];
    assert t.calls[step.k].token == s.calls[step.k].token && (HasSlot(t.calls[step.k]) ==> HasSlot(s.calls[step.k]));
  }

  /** In every run: a slot holder's channel is empty. */
  lemma {:induction false} TokensTakenAlways(s: State, steps: seq<Step>)
    requires Inv(s) && TokensTaken(s) && Legal(s, steps)
    ensures TokensTaken(Exec(s, steps))
    decreases |steps|
  {
    if steps != [] {
      NextInv(s, steps[0]);
      NextTaken(s, steps[0]);
      TokensTakenAlways(Next(s, steps[0]), steps[1..]);
    }
  }
}
