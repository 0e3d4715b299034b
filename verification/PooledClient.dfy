/** PooledClient.Chat on top of the pool: the slot's lifetime is the stream's. */
module PooledClient {
  import opened PoolProtocol

  /** What Chat, and the forwarding goroutine it starts, is doing for one call. */
  datatype Phase =
    | Acquiring
    | Calling         // slot held, inner Chat running
    | Forwarding      // inner stream open
    | Unwinding       // inner stream closed (or inner Chat failed); release entered
    | Done            // outer channel closed, or Chat returned an error

  datatype Pooled = Pooled(pool: State, phases: seq<Phase>)

  datatype Act =
    | PoolStep(step: Step)
    | CallInner(k: nat)
    | InnerOpens(k: nat)
    | InnerEnds(k: nat)    // inner Chat failed, or the inner stream closed
    | Close(k: nat)

  predicate Possible(p: Pooled, a: Act) {
    match a
    case PoolStep(step) => Enabled(p.pool, step) && !step.CallRelease?
    case CallInner(k) => k < |p.phases| == |p.pool.calls| && p.phases[k] == Acquiring && p.pool.calls[k].pc == Holding
    case InnerOpens(k) => k < |p.phases| && p.phases[k] == Calling
    case InnerEnds(k) => k < |p.phases| && (p.phases[k] == Calling || p.phases[k] == Forwarding) && Enabled(p.pool, CallRelease(k))
    case Close(k) => k < |p.phases| == |p.pool.calls| && (p.phases[k] == Unwinding || p.phases[k] == Acquiring) && p.pool.calls[k].pc == Finished
  }

  function After(p: Pooled, a: Act): Pooled
    requires Possible(p, a)
  {
    match a
    case PoolStep(step) =>
      Pooled(Next(p.pool, step), if step.Arrive? then p.phases + [Acquiring] else p.phases)
    case CallInner(k) => p.(phases := p.phases[k := Calling])
    case InnerOpens(k) => p.(phases := p.phases[k := Forwarding])
    case InnerEnds(k) => Pooled(Next(p.pool, CallRelease(k)), p.phases[k := Unwinding])
    case Close(k) => p.(phases := p.phases[k := Done])
  }

  ghost predicate Possibles(p: Pooled, acts: seq<Act>)
    decreases |acts|
  {
    acts == [] || (Possible(p, acts[0]) && Possibles(After(p, acts[0]), acts[1..]))
  }

  ghost function Run(p: Pooled, acts: seq<Act>): Pooled
    requires Possibles(p, acts)
    decreases |acts|
  {
    if acts == [] then p else Run(After(p, acts[0]), acts[1..])
  }

  predicate Fits(phase: Phase, pc: Pc) {
    match phase
    case Acquiring => pc != Releasing
    case Calling => pc == Holding
    case Forwarding => pc == Holding
    case Unwinding => pc == Releasing || pc.Sending? || pc == Finished
    case Done => pc == Finished
  }

  /** The slot is held from admission until the inner stream has ended, and is back
      before the outer channel closes. */
  ghost predicate SlotSpansStream(p: Pooled) {
    && |p.phases| == |p.pool.calls|
    && forall k: nat :: k < |p.phases| ==> Fits(p.phases[k], p.pool.calls[k].pc)
  }

  lemma AfterKeeps(p: Pooled, a: Act)
    requires SlotSpansStream(p) && Inv(p.pool) && Possible(p, a)
    ensures SlotSpansStream(After(p, a)) && Inv(After(p, a).pool)
    ensures After(p, a).pool.pool.capacity == p.pool.pool.capacity
  {
    if a.PoolStep? {
      NextInv(p.pool, a.step);
      StepFits(p, a.step);
    } else {
      if a.InnerEnds? { NextInv(p.pool, CallRelease(a.k)); }
      PhaseFits(p, a);
    }
  }

  lemma PhaseFits(p: Pooled, a: Act)
    requires SlotSpansStream(p) && Possible(p, a) && !a.PoolStep?
    ensures SlotSpansStream(After(p, a))
  {
  }

  lemma StepFits(p: Pooled, step: Step)
    requires SlotSpansStream(p) && Possible(p, PoolStep(step))
    ensures SlotSpansStream(After(p, PoolStep(step)))
  {
  }

  lemma {:induction false} RunKeeps(p: Pooled, acts: seq<Act>)
    requires SlotSpansStream(p) && Inv(p.pool) && Possibles(p, acts)
    ensures SlotSpansStream(Run(p, acts)) && Inv(Run(p, acts).pool)
    ensures Run(p, acts).pool.pool.capacity == p.pool.pool.capacity
    decreases |acts|
  {
    if acts != [] {
      AfterKeeps(p, acts[0]);
      RunKeeps(After(p, acts[0]), acts[1..]);
    }
  }

  ghost function InnerRunning(p: Pooled): set<nat> {
    set k: nat | k < |p.phases| && (p.phases[k] == Calling || p.phases[k] == Forwarding)
  }

  /** In every interleaving: never more inner requests than the pool allows, every one of
      them holds a slot, and a call whose outer channel is closed holds none. */
  lemma BoundedConcurrency(capacity: nat, acts: seq<Act>)
    requires capacity >= 1 && Possibles(Pooled(Init(capacity), []), acts)
    ensures var p := Run(Pooled(Init(capacity), []), acts);
      && SlotSpansStream(p)
      && InnerRunning(p) <= Owners(p.pool)
      && |InnerRunning(p)| <= capacity
      && forall k: nat :: k < |p.phases| && p.phases[k] == Done ==> k !in Owners(p.pool)
  {
    InitInv(capacity);
    RunKeeps(Pooled(Init(capacity), []), acts);
    var p := Run(Pooled(Init(capacity), []), acts);
    assert InnerRunning(p) <= Owners(p.pool);
    SubsetSize(InnerRunning(p), Owners(p.pool));
  }

  // ---- Every stream closes ------------------------------------------------------------------

  /** An act of the pool, an inner stream or a forwarding goroutine: neither a new arrival
      nor a caller's decision to give up. */
  predicate Moves(p: Pooled, a: Act) {
    Possible(p, a) && (a.PoolStep? ==> !a.step.Arrive? && !a.step.GiveUp?)
  }

  /** Any call that is not done can be moved, possibly by ending an inner stream. */
  lemma SomethingMoves(p: Pooled, k: nat) returns (a: Act)
    requires SlotSpansStream(p) && Inv(p.pool) && k < |p.phases| && p.phases[k] != Done
    ensures Moves(p, a)
  {
    assert Fits(p.phases[k], p.pool.calls[k].pc);
    if p.pool.calls[k].pc == Finished {
      a := Close(k);
    } else {
      var step := NoLostWakeup(p.pool, k);
      if step.CallRelease? {
        assert Fits(p.phases[step.k], p.pool.calls[step.k].pc);
        a := if p.phases[step.k] == Acquiring then CallInner(step.k) else InnerEnds(step.k);
      } else {
        a := PoolStep(step);
      }
    }
  }

  function PhaseWeight(phase: Phase): nat {
    match phase case Acquiring => 4 case Calling => 3 case Forwarding => 2 case Unwinding => 1 case Done => 0
  }

  function PhaseWork(phases: seq<Phase>): nat {
    if phases == [] then 0 else PhaseWeight(phases[0]) + PhaseWork(phases[1..])
  }

  lemma {:induction false} PhaseUpdate(phases: seq<Phase>, k: nat, phase: Phase)
    requires k < |phases|
    ensures PhaseWork(phases[k := phase]) == PhaseWork(phases) - PhaseWeight(phases[k]) + PhaseWeight(phase)
  {
    if k == 0 {
      assert phases[k := phase][1..] == phases[1..];
    } else {
      assert phases[k := phase][1..] == phases[1..][k - 1 := phase];
      PhaseUpdate(phases[1..], k - 1, phase);
    }
  }

  /** Acts still to come before every present call is done. */
  function ActsLeft(p: Pooled): nat { Work(p.pool.calls) + PhaseWork(p.phases) }

  lemma ActWork(p: Pooled, a: Act)
    requires SlotSpansStream(p) && Possible(p, a) && a != PoolStep(Arrive)
    ensures ActsLeft(After(p, a)) < ActsLeft(p)
  {
    match a {
      case PoolStep(step) => NextWork(p.pool, step);
      case CallInner(k) => PhaseUpdate(p.phases, k, Calling);
      case InnerOpens(k) => PhaseUpdate(p.phases, k, Forwarding);
      case InnerEnds(k) =>
        assert Fits(p.phases[k], p.pool.calls[k].pc);
        NextWork(p.pool, CallRelease(k));
        PhaseUpdate(p.phases, k, Unwinding);
      case Close(k) => PhaseUpdate(p.phases, k, Done);
    }
  }

  /** Once arrivals stop, every schedule is finite, and one that cannot be continued has
      closed every outer channel and returned every slot. */
  lemma {:induction false} EveryStreamCloses(p: Pooled, acts: seq<Act>)
    requires SlotSpansStream(p) && Inv(p.pool) && Possibles(p, acts)
    requires PoolStep(Arrive) !in acts
    ensures var q := Run(p, acts);
      && |acts| + ActsLeft(q) <= ActsLeft(p)
      && ((forall a :: !Moves(q, a)) ==> AllDone(q))
    decreases |acts|
  {
    if acts == [] {
      if forall a :: !Moves(p, a) {
        NothingMoves(p);
      }
    } else {
      assert acts[0] in acts && forall a :: a in acts[1..] ==> a in acts;
      ActWork(p, acts[0]);
      AfterKeeps(p, acts[0]);
      EveryStreamCloses(After(p, acts[0]), acts[1..]);
    }
  }

  ghost predicate AllDone(p: Pooled) {
    p.pool.pool.inflight == 0 && p.pool.pool.queue == [] && forall k :: 0 <= k < |p.phases| ==> p.phases[k] == Done
  }

  lemma NothingMoves(p: Pooled)
    requires SlotSpansStream(p) && Inv(p.pool) && forall a :: !Moves(p, a)
    ensures AllDone(p)
  {
    assert p.pool.pool.queue != [] ==> p.pool.pool.queue[0] in p.pool.pool.queue;
    forall k: nat | k < |p.phases| ensures p.phases[k] == Done {
      if p.phases[k] != Done {
        var a := SomethingMoves(p, k);
      }
    }
    forall k: nat | k < |p.pool.calls| ensures p.pool.calls[k].pc == Finished {
      assert Fits(p.phases[k], p.pool.calls[k].pc);
    }
    assert Owners(p.pool) == {};
  }

  lemma {:induction false} SubsetSize<T>(a: set<T>, b: set<T>)
    requires a <= b
    ensures |a| <= |b|
  {
    if a != {} {
      var x :| x in a;
      SubsetSize(a - {x}, b - {x});
    }
  }
}
