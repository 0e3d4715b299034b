/** The connection indicator, and every interleaving of Chats with the recovery probe. */
module Probe {
  datatype ConnState = Connected | Reconnecting | Disconnected

  datatype Conn = Conn(state: ConnState, since: nat, probing: bool)

  const FRESH := Conn(Connected, 0, false)

  function SetSpec(c: Conn, s: ConnState, now: nat): Conn {
    if c.state == s then c else c.(state := s, since := now)
  }

  /** Each method is one critical section. */
  class ConnTracker {
    var state: ConnState
    var since: nat
    var probing: bool

    ghost function Abs(): Conn
      reads this
    {
      Conn(state, since, probing)
    }

    constructor ()
      ensures Abs() == FRESH
    {
      state, since, probing := Connected, 0, false;
    }

    method Get() returns (s: ConnState)
      ensures s == Abs().state
    {
      s := state;
    }

    method Set(s: ConnState, now: nat) returns (prev: ConnState)
      modifies this
      ensures prev == old(state)
      ensures Abs() == SetSpec(old(Abs()), s, now)
    {
      prev := state;
      if prev != s {
        state := s;
        since := now;
      }
    }

    method ClaimProbe() returns (mine: bool)
      modifies this
      ensures mine == !old(probing)
      ensures Abs() == old(Abs()).(probing := true)
    {
      if probing {
        return false;
      }
      probing := true;
      return true;
    }

    method ReleaseProbe()
      modifies this
      ensures Abs() == old(Abs()).(probing := false)
    {
      probing := false;
    }
  }

  // ---- since is the time of the last real transition --------------------------------------------

  datatype Report = Report(state: ConnState, at: nat)

  function Reported(reports: seq<Report>): Conn {
    if reports == [] then FRESH
    else
      var n := |reports| - 1;
      SetSpec(Reported(reports[..n]), reports[n].state, reports[n].at)
  }

  /** since is the time of the report that entered the current state, however often that
      state was reported again. */
  lemma {:induction false} SinceIsTransition(reports: seq<Report>)
    ensures var c := Reported(reports);
      || (c == FRESH && forall j :: 0 <= j < |reports| ==> reports[j].state == Connected)
      || exists i :: EnteredBy(reports, i, c)
  {
    if reports != [] {
      var n := |reports| - 1;
      SinceIsTransition(reports[..n]);
      var before, c := Reported(reports[..n]), Reported(reports);
      if before.state != reports[n].state {
        assert EnteredBy(reports, n, c);
      } else if i :| EnteredBy(reports[..n], i, before) {
        assert reports[..n][..i] == reports[..i];
        assert forall j :: i <= j < n ==> reports[..n][j] == reports[j];
        assert EnteredBy(reports, i, c);
      } else {
        assert forall j :: 0 <= j < n ==> reports[..n][j] == reports[j];
      }
    }
  }

  ghost predicate EnteredBy(reports: seq<Report>, i: int, c: Conn) {
    && 0 <= i < |reports|
    && c.since == reports[i].at
    && Reported(reports[..i]).state != c.state
    && forall j :: i <= j < |reports| ==> reports[j].state == c.state
  }

  // ---- Chats and probe loops ---------------------------------------------------------------------

  datatype ChatPc =
    | Working       // inside its requests
    | MustClaim     // moved the tracker into Disconnected; about to call ClaimProbe
    | Spawning      // claimed; the go statement is still to come
    | Ended

  datatype ProbePc =
    | Waiting       // for the ticker
    | Pinging
    | Answered      // the endpoint answered; about to report Connected
    | Leaving       // the loop is over; ReleaseProbe is still to come
    | Gone

  datatype State = State(conn: Conn, chats: seq<ChatPc>, probes: seq<ProbePc>)

  datatype Step =
    | NewChat
    | Note(k: nat, reached: bool, now: nat)   // a request got through, or is to be retried
    | Fail(k: nat, now: nat)                  // every retry was a transport error
    | Claim(k: nat)
    | Spawn(k: nat)
    | Tick(p: nat)
    | Ping(p: nat, answered: bool)
    | Recover(p: nat, now: nat)
    | Exit(p: nat)

  predicate ChatAt(s: State, k: nat, pc: ChatPc) { k < |s.chats| && s.chats[k] == pc }

  predicate ProbeAt(s: State, p: nat, pc: ProbePc) { p < |s.probes| && s.probes[p] == pc }

  predicate Enabled(s: State, step: Step) {
    match step
    case NewChat => true
    case Note(k, _, _) => ChatAt(s, k, Working)
    case Fail(k, _) => ChatAt(s, k, Working)
    case Claim(k) => ChatAt(s, k, MustClaim)
    case Spawn(k) => ChatAt(s, k, Spawning)
    case Tick(p) => ProbeAt(s, p, Waiting)
    case Ping(p, _) => ProbeAt(s, p, Pinging)
    case Recover(p, _) => ProbeAt(s, p, Answered)
    case Exit(p) => ProbeAt(s, p, Leaving)
  }

  function Next(s: State, step: Step): State
    requires Enabled(s, step)
  {
    match step
    case NewChat => s.(chats := s.chats + [Working])
    case Note(_, reached, now) => s.(conn := SetSpec(s.conn, if reached then Connected else Reconnecting, now))
    case Fail(k, now) =>
      var pc := if s.conn.state != Disconnected then MustClaim else Ended;
      s.(conn := SetSpec(s.conn, Disconnected, now), chats := s.chats[k := pc])
    case Claim(k) =>
      s.(conn := s.conn.(probing := true), chats := s.chats[k := if s.conn.probing then Ended else Spawning])
    case Spawn(k) => s.(chats := s.chats[k := Ended], probes := s.probes + [Waiting])
    case Tick(p) => s.(probes := s.probes[p := if s.conn.state != Disconnected then Leaving else Pinging])
    case Ping(p, answered) => s.(probes := s.probes[p := if answered then Answered else Waiting])
    case Recover(p, now) => s.(conn := SetSpec(s.conn, Connected, now), probes := s.probes[p := Leaving])
    case Exit(p) => s.(conn := s.conn.(probing := false), probes := s.probes[p := Gone])
  }

  const INIT := State(FRESH, [], [])

  ghost predicate Run(steps: seq<Step>)
    decreases |steps|, 0
  {
    steps == [] ||
    (var n := |steps| - 1; Run(steps[..n]) && Enabled(After(steps[..n]), steps[n]))
  }

  ghost function After(steps: seq<Step>): State
    requires Run(steps)
    decreases |steps|, 1
  {
    if steps == [] then INIT else var n := |steps| - 1; Next(After(steps[..n]), steps[n])
  }

  // ---- At most one probe -------------------------------------------------------------------------

  datatype Holder = ByChat(k: nat) | ByProbe(p: nat)

  /** h holds the claim: it is about to start the probe, or is a probe that has not released. */
  predicate Holds(s: State, h: Holder) {
    match h
    case ByChat(k) => ChatAt(s, k, Spawning)
    case ByProbe(p) => p < |s.probes| && s.probes[p] != Gone
  }

  ghost predicate Inv(s: State) {
    && (s.conn.probing <==> exists h :: Holds(s, h))
    && (forall g, h :: Holds(s, g) && Holds(s, h) ==> g == h)
  }

  lemma NextInv(s: State, step: Step)
    requires Inv(s) && Enabled(s, step)
    ensures Inv(Next(s, step))
  {
    var t := Next(s, step);
    match step {
      case Claim(k) =>
        assert Holds(t, ByChat(k)) || exists h :: Holds(s, h) && Holds(t, h);
        assert forall h :: Holds(t, h) ==> Holds(s, h) || (!s.conn.probing && h == ByChat(k));
      case Spawn(k) =>
        assert Holds(s, ByChat(k)) && Holds(t, ByProbe(|s.probes|));
        assert forall h :: Holds(t, h) ==> h == ByProbe(|s.probes|) || (Holds(s, h) && h != ByChat(k));
      case Exit(p) =>
        assert Holds(s, ByProbe(p));
        assert forall h :: Holds(t, h) ==> Holds(s, h) && h != ByProbe(p);
      case _ =>
        assert forall h :: Holds(t, h) <==> Holds(s, h);
    }
  }

  /** In every interleaving at most one probe is live, and probing is true exactly while
      something holds the claim. */
  lemma {:induction false} OneProbe(steps: seq<Step>)
    requires Run(steps)
    ensures Inv(After(steps))
    decreases |steps|
  {
    if steps == [] {
      assert forall h :: !Holds(INIT, h);
    } else {
      var n := |steps| - 1;
      OneProbe(steps[..n]);
      NextInv(After(steps[..n]), steps[n]);
    }
  }

  // ---- A probe stays until the indicator is right ---------------------------------------------------

  /** A probe leaves its loop only once the indicator is no longer Disconnected: somebody
      else moved it, or the endpoint answered and the probe reports Connected. */
  lemma LeavesOnlyConnected(s: State, step: Step, p: nat)
    requires Enabled(s, step) && !ProbeAt(s, p, Leaving) && ProbeAt(Next(s, step), p, Leaving)
    ensures Next(s, step).conn.state != Disconnected
    ensures step == Tick(p) || (step.Recover? && step.p == p && Next(s, step).conn.state == Connected)
  {
  }

  /** While the indicator is Disconnected a probe goes on pinging until it is answered, and
      the answer clears the indicator and frees the claim, whatever others did meanwhile. */
  lemma AnswerRecovers(s: State, p: nat, now: nat)
    requires ProbeAt(s, p, Waiting) && s.conn.state == Disconnected
    ensures var pinging := Next(s, Tick(p));
      && ProbeAt(pinging, p, Pinging)
      && Next(pinging, Ping(p, false)) == s
      && var answered := Next(pinging, Ping(p, true));
      && Enabled(answered, Recover(p, now))
      && var told := Next(answered, Recover(p, now));
      && told.conn == Conn(Connected, now, s.conn.probing) && Enabled(told, Exit(p))
      && Next(told, Exit(p)).conn == Conn(Connected, now, false)
  {
    assert s.probes[p := Pinging][p := Waiting] == s.probes;
  }

  /** An answered probe reports Connected whatever happens before it does. */
  lemma AnswerIsReported(s: State, step: Step, p: nat)
    requires Enabled(s, step) && ProbeAt(s, p, Answered)
    ensures ProbeAt(Next(s, step), p, Answered) || (step.Recover? && step.p == p && Next(s, step).conn.state == Connected)
  {
  }

  // ---- Disconnected is watched, up to one race ---------------------------------------------------

  /** Something will look at the tracker again, or report Connected: a probe about to be
      started, or one that has not left its loop. */
  ghost predicate Watched(s: State) {
    exists h :: Holds(s, h) && !Departing(s, h)
  }

  predicate Departing(s: State, h: Holder) { h.ByProbe? && ProbeAt(s, h.p, Leaving) }

  ghost predicate Claiming(s: State) {
    exists k :: ChatAt(s, k, MustClaim)
  }

  /** Disconnected, and nothing but another Chat will ever clear it. */
  ghost predicate Stranded(s: State) {
    s.conn.state == Disconnected && !Watched(s) && !Claiming(s)
  }

  /** The race: the only pending claim is refused because of a probe that already left. */
  ghost predicate Missed(s: State, step: Step) {
    && step.Claim? && ChatAt(s, step.k, MustClaim)
    && s.conn.state == Disconnected
    && (exists h :: Holds(s, h) && Departing(s, h))
    && (forall k :: ChatAt(s, k, MustClaim) ==> k == step.k)
  }

  /** The tracker becomes stranded by that race and by no other step. */
  lemma StrandedExactlyBy(s: State, step: Step)
    requires Inv(s) && Enabled(s, step)
    ensures Stranded(Next(s, step)) <==> Missed(s, step) || (Stranded(s) && !step.Note?)
  {
    match step {
      case NewChat => Quiet(s, step);
      case Note(_, _, _) =>
      case Fail(k, _) => FailStrands(s, step);
      case Claim(k) => ClaimStrands(s, k);
      case Spawn(k) =>
        assert Holds(s, ByChat(k)) && !Departing(s, ByChat(k));
        assert Holds(Next(s, step), ByProbe(|s.probes|)) && !Departing(Next(s, step), ByProbe(|s.probes|));
      case Tick(p) => ProbeStrands(s, step);
      case Ping(p, _) => ProbeStrands(s, step);
      case Recover(p, _) => ProbeStrands(s, step);
      case Exit(p) => ExitStrands(s, p);
    }
  }

  lemma Quiet(s: State, step: Step)
    requires Enabled(s, step) && step.NewChat?
    ensures Stranded(Next(s, step)) <==> Stranded(s)
  {
    var t := Next(s, step);
    assert forall h :: Holds(t, h) == Holds(s, h) && Departing(t, h) == Departing(s, h);
    assert forall k :: ChatAt(t, k, MustClaim) == ChatAt(s, k, MustClaim);
  }

  lemma FailStrands(s: State, step: Step)
    requires Enabled(s, step) && step.Fail?
    ensures Stranded(Next(s, step)) <==> Stranded(s)
  {
    var t := Next(s, step);
    assert forall h :: Holds(t, h) == Holds(s, h) && Departing(t, h) == Departing(s, h);
    if s.conn.state == Disconnected {
      assert forall k :: ChatAt(t, k, MustClaim) == ChatAt(s, k, MustClaim);
    } else {
      assert ChatAt(t, step.k, MustClaim);
    }
  }

  lemma ClaimStrands(s: State, k: nat)
    requires Inv(s) && Enabled(s, Claim(k))
    ensures Stranded(Next(s, Claim(k))) <==> Missed(s, Claim(k))
    ensures !Stranded(s)
  {
    var t := Next(s, Claim(k));
    assert forall i :: ChatAt(t, i, MustClaim) <==> ChatAt(s, i, MustClaim) && i != k;
    if s.conn.probing {
      assert forall h :: Holds(t, h) == Holds(s, h) && Departing(t, h) == Departing(s, h);
    } else {
      assert Holds(t, ByChat(k)) && !Departing(t, ByChat(k));
    }
  }

  lemma ProbeStrands(s: State, step: Step)
    requires Enabled(s, step) && (step.Tick? || step.Ping? || step.Recover?)
    ensures !Stranded(s) && !Stranded(Next(s, step))
  {
    var h := ByProbe(step.p);
    assert Holds(s, h) && !Departing(s, h);
    assert s.conn.state == Disconnected && !step.Recover? ==> Holds(Next(s, step), h) && !Departing(Next(s, step), h);
  }

  lemma ExitStrands(s: State, p: nat)
    requires Inv(s) && Enabled(s, Exit(p))
    ensures Stranded(Next(s, Exit(p))) <==> Stranded(s)
  {
    var t := Next(s, Exit(p));
    assert Holds(s, ByProbe(p)) && Departing(s, ByProbe(p));
    assert forall h :: Holds(t, h) ==> Holds(s, h) && h != ByProbe(p);
    assert forall i :: ChatAt(t, i, MustClaim) == ChatAt(s, i, MustClaim);
  }

  /** Over whole runs: Disconnected is watched, or about to be claimed, unless a claim lost
      that race and no Chat has reported anything since; and then it is neither. */
  lemma {:induction false} WatchedUnlessMissed(steps: seq<Step>)
    requires Run(steps)
    ensures var s := After(steps);
      Stranded(s) <==> exists i :: MissedAt(steps, i)
    decreases |steps|
  {
    if steps != [] {
      var n := |steps| - 1;
      var s := After(steps[..n]);
      OneProbe(steps[..n]);
      WatchedUnlessMissed(steps[..n]);
      StrandedExactlyBy(s, steps[n]);
      if Missed(s, steps[n]) { assert MissedAt(steps, n); }
      forall i | 0 <= i < n ensures MissedAt(steps, i) <==> MissedAt(steps[..n], i) && !steps[n].Note? {
        MissedBefore(steps, i);
      }
      assert MissedAt(steps, n) <==> Missed(s, steps[n]);
    }
  }

  lemma MissedBefore(steps: seq<Step>, i: nat)
    requires Run(steps) && i < |steps| - 1
    ensures var n := |steps| - 1;
      MissedAt(steps, i) <==> MissedAt(steps[..n], i) && !steps[n].Note?
  {
    var front, n := steps[..|steps| - 1], |steps| - 1;
    assert Run(front);
    assert front[..i] == steps[..i] && front[i] == steps[i];
    RunsThenStops(steps, i);
    QuietBefore(steps, i);
  }

  predicate QuietAfter(steps: seq<Step>, i: int) {
    forall j :: 0 <= i < j < |steps| ==> !steps[j].Note?
  }

  lemma QuietBefore(steps: seq<Step>, i: nat)
    requires i < |steps| - 1
    ensures QuietAfter(steps, i) <==> QuietAfter(steps[..|steps| - 1], i) && !steps[|steps| - 1].Note?
  {
    var front := steps[..|steps| - 1];
    assert forall j :: i < j < |front| ==> front[j] == steps[j];
  }

  ghost predicate MissedAt(steps: seq<Step>, i: int)
    requires Run(steps)
  {
    && 0 <= i < |steps|
    && (RunsThenStops(steps, i); Missed(After(steps[..i]), steps[i]))
    && QuietAfter(steps, i)
  }

  lemma {:induction false} RunsThenStops(steps: seq<Step>, i: nat)
    requires Run(steps) && i <= |steps|
    ensures Run(steps[..i])
    decreases |steps|
  {
    if i == |steps| {
      assert steps[..i] == steps;
    } else {
      var n := |steps| - 1;
      RunsThenStops(steps[..n], i);
      assert steps[..n][..i] == steps[..i];
    }
  }

  lemma Then(steps: seq<Step>, step: Step)
    requires Run(steps) && Enabled(After(steps), step)
    ensures Run(steps + [step]) && After(steps + [step]) == Next(After(steps), step)
  {
    var more := steps + [step];
    assert more[..|more| - 1] == steps;
  }

  /** The race can happen, so Disconnected alone does not promise a live probe: a Chat gets
      through just before the probe looks, and another fails before the probe releases. */
  lemma RaceReachable()
    ensures exists steps :: Run(steps) && Stranded(After(steps))
  {
    var chats := StartChats();
    var probing := StartProbe(chats);
    var leaving := LeaveLoop(probing);
    var missed := LoseClaim(leaving);
    var s := After(missed);
    assert forall h :: Holds(s, h) ==> h == ByProbe(0);
    assert Stranded(s);
  }

  lemma LeaveLoop(probing: seq<Step>) returns (steps: seq<Step>)
    requires Run(probing) && After(probing) == State(Conn(Disconnected, 2, true), [Ended, Working, Working], [Waiting])
    ensures Run(steps) && After(steps) == State(Conn(Connected, 3, true), [Ended, Working, Working], [Leaving])
  {
    Then(probing, Note(1, true, 3));
    var connected := probing + [Note(1, true, 3)];
    Then(connected, Tick(0));
    steps := connected + [Tick(0)];
  }

  lemma LoseClaim(leaving: seq<Step>) returns (steps: seq<Step>)
    requires Run(leaving) && After(leaving) == State(Conn(Connected, 3, true), [Ended, Working, Working], [Leaving])
    ensures Run(steps) && After(steps) == State(Conn(Disconnected, 5, true), [Ended, Working, Ended], [Leaving])
  {
    Then(leaving, Note(2, false, 4));
    var retried := leaving + [Note(2, false, 4)];
    Then(retried, Fail(2, 5));
    var failed := retried + [Fail(2, 5)];
    Then(failed, Claim(2));
    steps := failed + [Claim(2)];
  }

  lemma StartChats() returns (steps: seq<Step>)
    ensures Run(steps) && After(steps) == State(FRESH, [Working, Working, Working], [])
  {
    Then([], NewChat);
    Then([] + [NewChat], NewChat);
    Then([] + [NewChat] + [NewChat], NewChat);
    steps := [] + [NewChat] + [NewChat] + [NewChat];
  }

  lemma StartProbe(chats: seq<Step>) returns (steps: seq<Step>)
    requires Run(chats) && After(chats) == State(FRESH, [Working, Working, Working], [])
    ensures Run(steps) && After(steps) == State(Conn(Disconnected, 2, true), [Ended, Working, Working], [Waiting])
  {
    Then(chats, Note(0, false, 1));
    var retried := chats + [Note(0, false, 1)];
    Then(retried, Fail(0, 2));
    var failed := retried + [Fail(0, 2)];
    Then(failed, Claim(0));
    var claimed := failed + [Claim(0)];
    Then(claimed, Spawn(0));
    steps := claimed + [Spawn(0)];
  }

  /** A failed Chat goes on to claim the probe exactly when it moved the indicator into
      Disconnected, and it leaves it there. */
  lemma ClaimsOnEdge(s: State, k: nat, now: nat)
    requires Enabled(s, Fail(k, now))
    ensures var t := Next(s, Fail(k, now));
      && t.conn.state == Disconnected
      && (ChatAt(t, k, MustClaim) <==> s.conn.state != Disconnected)
      && (ChatAt(t, k, Ended) <==> s.conn.state == Disconnected)
  {
  }

  /** Who moves the indicator, and where: a request that gets through or a probe's answer to
      Connected, one to be retried to Reconnecting, a failed Chat to Disconnected. */
  lemma IndicatorMoves(s: State, step: Step)
    requires Enabled(s, step)
    ensures var after := Next(s, step).conn.state;
      && (step.Note? ==> after == if step.reached then Connected else Reconnecting)
      && (step.Recover? ==> after == Connected)
      && (step.Fail? ==> after == Disconnected)
      && (!step.Note? && !step.Recover? && !step.Fail? ==> after == s.conn.state)
  {
  }
}
