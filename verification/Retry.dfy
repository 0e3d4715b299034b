/** The two nested retry loops around one chat request (llm/openai.go). The network and
    the caller's context are oracles: what each request meets, and whether each wait is cut
    short by cancellation. Times are in milliseconds. */
module Retry {
  import opened Wrappers
  import Probe

  const MAX_CHAT_RETRIES := 2
  const DEFAULT_MAX_WAIT := 30000

  datatype Outcome = Response(status: int, retryAfter: nat) | TransportError | OtherError | Cancelled

  /** A response with its body open. */
  datatype Reply = Reply(status: int, retryAfter: nat)

  datatype Error = BadRequest | Transport | Other | ContextDone | Status(code: int, retryAfter: nat)

  datatype Env = Env(
    badUrl: bool,
    outcome: nat -> Outcome,       // what the n-th request meets
    cancelled: nat -> bool,        // whether the n-th wait is cut short
    backoff: nat -> nat,
    statusRetries: int,
    statusRetryMaxWait: int)

  datatype World = World(requests: nat, waits: nat, slept: nat, open: int, conn: Probe.ConnState)

  function DefaultBackoff(attempt: nat): nat {
    if attempt == 0 then 500 else if attempt == 1 then 1500 else 3000
  }

  predicate RetryableStatus(code: int) { code == 429 || code == 502 || code == 503 || code == 504 }

  function MaxWait(env: Env): int {
    if env.statusRetryMaxWait == 0 then DEFAULT_MAX_WAIT else env.statusRetryMaxWait
  }

  function Waited(w: World, ms: nat): World { w.(waits := w.waits + 1, slept := w.slept + ms) }

  /** One attempt of doChatRequest: the result it ends in, or none to go on. */
  function OneTry(env: Env, w: World, attempt: nat): (World, Option<Result<Reply, Error>>) {
    if env.badUrl then (w, Some(Err(BadRequest))) else
      var w1 := w.(requests := w.requests + 1);
      match env.outcome(w.requests)
      case Response(status, retryAfter) => (w1.(open := w1.open + 1), Some(Ok(Reply(status, retryAfter))))
      case Cancelled => (w1, Some(Err(ContextDone)))
      case OtherError => (w1, Some(Err(Other)))
      case TransportError =>
        var w2 := w1.(conn := Probe.Reconnecting);
        if attempt >= MAX_CHAT_RETRIES then (w2, Some(Err(Transport)))
        else (Waited(w2, env.backoff(attempt)), if env.cancelled(w2.waits) then Some(Err(ContextDone)) else None)
  }

  /** doChatRequest from a given attempt on. */
  function RequestSpec(env: Env, w: World, attempt: nat): (World, Result<Reply, Error>)
    requires attempt <= MAX_CHAT_RETRIES
    decreases MAX_CHAT_RETRIES - attempt
  {
    var (w', r) := OneTry(env, w, attempt);
    if r.Some? then (w', r.value) else RequestSpec(env, w', attempt + 1)
  }

  /** One attempt of doChatRequestRetryingStatus: the result it ends in, or none to go on. */
  function OneRound(env: Env, w: World, attempt: nat): (World, Option<Result<int, Error>>) {
    var (w1, r) := RequestSpec(env, w, 0);
    if r.Err? then (w1, Some(Err(r.error)))
    else
      var (status, retryAfter) := (r.value.status, r.value.retryAfter);
      var w2 := w1.(conn := Probe.Connected);
      if status <= 299 then (w2, Some(Ok(status))) else
        var w3 := w2.(open := w2.open - 1);
        if attempt >= env.statusRetries || !RetryableStatus(status) || retryAfter > MaxWait(env) then
          (w3, Some(Err(Status(status, retryAfter))))
        else
          (Waited(w3, if retryAfter == 0 then env.backoff(attempt) else retryAfter),
           if env.cancelled(w3.waits) then Some(Err(ContextDone)) else None)
  }

  /** The status retries left, never negative. */
  function RetriesLeft(env: Env, attempt: nat): nat {
    if attempt < env.statusRetries then env.statusRetries - attempt else 0
  }

  /** doChatRequestRetryingStatus from a given attempt on. */
  function StatusSpec(env: Env, w: World, attempt: nat): (World, Result<int, Error>)
    decreases RetriesLeft(env, attempt)
  {
    var (w', r) := OneRound(env, w, attempt);
    if r.Some? then (w', r.value) else StatusSpec(env, w', attempt + 1)
  }

  class Client {
    const env: Env
    var requests: nat
    var waits: nat
    var slept: nat
    var open: int
    var conn: Probe.ConnState

    ghost function Abs(): World
      reads this
    {
      World(requests, waits, slept, open, conn)
    }

    constructor (env: Env)
      ensures this.env == env && Abs() == World(0, 0, 0, 0, Probe.Connected)
    {
      this.env := env;
      requests, waits, slept, open, conn := 0, 0, 0, 0, Probe.Connected;
    }

    /** Sleeps, unless the context ends first. */
    method Wait(ms: nat) returns (ok: bool)
      modifies this
      ensures Abs() == Waited(old(Abs()), ms) && ok == !env.cancelled(old(waits))
    {
      ok := !env.cancelled(waits);
      waits, slept := waits + 1, slept + ms;
    }

    method TryOnce(attempt: nat) returns (r: Option<Result<Reply, Error>>)
      modifies this
      ensures (Abs(), r) == OneTry(env, old(Abs()), attempt)
    {
      if env.badUrl {
        return Some(Err(BadRequest));
      }
      var o := env.outcome(requests);
      requests := requests + 1;
      if o.Response? {
        open := open + 1;
        return Some(Ok(Reply(o.status, o.retryAfter)));
      }
      if o.Cancelled? {
        return Some(Err(ContextDone));
      }
      if o.OtherError? {
        return Some(Err(Other));
      }
      conn := Probe.Reconnecting;
      if attempt >= MAX_CHAT_RETRIES {
        return Some(Err(Transport));
      }
      var ok := Wait(env.backoff(attempt));
      return if ok then None else Some(Err(ContextDone));
    }

    method DoChatRequest() returns (r: Result<Reply, Error>)
      modifies this
      ensures (Abs(), r) == RequestSpec(env, old(Abs()), 0)
    {
      var attempt := 0;
      while true
        invariant 0 <= attempt <= MAX_CHAT_RETRIES
        invariant RequestSpec(env, old(Abs()), 0) == RequestSpec(env, Abs(), attempt)
        decreases MAX_CHAT_RETRIES - attempt
      {
        var o := TryOnce(attempt);
        if o.Some? {
          return o.value;
        }
        attempt := attempt + 1;
      }
    }

    method RoundOnce(attempt: nat) returns (r: Option<Result<int, Error>>)
      modifies this
      ensures (Abs(), r) == OneRound(env, old(Abs()), attempt)
    {
      var resp := DoChatRequest();
      if resp.Err? {
        return Some(Err(resp.error));
      }
      conn := Probe.Connected;
      var status, retryAfter := resp.value.status, resp.value.retryAfter;
      if status <= 299 {
        return Some(Ok(status));
      }
      open := open - 1;
      if attempt >= env.statusRetries || !RetryableStatus(status) {
        return Some(Err(Status(status, retryAfter)));
      }
      var maxWait := env.statusRetryMaxWait;
      if maxWait == 0 {
        maxWait := DEFAULT_MAX_WAIT;
      }
      if retryAfter > maxWait {
        return Some(Err(Status(status, retryAfter)));
      }
      var wait := retryAfter;
      if wait == 0 {
        wait := env.backoff(attempt);
      }
      var ok := Wait(wait);
      return if ok then None else Some(Err(ContextDone));
    }

    method DoChatRequestRetryingStatus() returns (r: Result<int, Error>)
      modifies this
      ensures (Abs(), r) == StatusSpec(env, old(Abs()), 0)
    {
      var attempt := 0;
      while true
        invariant attempt >= 0
        invariant StatusSpec(env, old(Abs()), 0) == StatusSpec(env, Abs(), attempt)
        decreases RetriesLeft(env, attempt)
      {
        var o := RoundOnce(attempt);
        if o.Some? {
          return o.value;
        }
        attempt := attempt + 1;
      }
    }
  }

  // ---- Bounds --------------------------------------------------------------------------------

  ghost predicate UsesDefaults(env: Env) { forall n: nat :: env.backoff(n) == DefaultBackoff(n) }

  ghost predicate AllTransport(env: Env, from: nat, to: nat) {
    forall n: nat :: from <= n < to ==> env.outcome(n) == TransportError
  }

  lemma TryBound(env: Env, w: World, attempt: nat)
    ensures var (w', r) := OneTry(env, w, attempt);
      && w.requests <= w'.requests <= w.requests + 1
      && w'.open == w.open + (if r.Some? && r.value.Ok? then 1 else 0)
      && (r.None? ==> attempt < MAX_CHAT_RETRIES && w'.slept == w.slept + env.backoff(attempt))
      && (r.None? || r.value == Err(Transport) ==> w'.requests == w.requests + 1 && env.outcome(w.requests) == TransportError && w'.conn == Probe.Reconnecting)
      && (r.Some? && r.value == Err(Transport) ==> attempt >= MAX_CHAT_RETRIES)
      && (r.Some? ==> w.slept <= w'.slept <= w.slept + if attempt < MAX_CHAT_RETRIES then env.backoff(attempt) else 0)
      && (r.Some? && r.value.Ok? ==> w'.requests == w.requests + 1)
      && (r.Some? && r.value.Ok? ==> env.outcome(w.requests) == Response(r.value.value.status, r.value.value.retryAfter))
  {
  }

  /** The wait that may still come inside one doChatRequest under the default backoff. */
  function WaitLeft(attempt: nat): nat { if attempt == 0 then 2000 else if attempt == 1 then 1500 else 0 }

  /** One doChatRequest: at most three requests and two seconds of waiting, a body open only
      if it succeeds, and a transport error only after transport errors on every attempt. */
  lemma {:induction false} RequestBound(env: Env, w: World, attempt: nat)
    requires attempt <= MAX_CHAT_RETRIES
    ensures var (w', r) := RequestSpec(env, w, attempt);
      && w.requests <= w'.requests <= w.requests + MAX_CHAT_RETRIES + 1 - attempt
      && w'.open == w.open + (if r.Ok? then 1 else 0)
      && (r.Ok? ==> w'.requests > 0 && env.outcome(w'.requests - 1) == Response(r.value.status, r.value.retryAfter))
      && (r.Ok? ==> w'.requests > w.requests)
      && (r == Err(Transport) ==> w'.conn == Probe.Reconnecting && AllTransport(env, w.requests, w'.requests))
      && (r == Err(Transport) ==> w'.requests == w.requests + MAX_CHAT_RETRIES + 1 - attempt)
      && (UsesDefaults(env) ==> w.slept <= w'.slept <= w.slept + WaitLeft(attempt))
      && (r.Err? ==> !r.error.Status?)
    decreases MAX_CHAT_RETRIES - attempt
  {
    TryBound(env, w, attempt);
    var (w1, r1) := OneTry(env, w, attempt);
    if r1.None? {
      RequestBound(env, w1, attempt + 1);
      assert UsesDefaults(env) ==> env.backoff(attempt) == DefaultBackoff(attempt);
    } else {
      assert UsesDefaults(env) ==> env.backoff(attempt) == DefaultBackoff(attempt);
    }
  }

  function LongestWait(env: Env): nat { if MaxWait(env) > 3000 then MaxWait(env) else 3000 }

  /** One round of the status loop. */
  lemma RoundBound(env: Env, w: World, attempt: nat)
    ensures var (w', r) := OneRound(env, w, attempt);
      && w.requests <= w'.requests <= w.requests + 3
      && w'.open == w.open + (if r.Some? && r.value.Ok? then 1 else 0)
      && (r.Some? && r.value.Ok? ==> r.value.value <= 299 && w'.conn == Probe.Connected)
      && (r.None? ==> attempt < env.statusRetries && w'.requests > w.requests)
      && (UsesDefaults(env) ==> w'.slept <= w.slept + 2000 + if attempt < env.statusRetries then LongestWait(env) else 0)
      && (r.Some? && r.value.Err? && r.value.error.Status? ==>
            && r.value.error.code > 299 && w'.requests > w.requests
            && env.outcome(w'.requests - 1) == Response(r.value.error.code, r.value.error.retryAfter)
            && (attempt >= env.statusRetries || !RetryableStatus(r.value.error.code) || r.value.error.retryAfter > MaxWait(env)))
  {
    RequestBound(env, w, 0);
    assert UsesDefaults(env) ==> env.backoff(attempt) == DefaultBackoff(attempt) <= LongestWait(env);
  }

  /** Requests and sleep of a status loop with n retries left. */
  ghost predicate Within(env: Env, w: World, n: nat, w': World) {
    && w.requests <= w'.requests <= w.requests + 3 * (n + 1)
    && (UsesDefaults(env) ==> w'.slept <= w.slept + n * LongestWait(env) + (n + 1) * 2000)
  }

  lemma WithinStep(env: Env, w: World, w1: World, n: nat, w': World)
    requires n >= 1 && w.requests <= w1.requests <= w.requests + 3
    requires UsesDefaults(env) ==> w1.slept <= w.slept + 2000 + LongestWait(env)
    requires Within(env, w1, n - 1, w')
    ensures Within(env, w, n, w')
  {
    assert n * LongestWait(env) == (n - 1) * LongestWait(env) + LongestWait(env);
  }

  lemma WithinOnce(env: Env, w: World, n: nat, w': World)
    requires w.requests <= w'.requests <= w.requests + 3
    requires UsesDefaults(env) ==> w'.slept <= w.slept + 2000 + if n > 0 then LongestWait(env) else 0
    ensures Within(env, w, n, w')
  {
    if n > 0 { assert n * LongestWait(env) >= LongestWait(env); }
  }

  /** One Chat: with R status retries at most 3 (R + 1) requests, and under the default
      backoff at most R max(cap, 3 s) + (R + 1) 2 s of sleep. It ends with exactly one open
      body on success and none on failure. */
  lemma {:induction false} ChatBound(env: Env, w: World, attempt: nat)
    ensures var (w', r) := StatusSpec(env, w, attempt);
      && Within(env, w, RetriesLeft(env, attempt), w')
      && w'.open == w.open + (if r.Ok? then 1 else 0)
      && (r.Ok? ==> r.value <= 299 && w'.conn == Probe.Connected)
    decreases RetriesLeft(env, attempt)
  {
    RoundBound(env, w, attempt);
    var n := RetriesLeft(env, attempt);
    var (w1, r1) := OneRound(env, w, attempt);
    if r1.None? {
      ChatBound(env, w1, attempt + 1);
      WithinStep(env, w, w1, n, StatusSpec(env, w1, attempt + 1).0);
    } else {
      WithinOnce(env, w, n, w1);
    }
  }

  /** When a status error is surfaced: it is the last response, it is not a success, and it
      is not worth retrying, or asks for more than the cap, or came after every retry. */
  lemma {:induction false} StatusSurfaced(env: Env, w: World, attempt: nat)
    ensures var (w', r) := StatusSpec(env, w, attempt);
      r.Err? && r.error.Status? ==>
        && r.error.code > 299 && w'.requests > 0
        && env.outcome(w'.requests - 1) == Response(r.error.code, r.error.retryAfter)
        && (!RetryableStatus(r.error.code) || r.error.retryAfter > MaxWait(env)
            || w'.requests >= w.requests + RetriesLeft(env, attempt) + 1)
    decreases RetriesLeft(env, attempt)
  {
    RoundBound(env, w, attempt);
    var (w1, r1) := OneRound(env, w, attempt);
    if r1.None? {
      StatusSurfaced(env, w1, attempt + 1);
    }
  }

  // ---- Exactly which requests and waits ------------------------------------------------------------

  /** The backoffs before attempts 1 to n. */
  function Backoffs(env: Env, n: nat): nat { if n == 0 then 0 else Backoffs(env, n - 1) + env.backoff(n - 1) }

  /** Attempts up to n met a transport error and were waited out. */
  ghost predicate TriedAgain(env: Env, w: World, n: nat) {
    forall k: nat :: k < n ==> MetTransport(env, w, k)
  }

  predicate MetTransport(env: Env, w: World, k: nat) {
    env.outcome(w.requests + k) == TransportError && !env.cancelled(w.waits + k)
  }

  /** The default waits: half a second, then one and a half, then three. */
  lemma DefaultWaits(env: Env)
    requires UsesDefaults(env)
    ensures Backoffs(env, 1) == 500 && Backoffs(env, 2) == 2000
    ensures forall n: nat :: n >= 2 ==> env.backoff(n) == 3000
  {
    assert Backoffs(env, 1) == Backoffs(env, 0) + env.backoff(0);
    assert Backoffs(env, 2) == Backoffs(env, 1) + env.backoff(1);
  }

  /** How doChatRequest ends at attempt n. */
  ghost predicate EndsAt(env: Env, w: World, n: nat, w': World, r: Result<Reply, Error>) {
    var conn := if n == 0 then w.conn else Probe.Reconnecting;
    var tried := World(w.requests + n + 1, w.waits + n, w.slept + Backoffs(env, n), w.open, conn);
    match env.outcome(w.requests + n)
    case Response(status, retryAfter) => r == Ok(Reply(status, retryAfter)) && w' == tried.(open := w.open + 1)
    case Cancelled => r == Err(ContextDone) && w' == tried
    case OtherError => r == Err(Other) && w' == tried
    case TransportError =>
      if n == 2 then r == Err(Transport) && w' == tried.(conn := Probe.Reconnecting)
      else env.cancelled(w.waits + n) && r == Err(ContextDone)
           && w' == tried.(waits := w.waits + n + 1, slept := w.slept + Backoffs(env, n + 1), conn := Probe.Reconnecting)
  }

  /** doChatRequest exactly: it tries again after transport errors only, at most twice, with
      the backoffs in between, and the attempt it ends at decides result and indicator. */
  lemma RequestExactly(env: Env, w: World) returns (n: nat)
    requires !env.badUrl
    ensures n <= 2 && TriedAgain(env, w, n)
    ensures var (w', r) := RequestSpec(env, w, 0); EndsAt(env, w, n, w', r)
  {
    n := 0;
    if MetTransport(env, w, 0) {
      n := 1;
      if MetTransport(env, w, 1) {
        n := 2;
      }
    }
    var w1 := OneTry(env, w, 0).0;
    var w2 := OneTry(env, w1, 1).0;
    assert Backoffs(env, 1) == Backoffs(env, 0) + env.backoff(0);
    assert Backoffs(env, 2) == Backoffs(env, 1) + env.backoff(1);
  }

  /** Every request is answered. */
  ghost predicate AllAnswered(env: Env) { !env.badUrl && forall n: nat :: env.outcome(n).Response? }

  /** The answer to request k is not worth another request. */
  ghost predicate Final(env: Env, k: nat)
    requires AllAnswered(env)
  {
    var (status, retryAfter) := (env.outcome(k).status, env.outcome(k).retryAfter);
    || status <= 299 || k >= env.statusRetries
    || (status != 429 && status != 502 && status != 503 && status != 504)
    || retryAfter > (if env.statusRetryMaxWait == 0 then 30000 else env.statusRetryMaxWait)
  }

  /** The waits after answers 0 to n - 1: what Retry-After asks for, else the backoff. */
  ghost function Pauses(env: Env, n: nat): nat
    requires AllAnswered(env)
  {
    if n == 0 then 0 else
      Pauses(env, n - 1) + if env.outcome(n - 1).retryAfter > 0 then env.outcome(n - 1).retryAfter else env.backoff(n - 1)
  }

  ghost predicate WaitedOut(env: Env, n: nat)
    requires AllAnswered(env)
  {
    forall k: nat :: k < n ==> !Final(env, k) && !env.cancelled(k)
  }

  /** What a run that waited out n answers has done so far. */
  ghost function AfterAnswers(env: Env, conn: Probe.ConnState, n: nat): World
    requires AllAnswered(env)
  {
    World(n, n, Pauses(env, n), 0, if n == 0 then conn else Probe.Connected)
  }

  /** How the status loop ends at answer n. */
  ghost predicate StopsAt(env: Env, n: nat, w': World, r: Result<int, Error>)
    requires AllAnswered(env)
  {
    var (status, retryAfter) := (env.outcome(n).status, env.outcome(n).retryAfter);
    && w'.requests == n + 1 && w'.conn == Probe.Connected
    && if !Final(env, n) then
         env.cancelled(n) && r == Err(ContextDone) && w'.waits == n + 1 && w'.slept == Pauses(env, n + 1) && w'.open == 0
       else
         && w'.waits == n && w'.slept == Pauses(env, n)
         && if status <= 299 then r == Ok(status) && w'.open == 1
            else r == Err(Status(status, retryAfter)) && w'.open == 0
  }

  /** The status loop exactly, when every request is answered: it asks again after each
      answer worth it, having waited what Retry-After asks or else the backoff, until the
      first final answer or a wait that is cut short. */
  lemma {:induction false} StatusExactly(env: Env, conn: Probe.ConnState, attempt: nat) returns (n: nat)
    requires AllAnswered(env) && WaitedOut(env, attempt)
    ensures n >= attempt && WaitedOut(env, n)
    ensures var (w', r) := StatusSpec(env, AfterAnswers(env, conn, attempt), attempt); StopsAt(env, n, w', r)
    decreases RetriesLeft(env, attempt)
  {
    var w := AfterAnswers(env, conn, attempt);
    AnsweredRound(env, w, attempt);
    if Final(env, attempt) || env.cancelled(attempt) {
      n := attempt;
    } else {
      n := StatusExactly(env, conn, attempt + 1);
    }
  }

  lemma AnsweredRound(env: Env, w: World, attempt: nat)
    requires AllAnswered(env) && w == AfterAnswers(env, w.conn, attempt)
    ensures var (w', r) := OneRound(env, w, attempt);
      if r.Some? then (Final(env, attempt) || env.cancelled(attempt)) && StopsAt(env, attempt, w', r.value)
      else !Final(env, attempt) && !env.cancelled(attempt) && w' == AfterAnswers(env, w.conn, attempt + 1)
  {
    assert env.outcome(w.requests).Response?;
  }

  /** An error that doChatRequest returns ends the status loop with that error at once. */
  lemma ErrorPassesThrough(env: Env, w: World, attempt: nat)
    requires RequestSpec(env, w, 0).1.Err?
    ensures StatusSpec(env, w, attempt) == (RequestSpec(env, w, 0).0, Err(RequestSpec(env, w, 0).1.error))
  {
  }

  /** A request that cannot be built is not sent, and changes nothing. */
  lemma BadUrlSendsNothing(env: Env, w: World, attempt: nat)
    requires env.badUrl
    ensures StatusSpec(env, w, attempt) == (w, Err(BadRequest))
  {
  }
}
