/** The event loop of one streamed Chat (llm/openai.go): what it emits for a
    sequence of SSE payloads, stall timings and a way the stream ends. */
module ChatEvents {
  import opened Wrappers
  import opened LoopGuard
  import opened ToolCalls

  const FINISH_STALL := "stall"
  const FINISH_REPETITION := "repetition"
  const FINISH_REASONING_BUDGET := "reasoning_budget"

  datatype Choice = Choice(finishReason: string, reasoning: seq<Rune>, content: seq<Rune>, toolCalls: seq<Delta>)

  datatype Usage = Usage(prompt: int, completion: int, total: int, cached: int)

  /** One SSE payload: undecodable, or a chunk. */
  datatype Payload = Garbage | Chunk(choices: seq<Choice>, usage: Option<Usage>)

  datatype Fault = BadChunk | BadMerge | BrokenStream

  datatype Event =
    | ReasoningDelta(text: seq<Rune>)
    | TextDelta(text: seq<Rune>)
    | ToolCallComplete(calls: seq<Call>)
    | UsageReport(usage: Usage)
    | Error(fault: Fault)
    | Done(finishReason: string)

  /** budget <= 0 disables the reasoning budget. */
  datatype Config = Config(stallTimeout: bool, loopGuard: bool, budget: int, hash: seq<Rune> -> nat)

  /** The loop's variables, with the events emitted so far. */
  datatype Vars = Vars(events: seq<Event>, finishReason: string, acting: bool, reasoningRunes: nat,
                       usage: Option<Usage>, calls: Calls, det: Det)

  const START := Vars([], "", false, 0, None, map[], FRESH)

  datatype Outcome = Continue | Abort(reason: string) | Fail(fault: Fault)

  ghost function Guard(cfg: Config, v: Vars, text: seq<Rune>, reasoning: bool): (Vars, bool) {
    if !cfg.loopGuard then (v, false)
    else
      var (d, tripped) := if reasoning then AddReasoningSpec(cfg.hash, v.det, text) else AddSpec(v.det, text);
      (v.(det := d), tripped)
  }

  ghost function HandleReasoning(cfg: Config, v: Vars, ch: Choice): (Vars, Outcome) {
    if ch.reasoning == [] then (v, Continue) else
      var (w, tripped) := Guard(cfg, v.(events := v.events + [ReasoningDelta(ch.reasoning)]), ch.reasoning, true);
      if tripped then (w, Abort(FINISH_REPETITION))
      else if cfg.budget > 0 && !w.acting then
        var u := w.(reasoningRunes := w.reasoningRunes + |ch.reasoning|);
        (u, if u.reasoningRunes > cfg.budget then Abort(FINISH_REASONING_BUDGET) else Continue)
      else (w, Continue)
  }

  ghost function HandleContent(cfg: Config, v: Vars, ch: Choice): (Vars, Outcome) {
    if ch.content == [] then (v, Continue) else
      var (w, tripped) := Guard(cfg, v.(acting := true, events := v.events + [TextDelta(ch.content)]), ch.content, false);
      (w, if tripped then Abort(FINISH_REPETITION) else Continue)
  }

  ghost function HandleToolCalls(v: Vars, ch: Choice): (Vars, Outcome) {
    if ch.toolCalls == [] then (v, Continue) else
      var (calls, ok) := MergeAll(v.calls, ch.toolCalls);
      (v.(acting := true, calls := calls), if ok then Continue else Fail(BadMerge))
  }

  ghost function HandleChoice(cfg: Config, v: Vars, ch: Choice): (Vars, Outcome) {
    var v0 := if ch.finishReason != "" then v.(finishReason := ch.finishReason) else v;
    var (v1, o1) := HandleReasoning(cfg, v0, ch);
    if o1 != Continue then (v1, o1) else
      var (v2, o2) := HandleContent(cfg, v1, ch);
      if o2 != Continue then (v2, o2) else HandleToolCalls(v2, ch)
  }

  ghost function HandleChoices(cfg: Config, v: Vars, chs: seq<Choice>): (Vars, Outcome)
    decreases |chs|
  {
    if chs == [] then (v, Continue) else
      var (w, o) := HandleChoice(cfg, v, chs[0]);
      if o != Continue then (w, o) else HandleChoices(cfg, w, chs[1..])
  }

  /** The receive loop from payload i on. Before payload i (or the channel's close) the
      stream is silent past the stall timeout when i is in silences. */
  ghost function Receive(cfg: Config, v: Vars, payloads: seq<Payload>, silences: set<nat>, i: nat): (Vars, Outcome)
    requires i <= |payloads|
    decreases |payloads| - i
  {
    if cfg.stallTimeout && i > 0 && i in silences then (v, Abort(FINISH_STALL))
    else if i == |payloads| then (v, Continue)
    else match payloads[i]
      case Garbage => (v, Fail(BadChunk))
      case Chunk(choices, usage) =>
        var (w, o) := HandleChoices(cfg, v, choices);
        if o != Continue then (w, o)
        else Receive(cfg, if usage.Some? then w.(usage := usage) else w, payloads, silences, i + 1)
  }

  ghost function UsageEvents(u: Option<Usage>): seq<Event> {
    if u.Some? then [UsageReport(u.value)] else []
  }

  /** What follows the loop. */
  ghost function Conclude(v: Vars, o: Outcome, scanError: bool): seq<Event> {
    match o
    case Fail(fault) => v.events + [Error(fault)]
    case Abort(reason) => v.events + UsageEvents(v.usage) + [Done(reason)]
    case Continue =>
      if scanError then v.events + [Error(BrokenStream)]
      else
        var calls := FinalList(v.calls);
        if calls == [] then v.events + UsageEvents(v.usage) + [Done(v.finishReason)]
        else v.events + [ToolCallComplete(calls)] + UsageEvents(v.usage)
             + [Done(if v.finishReason == "" then "tool_calls" else v.finishReason)]
  }

  ghost function ChatSpec(cfg: Config, payloads: seq<Payload>, silences: set<nat>, scanError: bool): seq<Event> {
    var (v, o) := Receive(cfg, START, payloads, silences, 0);
    Conclude(v, o, scanError)
  }

  class ChatRun {
    const cfg: Config
    const acc: ToolCallAccumulator
    const detector: RepetitionDetector
    var events: seq<Event>
    var finishReason: string
    var aborted: bool
    var acting: bool
    var reasoningRunes: nat
    var lastUsage: Option<Usage>

    ghost predicate Valid() {
      detector.hash == cfg.hash
    }

    ghost function Abs(): Vars
      reads this, acc, detector
    {
      Vars(events, finishReason, acting, reasoningRunes, lastUsage, acc.calls, detector.Abs())
    }

    constructor (cfg: Config)
      ensures Valid() && Abs() == START && !aborted && this.cfg == cfg && fresh(acc) && fresh(detector)
    {
      this.cfg := cfg;
      acc := new ToolCallAccumulator();
      detector := new RepetitionDetector(cfg.hash);
      events, finishReason, aborted, acting, reasoningRunes, lastUsage := [], "", false, false, 0, None;
    }

    /** The first reason wins. */
    method AbortWith(reason: string)
      modifies this`aborted, this`finishReason
      ensures aborted && finishReason == if old(aborted) then old(finishReason) else reason
    {
      if aborted {
        return;
      }
      aborted := true;
      finishReason := reason;
    }

    /** (Abs(), outcome) is what the specification says, with an abort's reason recorded. */
    ghost predicate Reached(spec: (Vars, Outcome), o: Outcome)
      reads this, acc, detector
    {
      && o == spec.1 && aborted == o.Abort?
      && Abs() == if o.Abort? then spec.0.(finishReason := o.reason) else spec.0
    }

    method OnReasoning(ch: Choice) returns (o: Outcome)
      requires Valid() && !aborted
      modifies this, detector
      ensures Reached(HandleReasoning(cfg, old(Abs()), ch), o)
    {
      if ch.reasoning == [] {
        return Continue;
      }
      events := events + [ReasoningDelta(ch.reasoning)];
      if cfg.loopGuard {
        var tripped := detector.AddReasoning(ch.reasoning);
        if tripped {
          AbortWith(FINISH_REPETITION);
          return Abort(FINISH_REPETITION);
        }
      }
      if cfg.budget > 0 && !acting {
        reasoningRunes := reasoningRunes + |ch.reasoning|;
        if reasoningRunes > cfg.budget {
          AbortWith(FINISH_REASONING_BUDGET);
          return Abort(FINISH_REASONING_BUDGET);
        }
      }
      return Continue;
    }

    method OnContent(ch: Choice) returns (o: Outcome)
      requires Valid() && !aborted
      modifies this, detector
      ensures Reached(HandleContent(cfg, old(Abs()), ch), o)
    {
      if ch.content == [] {
        return Continue;
      }
      acting := true;
      events := events + [TextDelta(ch.content)];
      if cfg.loopGuard {
        var tripped := detector.Add(ch.content);
        if tripped {
          AbortWith(FINISH_REPETITION);
          return Abort(FINISH_REPETITION);
        }
      }
      return Continue;
    }

    method OneChoice(ch: Choice) returns (o: Outcome)
      requires Valid() && !aborted
      modifies this, acc, detector
      ensures Reached(HandleChoice(cfg, old(Abs()), ch), o)
    {
      if ch.finishReason != "" {
        finishReason := ch.finishReason;
      }
      o := OnReasoning(ch);
      if o != Continue {
        return;
      }
      o := OnContent(ch);
      if o != Continue {
        return;
      }
      if ch.toolCalls != [] {
        acting := true;
        var ok := acc.Merge(ch.toolCalls);
        if !ok {
          return Fail(BadMerge);
        }
      }
    }

    method Choices(chs: seq<Choice>) returns (o: Outcome)
      requires Valid() && !aborted
      modifies this, acc, detector
      ensures Reached(HandleChoices(cfg, old(Abs()), chs), o)
    {
      var k := 0;
      while k < |chs|
        invariant 0 <= k <= |chs| && !aborted
        invariant HandleChoices(cfg, old(Abs()), chs) == HandleChoices(cfg, Abs(), chs[k..])
      {
        assert chs[k..][0] == chs[k] && chs[k..][1..] == chs[k + 1..];
        o := OneChoice(chs[k]);
        if o != Continue {
          return;
        }
        k := k + 1;
      }
      return Continue;
    }

    /** The goroutine Chat starts once the request is accepted. */
    method Run(payloads: seq<Payload>, silences: set<nat>, scanError: bool)
      requires Valid() && !aborted && Abs() == START
      modifies this, acc, detector
      ensures events == ChatSpec(cfg, payloads, silences, scanError)
    {
      var i := 0;
      ghost var spec := Receive(cfg, START, payloads, silences, 0);
      while true
        invariant 0 <= i <= |payloads| && !aborted
        invariant spec == Receive(cfg, Abs(), payloads, silences, i)
        decreases |payloads| - i
      {
        var started := i > 0;
        if cfg.stallTimeout && started && i in silences {
          AbortWith(FINISH_STALL);
          break;
        }
        if i == |payloads| {
          break;
        }
        if payloads[i].Garbage? {
          events := events + [Error(BadChunk)];
          return;
        }
        var o := Choices(payloads[i].choices);
        if o.Fail? {
          events := events + [Error(o.fault)];
          return;
        }
        if o.Abort? {
          break;
        }
        if payloads[i].usage.Some? {
          lastUsage := payloads[i].usage;
        }
        i := i + 1;
      }
      if !aborted && scanError {
        events := events + [Error(BrokenStream)];
        return;
      }
      if !aborted {
        var calls := acc.Finalize();
        if |calls| > 0 {
          events := events + [ToolCallComplete(calls)];
          if finishReason == "" {
            finishReason := "tool_calls";
          }
        }
      }
      if lastUsage.Some? {
        events := events + [UsageReport(lastUsage.value)];
      }
      events := events + [Done(finishReason)];
    }
  }
}
