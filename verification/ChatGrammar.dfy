/** When a Chat run stops early, and what it has said by then: the loop against a
    description with no loop variables, over the stream taken apart into items. */
module ChatGrammar {
  import opened Wrappers
  import opened LoopGuard
  import opened ToolCalls
  import opened ChatEvents

  datatype Item =
    | Silence                      // longer than the stall timeout, between payloads
    | Bad                          // a payload that cannot be decoded
    | Reason(reason: string)
    | Think(text: seq<Rune>)
    | Say(text: seq<Rune>)
    | Tools(deltas: seq<Delta>)
    | Heard(usage: Usage)

  function ReasonItems(ch: Choice): seq<Item> { if ch.finishReason != "" then [Reason(ch.finishReason)] else [] }

  function ThinkItems(ch: Choice): seq<Item> { if ch.reasoning != [] then [Think(ch.reasoning)] else [] }

  function SayItems(ch: Choice): seq<Item> { if ch.content != [] then [Say(ch.content)] else [] }

  function ToolItems(ch: Choice): seq<Item> { if ch.toolCalls != [] then [Tools(ch.toolCalls)] else [] }

  function ItemsOfChoice(ch: Choice): seq<Item> {
    ReasonItems(ch) + (ThinkItems(ch) + (SayItems(ch) + ToolItems(ch)))
  }

  function ItemsOfChoices(chs: seq<Choice>): seq<Item> {
    if chs == [] then [] else ItemsOfChoice(chs[0]) + ItemsOfChoices(chs[1..])
  }

  function ItemsOfPayload(p: Payload): seq<Item> {
    match p
    case Garbage => [Bad]
    case Chunk(choices, usage) => ItemsOfChoices(choices) + if usage.Some? then [Heard(usage.value)] else []
  }

  /** The stream from payload i on; the wait for the first payload is never a silence. */
  function ItemsFrom(payloads: seq<Payload>, silences: set<nat>, i: nat): seq<Item>
    requires i <= |payloads|
    decreases |payloads| - i
  {
    (if i > 0 && i in silences then [Silence] else [])
    + if i == |payloads| then [] else ItemsOfPayload(payloads[i]) + ItemsFrom(payloads, silences, i + 1)
  }

  // ---- The description -------------------------------------------------------------------------

  function Emitted(items: seq<Item>): seq<Event> {
    if items == [] then [] else
      var n := |items| - 1;
      Emitted(items[..n]) +
        match items[n] case Think(t) => [ReasoningDelta(t)] case Say(t) => [TextDelta(t)] case _ => []
  }

  predicate Acting(items: seq<Item>) { exists x :: x in items && (x.Say? || x.Tools?) }

  function ThinkRunes(items: seq<Item>): nat {
    if items == [] then 0 else
      var n := |items| - 1;
      ThinkRunes(items[..n]) + if items[n].Think? then |items[n].text| else 0
  }

  /** The detector fed every fragment so far. */
  ghost function Fed(cfg: Config, items: seq<Item>): Det {
    if items == [] || !cfg.loopGuard then FRESH else
      var n := |items| - 1;
      var d := Fed(cfg, items[..n]);
      match items[n]
      case Think(t) => AddReasoningSpec(cfg.hash, d, t).0
      case Say(t) => AddSpec(d, t).0
      case _ => d
  }

  function ToolDeltas(items: seq<Item>): seq<Delta> {
    if items == [] then [] else
      var n := |items| - 1;
      ToolDeltas(items[..n]) + if items[n].Tools? then items[n].deltas else []
  }

  function LastUsage(items: seq<Item>): Option<Usage> {
    if items == [] then None else
      var n := |items| - 1;
      if items[n].Heard? then Some(items[n].usage) else LastUsage(items[..n])
  }

  function LastReason(items: seq<Item>): string {
    if items == [] then "" else
      var n := |items| - 1;
      if items[n].Reason? then items[n].reason else LastReason(items[..n])
  }

  /** What item x does to a run that has heard the items before it. */
  ghost function Stop(cfg: Config, before: seq<Item>, x: Item): Outcome {
    match x
    case Silence => if cfg.stallTimeout then Abort("stall") else Continue
    case Bad => Fail(BadChunk)
    case Think(t) =>
      if cfg.loopGuard && AddReasoningSpec(cfg.hash, Fed(cfg, before), t).1 then Abort("repetition")
      else if cfg.budget > 0 && !Acting(before) && ThinkRunes(before) + |t| > cfg.budget then Abort("reasoning_budget")
      else Continue
    case Say(t) =>
      if cfg.loopGuard && AddSpec(Fed(cfg, before), t).1 then Abort("repetition") else Continue
    case Tools(ds) => if Renderable(ds) then Continue else Fail(BadMerge)
    case _ => Continue
  }

  function Reported(usage: Option<Usage>): seq<Event> {
    match usage case None => [] case Some(u) => [UsageReport(u)]
  }

  /** The end of a run that heard everything. */
  ghost function CleanEnd(items: seq<Item>): seq<Event> {
    var calls, usage, reason := Reassembled(ToolDeltas(items)), Reported(LastUsage(items)), LastReason(items);
    if calls == [] then usage + [Done(reason)]
    else [ToolCallComplete(calls)] + (usage + [Done(if reason == "" then "tool_calls" else reason)])
  }

  /** Everything a run emits, given that item n is the first to stop it, or that none does. */
  ghost function Described(cfg: Config, items: seq<Item>, n: nat, scanError: bool): seq<Event>
    requires n <= |items|
  {
    if n == |items| then Emitted(items) + (if scanError then [Error(BrokenStream)] else CleanEnd(items))
    else Emitted(items[..n + 1]) + EarlyEnd(Stop(cfg, items[..n], items[n]), LastUsage(items[..n]))
  }

  ghost function EarlyEnd(o: Outcome, usage: Option<Usage>): seq<Event> {
    match o
    case Fail(f) => [Error(f)]
    case Abort(r) => Reported(usage) + [Done(r)]
    case Continue => []
  }

  ghost predicate FirstStop(cfg: Config, items: seq<Item>, n: nat)
    requires n <= |items|
  {
    HearsFirst(cfg, items, n) && (n < |items| ==> Stop(cfg, items[..n], items[n]) != Continue)
  }

  /** None of the first n items stops the run. */
  ghost predicate HearsFirst(cfg: Config, items: seq<Item>, n: nat)
    requires n <= |items|
  {
    forall k :: 0 <= k < n ==> Stop(cfg, items[..k], items[k]) == Continue
  }

  // ---- The loop, item by item --------------------------------------------------------------------

  ghost function Step(cfg: Config, v: Vars, x: Item): (Vars, Outcome) {
    match x
    case Silence => (v, if cfg.stallTimeout then Abort(FINISH_STALL) else Continue)
    case Bad => (v, Fail(BadChunk))
    case Reason(r) => (v.(finishReason := r), Continue)
    case Think(t) => HandleReasoning(cfg, v, Choice("", t, [], []))
    case Say(t) => HandleContent(cfg, v, Choice("", [], t, []))
    case Tools(ds) => HandleToolCalls(v, Choice("", [], [], ds))
    case Heard(u) => (v.(usage := Some(u)), Continue)
  }

  ghost function Steps(cfg: Config, v: Vars, items: seq<Item>): (Vars, Outcome)
    decreases |items|
  {
    if items == [] then (v, Continue) else
      var (w, o) := Step(cfg, v, items[0]);
      if o != Continue then (w, o) else Steps(cfg, w, items[1..])
  }

  lemma {:induction false} StepsConcat(cfg: Config, v: Vars, a: seq<Item>, b: seq<Item>)
    ensures Steps(cfg, v, a + b) ==
      if Steps(cfg, v, a).1 == Continue then Steps(cfg, Steps(cfg, v, a).0, b) else Steps(cfg, v, a)
    decreases |a|
  {
    if a == [] {
      assert a + b == b;
    } else {
      assert (a + b)[1..] == a[1..] + b && (a + b)[0] == a[0];
      StepsConcat(cfg, Step(cfg, v, a[0]).0, a[1..], b);
    }
  }

  lemma StepsOne(cfg: Config, v: Vars, x: Item)
    ensures Steps(cfg, v, [x]) == Step(cfg, v, x)
  {
    assert [x][1..] == [];
  }

  /** What an optional item in front of the rest does. */
  lemma Optional(cfg: Config, v: Vars, present: bool, x: Item, rest: seq<Item>)
    ensures Steps(cfg, v, (if present then [x] else []) + rest) ==
      if !present then Steps(cfg, v, rest)
      else if Step(cfg, v, x).1 != Continue then Step(cfg, v, x)
      else Steps(cfg, Step(cfg, v, x).0, rest)
  {
    if present {
      StepsConcat(cfg, v, [x], rest);
      StepsOne(cfg, v, x);
    } else {
      assert [] + rest == rest;
    }
  }

  lemma ChoiceSteps(cfg: Config, v: Vars, ch: Choice)
    ensures HandleChoice(cfg, v, ch) == Steps(cfg, v, ItemsOfChoice(ch))
  {
    var rest := ThinkItems(ch) + (SayItems(ch) + ToolItems(ch));
    Optional(cfg, v, ch.finishReason != "", Reason(ch.finishReason), rest);
    ThoughtSteps(cfg, if ch.finishReason != "" then v.(finishReason := ch.finishReason) else v, ch);
  }

  ghost function AfterReason(cfg: Config, v: Vars, ch: Choice): (Vars, Outcome) {
    var (w, o) := HandleReasoning(cfg, v, ch);
    if o != Continue then (w, o) else AfterThought(cfg, w, ch)
  }

  ghost function AfterThought(cfg: Config, v: Vars, ch: Choice): (Vars, Outcome) {
    var (w, o) := HandleContent(cfg, v, ch);
    if o != Continue then (w, o) else HandleToolCalls(w, ch)
  }

  lemma ThoughtSteps(cfg: Config, v: Vars, ch: Choice)
    ensures Steps(cfg, v, ThinkItems(ch) + (SayItems(ch) + ToolItems(ch))) == AfterReason(cfg, v, ch)
  {
    Optional(cfg, v, ch.reasoning != [], Think(ch.reasoning), SayItems(ch) + ToolItems(ch));
    AnswerSteps(cfg, HandleReasoning(cfg, v, ch).0, ch);
  }

  lemma AnswerSteps(cfg: Config, v: Vars, ch: Choice)
    ensures Steps(cfg, v, SayItems(ch) + ToolItems(ch)) == AfterThought(cfg, v, ch)
  {
    Optional(cfg, v, ch.content != [], Say(ch.content), ToolItems(ch));
    ToolSteps(cfg, HandleContent(cfg, v, ch).0, ch);
  }

  lemma ToolSteps(cfg: Config, v: Vars, ch: Choice)
    ensures Steps(cfg, v, ToolItems(ch)) == HandleToolCalls(v, ch)
  {
    StepsOne(cfg, v, Tools(ch.toolCalls));
  }

  lemma {:induction false} ChoicesSteps(cfg: Config, v: Vars, chs: seq<Choice>)
    ensures HandleChoices(cfg, v, chs) == Steps(cfg, v, ItemsOfChoices(chs))
    decreases |chs|
  {
    if chs != [] {
      ChoiceSteps(cfg, v, chs[0]);
      StepsConcat(cfg, v, ItemsOfChoice(chs[0]), ItemsOfChoices(chs[1..]));
      ChoicesSteps(cfg, HandleChoice(cfg, v, chs[0]).0, chs[1..]);
    }
  }

  lemma {:induction false} ReceiveSteps(cfg: Config, v: Vars, payloads: seq<Payload>, silences: set<nat>, i: nat)
    requires i <= |payloads|
    ensures Receive(cfg, v, payloads, silences, i) == Steps(cfg, v, ItemsFrom(payloads, silences, i))
    decreases |payloads| - i
  {
    var quiet := if i > 0 && i in silences then [Silence] else [];
    StepsOne(cfg, v, Silence);
    if i == |payloads| {
      assert quiet + [] == quiet;
    } else {
      var p, more := ItemsOfPayload(payloads[i]), ItemsFrom(payloads, silences, i + 1);
      StepsConcat(cfg, v, quiet, p + more);
      StepsConcat(cfg, v, p, more);
      if payloads[i].Garbage? {
        StepsOne(cfg, v, Bad);
      } else {
        PayloadSteps(cfg, v, payloads[i].choices, payloads[i].usage);
        ReceiveSteps(cfg, Steps(cfg, v, p).0, payloads, silences, i + 1);
      }
    }
  }

  lemma PayloadSteps(cfg: Config, v: Vars, chs: seq<Choice>, usage: Option<Usage>)
    ensures var (w, o) := HandleChoices(cfg, v, chs);
      Steps(cfg, v, ItemsOfPayload(Chunk(chs, usage))) ==
        if o == Continue then (if usage.Some? then w.(usage := usage) else w, Continue) else (w, o)
  {
    ChoicesSteps(cfg, v, chs);
    var heard := if usage.Some? then [Heard(usage.value)] else [];
    StepsConcat(cfg, v, ItemsOfChoices(chs), heard);
    if usage.Some? {
      StepsOne(cfg, HandleChoices(cfg, v, chs).0, Heard(usage.value));
    }
  }

  lemma {:induction false} MergeConcat(m: Calls, ds: seq<Delta>, es: seq<Delta>)
    ensures MergeAll(m, ds + es) == if MergeAll(m, ds).1 then MergeAll(MergeAll(m, ds).0, es) else MergeAll(m, ds)
    decreases |ds|
  {
    if ds == [] {
      assert ds + es == es;
    } else {
      assert (ds + es)[1..] == ds[1..] + es && (ds + es)[0] == ds[0];
      if MergeOne(m, ds[0]).1 {
        MergeConcat(MergeOne(m, ds[0]).0, ds[1..], es);
      }
    }
  }

  lemma {:induction false} MergeOkIff(m: Calls, ds: seq<Delta>)
    ensures MergeAll(m, ds).1 <==> Renderable(ds)
    decreases |ds|
  {
    if ds != [] {
      assert ds[0] in ds && forall d :: d in ds <==> d == ds[0] || d in ds[1..];
      MergeOkIff(MergeOne(m, ds[0]).0, ds[1..]);
    }
  }

  lemma Extends(a: seq<Event>, b: seq<Event>, c: seq<Event>)
    ensures (a + b) + c == a + (b + c) && a + b <= a + (b + c)
  {
  }

  // ---- The loop variables are what the description says ------------------------------------------

  ghost predicate Describes(cfg: Config, items: seq<Item>, v: Vars) {
    && v.events == Emitted(items)
    && v.acting == Acting(items)
    && v.det == Fed(cfg, items)
    && v.usage == LastUsage(items)
    && v.finishReason == LastReason(items)
    && MergeAll(map[], ToolDeltas(items)) == (v.calls, true)
    && (cfg.budget > 0 && !v.acting ==> v.reasoningRunes == ThinkRunes(items))
  }

  lemma ActingSnoc(items: seq<Item>, x: Item)
    ensures Acting(items + [x]) <==> Acting(items) || x.Say? || x.Tools?
  {
    if Acting(items) {
      var y :| y in items && (y.Say? || y.Tools?);
      assert y in items + [x];
    }
    assert x in items + [x];
  }

  /** One item: its event is emitted even when it stops the run, and otherwise the
      description goes on. */
  lemma StepDescribes(cfg: Config, items: seq<Item>, v: Vars, x: Item)
    requires Describes(cfg, items, v)
    requires x.Think? || x.Say? ==> x.text != []
    requires x.Tools? ==> x.deltas != []
    ensures var (w, o) := Step(cfg, v, x);
      && w.events == Emitted(items + [x])
      && (o.Abort? ==> w.usage == v.usage)
      && (o == Continue ==> Describes(cfg, items + [x], w))
  {
    if x.Tools? {
      ToolsDescribe(cfg, items, v, x);
    } else if x.Think? {
      ThinkDescribes(cfg, items, v, x);
    } else if x.Say? {
      SayDescribes(cfg, items, v, x);
    } else {
      Snoc(items, x);
      FedSnoc(cfg, items, x);
    }
  }

  lemma ToolsDescribe(cfg: Config, items: seq<Item>, v: Vars, x: Item)
    requires Describes(cfg, items, v) && x.Tools? && x.deltas != []
    ensures var (w, o) := Step(cfg, v, x);
      && w.events == Emitted(items + [x]) && !o.Abort?
      && (o == Continue ==> Describes(cfg, items + [x], w))
  {
    Snoc(items, x);
    FedSnoc(cfg, items, x);
    MergeConcat(map[], ToolDeltas(items), x.deltas);
  }

  lemma ThinkDescribes(cfg: Config, items: seq<Item>, v: Vars, x: Item)
    requires Describes(cfg, items, v) && x.Think? && x.text != []
    ensures var (w, o) := Step(cfg, v, x);
      && w.events == Emitted(items + [x]) && w.usage == v.usage
      && (o == Continue ==> Describes(cfg, items + [x], w))
  {
    var (w, o) := Step(cfg, v, x);
    ThinkMoves(cfg, v, x);
    Snoc(items, x);
    if o == Continue {
      FedSnoc(cfg, items, x);
      ThinkKeeps(cfg, items, v, x, w);
    }
  }

  /** A reasoning fragment emits its event and moves the detector and the count. */
  ghost predicate Thought(cfg: Config, v: Vars, x: Item, w: Vars)
    requires x.Think?
  {
    && w == v.(events := v.events + [ReasoningDelta(x.text)], det := w.det, reasoningRunes := w.reasoningRunes)
    && w.det == (if cfg.loopGuard then AddReasoningSpec(cfg.hash, v.det, x.text).0 else v.det)
    && (cfg.budget > 0 && !v.acting ==> w.reasoningRunes == v.reasoningRunes + |x.text|)
  }

  lemma ThinkMoves(cfg: Config, v: Vars, x: Item)
    requires x.Think? && x.text != []
    ensures var (w, o) := Step(cfg, v, x);
      && w.events == v.events + [ReasoningDelta(x.text)] && w.usage == v.usage
      && (o == Continue ==> Thought(cfg, v, x, w))
  {
  }

  lemma ThinkKeeps(cfg: Config, items: seq<Item>, v: Vars, x: Item, w: Vars)
    requires Describes(cfg, items, v) && x.Think? && Thought(cfg, v, x, w)
    requires Fed(cfg, items + [x]) == w.det
    ensures Describes(cfg, items + [x], w)
  {
    Snoc(items, x);
  }

  lemma SayDescribes(cfg: Config, items: seq<Item>, v: Vars, x: Item)
    requires Describes(cfg, items, v) && x.Say? && x.text != []
    ensures var (w, o) := Step(cfg, v, x);
      && w.events == Emitted(items + [x]) && w.usage == v.usage
      && (o == Continue ==> Describes(cfg, items + [x], w))
  {
    Snoc(items, x);
    FedSnoc(cfg, items, x);
  }

  /** The description after one more item. */
  lemma Snoc(items: seq<Item>, x: Item)
    ensures var more := items + [x];
      && Emitted(more) == (if x.Think? then Emitted(items) + [ReasoningDelta(x.text)] else if x.Say? then Emitted(items) + [TextDelta(x.text)] else Emitted(items))
      && Acting(more) == (Acting(items) || x.Say? || x.Tools?)
      && ThinkRunes(more) == ThinkRunes(items) + (if x.Think? then |x.text| else 0)
      && ToolDeltas(more) == (if x.Tools? then ToolDeltas(items) + x.deltas else ToolDeltas(items))
      && LastUsage(more) == (if x.Heard? then Some(x.usage) else LastUsage(items))
      && LastReason(more) == (if x.Reason? then x.reason else LastReason(items))
  {
    assert (items + [x])[..|items|] == items;
    ActingSnoc(items, x);
    assert ToolDeltas(items) + [] == ToolDeltas(items) && Emitted(items) + [] == Emitted(items);
  }

  lemma FedSnoc(cfg: Config, items: seq<Item>, x: Item)
    ensures var d := Fed(cfg, items);
      Fed(cfg, items + [x]) ==
        if !cfg.loopGuard then FRESH
        else if x.Think? then AddReasoningSpec(cfg.hash, d, x.text).0
        else if x.Say? then AddSpec(d, x.text).0
        else d
  {
    assert (items + [x])[..|items|] == items;
  }

  /** Its outcome is what the description says of it. */
  lemma StepStops(cfg: Config, items: seq<Item>, v: Vars, x: Item)
    requires Describes(cfg, items, v)
    requires x.Think? || x.Say? ==> x.text != []
    requires x.Tools? ==> x.deltas != []
    ensures Step(cfg, v, x).1 == Stop(cfg, items, x)
  {
    if x.Tools? { MergeOkIff(v.calls, x.deltas); }
  }

  ghost predicate Solid(items: seq<Item>) {
    forall x :: x in items ==> (x.Think? || x.Say? ==> x.text != []) && (x.Tools? ==> x.deltas != [])
  }

  lemma SolidConcat(a: seq<Item>, b: seq<Item>)
    requires Solid(a) && Solid(b)
    ensures Solid(a + b)
  {
  }

  lemma ChoiceSolid(ch: Choice)
    ensures Solid(ItemsOfChoice(ch))
  {
    SolidConcat(SayItems(ch), ToolItems(ch));
    SolidConcat(ThinkItems(ch), SayItems(ch) + ToolItems(ch));
    SolidConcat(ReasonItems(ch), ThinkItems(ch) + (SayItems(ch) + ToolItems(ch)));
  }

  lemma {:induction false} ChoicesSolid(chs: seq<Choice>)
    ensures Solid(ItemsOfChoices(chs))
  {
    if chs != [] {
      ChoiceSolid(chs[0]);
      ChoicesSolid(chs[1..]);
      SolidConcat(ItemsOfChoice(chs[0]), ItemsOfChoices(chs[1..]));
    }
  }

  lemma PayloadSolid(p: Payload)
    ensures Solid(ItemsOfPayload(p))
  {
    if p.Chunk? {
      ChoicesSolid(p.choices);
      SolidConcat(ItemsOfChoices(p.choices), if p.usage.Some? then [Heard(p.usage.value)] else []);
    }
  }

  lemma {:induction false} StreamSolid(payloads: seq<Payload>, silences: set<nat>, i: nat)
    requires i <= |payloads|
    ensures Solid(ItemsFrom(payloads, silences, i))
    decreases |payloads| - i
  {
    var quiet := if i > 0 && i in silences then [Silence] else [];
    if i < |payloads| {
      var p, more := ItemsOfPayload(payloads[i]), ItemsFrom(payloads, silences, i + 1);
      StreamSolid(payloads, silences, i + 1);
      PayloadSolid(payloads[i]);
      SolidConcat(p, more);
      SolidConcat(quiet, p + more);
    }
  }

  /** How the loop ends when item n is the first to stop it, or none does. */
  ghost predicate EndsAt(cfg: Config, items: seq<Item>, n: nat, w: Vars, o: Outcome)
    requires n <= |items|
  {
    if n == |items| then o == Continue && Describes(cfg, items, w)
    else o == Stop(cfg, items[..n], items[n]) && w.events == Emitted(items[..n + 1])
         && (o.Abort? ==> w.usage == LastUsage(items[..n]))
  }

  /** One item of the stream, from a described state. */
  lemma StepAt(cfg: Config, items: seq<Item>, m: nat, v: Vars)
    requires m < |items| && Solid(items) && Describes(cfg, items[..m], v)
    ensures var (w, o) := Step(cfg, v, items[m]);
      && o == Stop(cfg, items[..m], items[m])
      && Steps(cfg, v, items[m..]) == (if o == Continue then Steps(cfg, w, items[m + 1..]) else (w, o))
      && (if o == Continue then Describes(cfg, items[..m + 1], w) else EndsAt(cfg, items, m, w, o))
  {
    var x := items[m];
    assert x in items && items[..m + 1] == items[..m] + [x] && items[m..][1..] == items[m + 1..];
    StepDescribes(cfg, items[..m], v, x);
    StepStops(cfg, items[..m], v, x);
  }

  /** From a described state after m items the loop reaches the first stop, or the end. */
  lemma {:induction false} StepsToFirst(cfg: Config, items: seq<Item>, m: nat, v: Vars) returns (n: nat)
    requires m <= |items| && Solid(items) && Describes(cfg, items[..m], v) && HearsFirst(cfg, items, m)
    ensures n <= |items| && FirstStop(cfg, items, n)
    ensures var (w, o) := Steps(cfg, v, items[m..]); EndsAt(cfg, items, n, w, o)
    decreases |items| - m
  {
    if m == |items| {
      assert items[..m] == items;
      n := m;
    } else {
      StepAt(cfg, items, m, v);
      if Stop(cfg, items[..m], items[m]) == Continue {
        n := StepsToFirst(cfg, items, m + 1, Step(cfg, v, items[m]).0);
      } else {
        n := m;
      }
    }
  }

  /** Every run, exactly: it emits the deltas up to and including the first item that a
      guard, a silence or a malformed payload stops it at, then that item's ending; or,
      when nothing stops it, all of them and the clean or broken end. */
  lemma RunsToFirstStop(cfg: Config, payloads: seq<Payload>, silences: set<nat>, scanError: bool) returns (n: nat)
    ensures var items := ItemsFrom(payloads, silences, 0);
      n <= |items| && FirstStop(cfg, items, n)
      && ChatSpec(cfg, payloads, silences, scanError) == Described(cfg, items, n, scanError)
  {
    var items := ItemsFrom(payloads, silences, 0);
    ReceiveSteps(cfg, START, payloads, silences, 0);
    StreamSolid(payloads, silences, 0);
    assert items[..0] == [] && items[0..] == items;
    n := StepsToFirst(cfg, items, 0, START);
    var (v, o) := Receive(cfg, START, payloads, silences, 0);
    if n == |items| {
      ConcludesCleanly(cfg, items, v, scanError);
    } else if o.Abort? {
      Extends(v.events, UsageEvents(v.usage), [Done(o.reason)]);
    }
  }

  lemma ConcludesCleanly(cfg: Config, items: seq<Item>, v: Vars, scanError: bool)
    requires Describes(cfg, items, v)
    ensures Conclude(v, Continue, scanError) == Emitted(items) + if scanError then [Error(BrokenStream)] else CleanEnd(items)
  {
    MergeOkIff(map[], ToolDeltas(items));
    FinalizeMeans(ToolDeltas(items));
    var u, calls := UsageEvents(v.usage), FinalList(v.calls);
    if calls == [] {
      Extends(v.events, u, [Done(v.finishReason)]);
    } else {
      var done := [Done(if v.finishReason == "" then "tool_calls" else v.finishReason)];
      Extends(v.events, [ToolCallComplete(calls)], u);
      Extends(v.events, [ToolCallComplete(calls)] + u, done);
      Extends([ToolCallComplete(calls)], u, done);
    }
  }

  // ---- What follows ------------------------------------------------------------------------------

  predicate IsDelta(e: Event) { e.ReasoningDelta? || e.TextDelta? }

  /** The endings: one error; or at most one tool-call event, at most one usage, one Done. */
  predicate Ending(t: seq<Event>) {
    || (|t| == 1 && (t[0].Error? || t[0].Done?))
    || (|t| == 2 && (t[0].UsageReport? || t[0].ToolCallComplete?) && t[1].Done?)
    || (|t| == 3 && t[0].ToolCallComplete? && t[1].UsageReport? && t[2].Done?)
  }

  lemma {:induction false} EmittedAreDeltas(items: seq<Item>)
    ensures forall e :: e in Emitted(items) ==> IsDelta(e)
  {
    if items != [] { EmittedAreDeltas(items[..|items| - 1]); }
  }

  /** Signs that a run heard everything. */
  predicate Whole(e: Event) { e.ToolCallComplete? || e == Error(BrokenStream) }

  lemma EarlyEnding(cfg: Config, before: seq<Item>, x: Item, usage: Option<Usage>)
    requires Stop(cfg, before, x) != Continue
    ensures var t := EarlyEnd(Stop(cfg, before, x), usage);
      Ending(t) && forall e :: e in t ==> !Whole(e)
  {
  }

  lemma CleanEnding(items: seq<Item>)
    ensures Ending(CleanEnd(items))
  {
  }

  /** Every run is deltas, then one ending; and only a run that nothing stopped completes
      tool calls or reports a broken stream. */
  lemma EveryRunGrammatical(cfg: Config, payloads: seq<Payload>, silences: set<nat>, scanError: bool) returns (n: nat, said: seq<Event>, end: seq<Event>)
    ensures ChatSpec(cfg, payloads, silences, scanError) == said + end
    ensures (forall e :: e in said ==> IsDelta(e)) && Ending(end)
    ensures var items := ItemsFrom(payloads, silences, 0);
      n <= |items| && FirstStop(cfg, items, n) && (n < |items| ==> forall e :: e in end ==> !Whole(e))
  {
    var items := ItemsFrom(payloads, silences, 0);
    n := RunsToFirstStop(cfg, payloads, silences, scanError);
    if n == |items| {
      said, end := Emitted(items), if scanError then [Error(BrokenStream)] else CleanEnd(items);
      EmittedAreDeltas(items);
      CleanEnding(items);
    } else {
      said, end := Emitted(items[..n + 1]), EarlyEnd(Stop(cfg, items[..n], items[n]), LastUsage(items[..n]));
      EmittedAreDeltas(items[..n + 1]);
      EarlyEnding(cfg, items[..n], items[n], LastUsage(items[..n]));
    }
  }

  ghost predicate Unguarded(cfg: Config) { !cfg.loopGuard && cfg.budget <= 0 && !cfg.stallTimeout }

  predicate WellFormed(items: seq<Item>) {
    forall k :: 0 <= k < |items| ==> !items[k].Bad? && (items[k].Tools? ==> Renderable(items[k].deltas))
  }

  lemma NothingStops(cfg: Config, items: seq<Item>)
    requires Unguarded(cfg) && WellFormed(items)
    ensures forall k :: 0 <= k < |items| ==> Stop(cfg, items[..k], items[k]) == Continue
  {
  }

  /** With the guards off and nothing malformed a run hears everything. */
  lemma UnguardedRunIsComplete(cfg: Config, payloads: seq<Payload>, silences: set<nat>, scanError: bool)
    requires Unguarded(cfg) && WellFormed(ItemsFrom(payloads, silences, 0))
    ensures var items := ItemsFrom(payloads, silences, 0);
      ChatSpec(cfg, payloads, silences, scanError) == Described(cfg, items, |items|, scanError)
  {
    var n := RunsToFirstStop(cfg, payloads, silences, scanError);
    NothingStops(cfg, ItemsFrom(payloads, silences, 0));
  }

  /** What a run thought before acting, short of the fragment that stopped it, is within
      the budget. */
  lemma {:induction false} BudgetHolds(cfg: Config, items: seq<Item>, n: nat, k: nat)
    requires cfg.budget > 0 && n <= |items| && FirstStop(cfg, items, n)
    requires k <= n && !Acting(items[..k])
    ensures ThinkRunes(items[..k]) <= cfg.budget
  {
    if k > 0 {
      var front := items[..k - 1];
      assert items[..k] == front + [items[k - 1]];
      assert items[..k][..k - 1] == front;
      ActingSnoc(front, items[k - 1]);
      BudgetHolds(cfg, items, n, k - 1);
      assert Stop(cfg, front, items[k - 1]) == Continue;
    }
  }

  /** A silence before the first payload never ends a run, however long. */
  lemma FirstSilenceIsFree(cfg: Config, payloads: seq<Payload>, silences: set<nat>, scanError: bool)
    ensures ChatSpec(cfg, payloads, silences, scanError) == ChatSpec(cfg, payloads, silences - {0}, scanError)
  {
    SilencesFrom(cfg, START, payloads, silences, silences - {0}, 0);
  }

  lemma {:induction false} SilencesFrom(cfg: Config, v: Vars, payloads: seq<Payload>, a: set<nat>, b: set<nat>, i: nat)
    requires i <= |payloads| && forall k: nat :: k > 0 ==> (k in a <==> k in b)
    ensures Receive(cfg, v, payloads, a, i) == Receive(cfg, v, payloads, b, i)
    decreases |payloads| - i
  {
    if i < |payloads| && payloads[i].Chunk? {
      var (w, o) := HandleChoices(cfg, v, payloads[i].choices);
      var u := if payloads[i].usage.Some? then w.(usage := payloads[i].usage) else w;
      SilencesFrom(cfg, u, payloads, a, b, i + 1);
    }
  }
}
