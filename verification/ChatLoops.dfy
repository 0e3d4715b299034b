/** A Chat that loops is stopped: the detector's promises carried to a run, where both
    channels feed one tail and only reasoning feeds the window. */
module ChatLoops {
  import opened LoopGuard
  import opened LoopGuardTheorems
  import opened ChatEvents
  import opened ChatGrammar

  /** Every fragment of either channel. */
  function Texts(items: seq<Item>): seq<seq<Rune>> {
    if items == [] then [] else
      var n := |items| - 1;
      Texts(items[..n]) + if items[n].Think? || items[n].Say? then [items[n].text] else []
  }

  /** The reasoning fragments. */
  function Thoughts(items: seq<Item>): seq<seq<Rune>> {
    if items == [] then [] else
      var n := |items| - 1;
      Thoughts(items[..n]) + if items[n].Think? then [items[n].text] else []
  }

  lemma {:induction false} Earlier(items: seq<Item>, m: nat, k: nat)
    requires m <= k <= |items|
    ensures Texts(items[..m]) <= Texts(items[..k]) && Thoughts(items[..m]) <= Thoughts(items[..k])
  {
    if m < k {
      Earlier(items, m, k - 1);
      assert items[..k][..k - 1] == items[..k - 1];
    }
  }

  lemma Shorter(a: seq<seq<Rune>>, b: seq<seq<Rune>>)
    requires a <= b
    ensures |Flatten(a)| <= |Flatten(b)|
  {
    Prefix(b, |a|);
    assert b[..|a|] == a;
  }

  // ---- The tail hears both channels --------------------------------------------------------------

  predicate SameTail(d: Det, e: Det) { d.tail == e.tail && d.since == e.since }

  lemma AddSeesTail(hash: seq<Rune> -> nat, d: Det, e: Det, s: seq<Rune>)
    requires SameTail(d, e)
    ensures SameTail(AddSpec(d, s).0, AddSpec(e, s).0) && AddSpec(d, s).1 == AddSpec(e, s).1
    ensures SameTail(AddReasoningSpec(hash, d, s).0, AddSpec(e, s).0)
    ensures AddSpec(e, s).1 ==> AddReasoningSpec(hash, d, s).1
  {
  }

  lemma TextsSnoc(items: seq<Item>, x: Item)
    ensures Texts(items + [x]) == if x.Think? || x.Say? then Texts(items) + [x.text] else Texts(items)
  {
    assert (items + [x])[..|items|] == items;
  }

  lemma FeedSnoc(frs: seq<seq<Rune>>, s: seq<Rune>)
    ensures Feed(frs + [s]) == AddSpec(Feed(frs), s).0
  {
    assert (frs + [s])[..|frs|] == frs;
  }

  lemma FedTailSnoc(cfg: Config, items: seq<Item>, x: Item)
    requires cfg.loopGuard && SameTail(Fed(cfg, items), Feed(Texts(items)))
    ensures SameTail(Fed(cfg, items + [x]), Feed(Texts(items + [x])))
  {
    FedSnoc(cfg, items, x);
    TextsSnoc(items, x);
    if x.Think? || x.Say? {
      FeedSnoc(Texts(items), x.text);
      AddSeesTail(cfg.hash, Fed(cfg, items), Feed(Texts(items)), x.text);
    }
  }

  lemma {:induction false} FedTail(cfg: Config, items: seq<Item>)
    requires cfg.loopGuard
    ensures SameTail(Fed(cfg, items), Feed(Texts(items)))
  {
    if items != [] {
      var n := |items| - 1;
      FedTail(cfg, items[..n]);
      FedTailSnoc(cfg, items[..n], items[n]);
      assert items[..n] + [items[n]] == items;
    }
  }

  /** The item that brings fragment j. */
  lemma {:induction false} BroughtBy(items: seq<Item>, j: nat) returns (k: nat)
    requires j < |Texts(items)|
    ensures k < |items| && (items[k].Think? || items[k].Say?)
    ensures items[k].text == Texts(items)[j] && Texts(items[..k]) == Texts(items)[..j]
    ensures Texts(items[..k + 1]) == Texts(items)[..j + 1]
  {
    var n := |items| - 1;
    var front := items[..n];
    if j < |Texts(front)| {
      k := BroughtBy(front, j);
      assert front[..k] == items[..k] && front[..k + 1] == items[..k + 1];
    } else {
      k := n;
      assert items[..n + 1] == items;
    }
  }

  lemma StopsIfTrips(cfg: Config, before: seq<Item>, x: Item, d: Det)
    requires cfg.loopGuard && SameTail(Fed(cfg, before), d)
    requires (x.Think? || x.Say?) && AddSpec(d, x.text).1
    ensures Stop(cfg, before, x) == Abort(FINISH_REPETITION)
  {
    AddSeesTail(cfg.hash, Fed(cfg, before), d, x.text);
  }

  /** The item whose fragment trips the detector fed with both channels stops the run. */
  lemma TripStops(cfg: Config, items: seq<Item>, j: nat) returns (k: nat)
    requires cfg.loopGuard && j < |Texts(items)| && TripsAt(Texts(items), j)
    ensures k < |items| && Stop(cfg, items[..k], items[k]) != Continue
    ensures Texts(items[..k + 1]) == Texts(items)[..j + 1]
  {
    k := BroughtBy(items, j);
    assert SameTail(Fed(cfg, items[..k]), Feed(Texts(items)[..j])) by { FedTail(cfg, items[..k]); }
    StopsIfTrips(cfg, items[..k], items[k], Feed(Texts(items)[..j]));
  }

  lemma CycleStops(cfg: Config, items: seq<Item>, f: nat, p: nat, a: nat, b: nat) returns (k: nat)
    requires cfg.loopGuard && Short(Texts(items), f) && 1 <= p <= MAX_CYCLE
    requires a <= b <= |Flatten(Texts(items))| && Periodic(Flatten(Texts(items))[a..b], p)
    requires b - a >= Span(p) + 63 + f
    ensures k < |items| && Stop(cfg, items[..k], items[k]) != Continue
    ensures |Flatten(Texts(items[..k + 1]))| <= b
  {
    CyclicTimely(Texts(items), f, p, a, b);
    var j: nat :| j < |Texts(items)| && TripsAt(Texts(items), j) && |Flatten(Texts(items)[..j + 1])| <= b;
    k := TripStops(cfg, items, j);
  }

  lemma StoppedBy(cfg: Config, items: seq<Item>, n: nat, k: nat)
    requires n <= |items| && FirstStop(cfg, items, n)
    requires k < |items| && Stop(cfg, items[..k], items[k]) != Continue
    ensures n <= k
  {
  }

  lemma FewerTexts(items: seq<Item>, n: nat, k: nat)
    requires n <= k < |items|
    ensures |Flatten(Texts(items[..n + 1]))| <= |Flatten(Texts(items[..k + 1]))|
  {
    Earlier(items, n + 1, k + 1);
    Shorter(Texts(items[..n + 1]), Texts(items[..k + 1]));
  }

  /** Whatever the split between the channels, a stretch of period p at least span(p) + 63 + f
      runes long, in fragments of at most f runes, has stopped the run by its end. */
  lemma CyclicRunStops(cfg: Config, items: seq<Item>, n: nat, f: nat, p: nat, a: nat, b: nat)
    requires cfg.loopGuard && n <= |items| && FirstStop(cfg, items, n)
    requires Short(Texts(items), f) && 1 <= p <= MAX_CYCLE
    requires a <= b <= |Flatten(Texts(items))| && Periodic(Flatten(Texts(items))[a..b], p)
    requires b - a >= Span(p) + 63 + f
    ensures n < |items| && |Flatten(Texts(items[..n + 1]))| <= b
  {
    var k := CycleStops(cfg, items, f, p, a, b);
    StoppedBy(cfg, items, n, k);
    FewerTexts(items, n, k);
  }

  // ---- Stopped for repetition exactly when repeating -----------------------------------------------

  lemma ThoughtsSnoc(items: seq<Item>, x: Item)
    ensures Thoughts(items + [x]) == if x.Think? then Thoughts(items) + [x.text] else Thoughts(items)
  {
    assert (items + [x])[..|items|] == items;
  }

  /** While nothing stops the run its detector remembers the reasoning, and nothing else. */
  lemma {:induction false} FedRemembers(cfg: Config, items: seq<Item>)
    requires cfg.loopGuard && HearsFirst(cfg, items, |items|)
    ensures Remembers(cfg.hash, Fed(cfg, items), Thoughts(items))
  {
    if items != [] {
      var n := |items| - 1;
      HearsFront(cfg, items);
      FedRemembers(cfg, items[..n]);
      RemembersNext(cfg, items[..n], items[n]);
      assert items[..n] + [items[n]] == items;
    }
  }

  lemma RemembersNext(cfg: Config, items: seq<Item>, x: Item)
    requires cfg.loopGuard && Remembers(cfg.hash, Fed(cfg, items), Thoughts(items)) && Stop(cfg, items, x) == Continue
    ensures Remembers(cfg.hash, Fed(cfg, items + [x]), Thoughts(items + [x]))
  {
    FedSnoc(cfg, items, x);
    ThoughtsSnoc(items, x);
    if x.Think? {
      var d := AddSpec(Fed(cfg, items), x.text).0;
      assert Remembers(cfg.hash, d, Thoughts(items));
      JudgedExactly(cfg.hash, d, Thoughts(items), x.text);
    }
  }

  /** The cyclic check of one fragment, from the text of both channels alone. */
  lemma CycleExactly(cfg: Config, items: seq<Item>, x: Item)
    requires cfg.loopGuard && (x.Think? || x.Say?)
    ensures AddSpec(Fed(cfg, items), x.text).1 <==> CycleHeard(Texts(items + [x]))
  {
    var frs := Texts(items) + [x.text];
    TextsSnoc(items, x);
    FedTail(cfg, items);
    AddSeesTail(cfg.hash, Fed(cfg, items), Feed(Texts(items)), x.text);
    assert frs[..|frs| - 1] == Texts(items) && frs[..|frs|] == frs;
    TripsExactly(frs, |frs| - 1);
  }

  /** The loop guard is exact: a fragment heard by a run that nothing has stopped yet stops
      it for repetition if and only if the last 1024 runes of text and reasoning end in a
      unit repeated often enough when a scan is due, or it is reasoning whose scan is the
      third low one in a row. */
  lemma RepetitionExactly(cfg: Config, items: seq<Item>, n: nat)
    requires cfg.loopGuard && n < |items| && HearsFirst(cfg, items, n)
    requires items[n].Think? || items[n].Say?
    ensures var heard := items[..n + 1];
      Stop(cfg, items[..n], items[n]) == Abort(FINISH_REPETITION) <==>
        CycleHeard(Texts(heard)) || (items[n].Think? && RetreadHeard(cfg.hash, Thoughts(heard)))
  {
    var x, front := items[n], items[..n];
    assert items[..n + 1] == front + [x];
    CycleExactly(cfg, front, x);
    if x.Think? {
      HeardAll(cfg, items, n, n);
      FedRemembers(cfg, front);
      ThoughtsSnoc(front, x);
      ThinkTrips(cfg, front, x);
    }
  }

  lemma ThinkTrips(cfg: Config, items: seq<Item>, x: Item)
    requires cfg.loopGuard && x.Think? && Remembers(cfg.hash, Fed(cfg, items), Thoughts(items))
    ensures AddReasoningSpec(cfg.hash, Fed(cfg, items), x.text).1 <==>
      AddSpec(Fed(cfg, items), x.text).1 || RetreadHeard(cfg.hash, Thoughts(items) + [x.text])
  {
    JudgedExactly(cfg.hash, AddSpec(Fed(cfg, items), x.text).0, Thoughts(items), x.text);
  }

  // ---- The window hears reasoning only -------------------------------------------------------------

  /** The detectors after each reasoning fragment. */
  ghost function Windows(cfg: Config, items: seq<Item>): seq<Det> {
    if items == [] then [FRESH] else
      var n := |items| - 1;
      Windows(cfg, items[..n]) + if items[n].Think? then [Fed(cfg, items)] else []
  }

  lemma LinkFrom(hash: seq<Rune> -> nat, c: Det, d: Det, s: seq<Rune>, e: Det)
    requires SameWindow(c, d) && QuietLink(hash, d, s, e)
    ensures QuietLink(hash, c, s, e)
  {
  }

  lemma ChainSnoc(hash: seq<Rune> -> nat, ds: seq<Det>, frs: seq<seq<Rune>>, s: seq<Rune>, e: Det)
    requires QuietChain(hash, ds, frs) && QuietLink(hash, ds[|frs|], s, e)
    ensures QuietChain(hash, ds + [e], frs + [s])
  {
    var es, gs := ds + [e], frs + [s];
    forall k | 0 <= k < |gs| ensures QuietLink(hash, es[k], gs[k], es[k + 1]) {
      if k < |frs| { assert QuietLink(hash, ds[k], frs[k], ds[k + 1]); }
    }
  }

  lemma HearsFront(cfg: Config, items: seq<Item>)
    requires items != [] && HearsFirst(cfg, items, |items|)
    ensures var n := |items| - 1;
      HearsFirst(cfg, items[..n], n) && Stop(cfg, items[..n], items[n]) == Continue
  {
    var n := |items| - 1;
    forall k | 0 <= k < n ensures Stop(cfg, items[..n][..k], items[..n][k]) == Continue {
      assert items[..n][..k] == items[..k];
    }
  }

  lemma {:induction false} ItemsChain(cfg: Config, items: seq<Item>)
    requires cfg.loopGuard && HearsFirst(cfg, items, |items|)
    ensures QuietChain(cfg.hash, Windows(cfg, items), Thoughts(items))
    ensures SameWindow(Windows(cfg, items)[|Thoughts(items)|], Fed(cfg, items))
  {
    if items != [] {
      var n := |items| - 1;
      var x, front := items[n], items[..n];
      HearsFront(cfg, items);
      ItemsChain(cfg, front);
      if x.Think? {
        QuietIsLink(cfg.hash, Fed(cfg, front), x.text);
        LinkFrom(cfg.hash, Windows(cfg, front)[|Thoughts(front)|], Fed(cfg, front), x.text, Fed(cfg, items));
        ChainSnoc(cfg.hash, Windows(cfg, front), Thoughts(front), x.text, Fed(cfg, items));
      } else {
        assert Windows(cfg, items) == Windows(cfg, front) && Thoughts(items) == Thoughts(front);
      }
    }
  }

  /** A point of the stream with exactly the first m reasoning fragments before it. */
  lemma {:induction false} AfterThoughts(items: seq<Item>, m: nat) returns (k: nat)
    requires m <= |Thoughts(items)|
    ensures k <= |items| && Thoughts(items[..k]) == Thoughts(items)[..m]
  {
    if m == |Thoughts(items)| {
      k := |items|;
      assert items[..k] == items;
    } else {
      var front := items[..|items| - 1];
      k := AfterThoughts(front, m);
      assert front[..k] == items[..k];
    }
  }

  /** And reasoning that settles into a period with at most 114 phases has stopped the run
      within 3072 + 3 (255 + f) reasoning runes, whatever is said in between. */
  lemma NoveltyRunStops(cfg: Config, items: seq<Item>, n: nat, f: nat, p: nat, a: nat, b: nat)
    requires cfg.loopGuard && n <= |items| && FirstStop(cfg, items, n)
    requires Short(Thoughts(items), f) && Stretch(Flatten(Thoughts(items)), p, a, b)
    requires b - a >= WINDOW + 3 * (255 + f)
    ensures n < |items| && |Flatten(Thoughts(items[..n + 1]))| <= b
  {
    var frs := Thoughts(items);
    var m := PrefixUpTo(frs, f, b);
    var k := AfterThoughts(items, m);
    if n < k {
      Earlier(items, n + 1, k);
      Shorter(Thoughts(items[..n + 1]), Thoughts(items[..k]));
    } else {
      HeardAll(cfg, items, n, k);
      ItemsChain(cfg, items[..k]);
      Prefix(frs, m);
      QuietIsShort(cfg.hash, Windows(cfg, items[..k]), frs[..m], Flatten(frs), f, p, a, b);
      assert false;
    }
  }

  lemma HeardAll(cfg: Config, items: seq<Item>, n: nat, k: nat)
    requires k <= n <= |items| && HearsFirst(cfg, items, n)
    ensures HearsFirst(cfg, items[..k], k)
  {
    forall i | 0 <= i < k ensures Stop(cfg, items[..k][..i], items[..k][i]) == Continue {
      assert items[..k][..i] == items[..i];
    }
  }

  /** End to end: such a run's events are those up to a first stop inside the stretch. */
  lemma LoopingChatStops(cfg: Config, payloads: seq<Payload>, silences: set<nat>, scanError: bool, f: nat, p: nat, a: nat, b: nat) returns (n: nat)
    requires cfg.loopGuard && 1 <= p <= MAX_CYCLE && b - a >= Span(p) + 63 + f
    requires var frs := Texts(ItemsFrom(payloads, silences, 0));
      Short(frs, f) && a <= b <= |Flatten(frs)| && Periodic(Flatten(frs)[a..b], p)
    ensures var items := ItemsFrom(payloads, silences, 0);
      && n < |items| && FirstStop(cfg, items, n)
      && |Flatten(Texts(items[..n + 1]))| <= b
      && ChatSpec(cfg, payloads, silences, scanError) == Described(cfg, items, n, scanError)
  {
    n := RunsToFirstStop(cfg, payloads, silences, scanError);
    CyclicRunStops(cfg, ItemsFrom(payloads, silences, 0), n, f, p, a, b);
  }

  lemma RepeatingChatStops(cfg: Config, payloads: seq<Payload>, silences: set<nat>, scanError: bool, f: nat, p: nat, a: nat, b: nat) returns (n: nat)
    requires cfg.loopGuard && b - a >= WINDOW + 3 * (255 + f)
    requires var frs := Thoughts(ItemsFrom(payloads, silences, 0));
      Short(frs, f) && Stretch(Flatten(frs), p, a, b)
    ensures var items := ItemsFrom(payloads, silences, 0);
      && n < |items| && FirstStop(cfg, items, n)
      && |Flatten(Thoughts(items[..n + 1]))| <= b
      && ChatSpec(cfg, payloads, silences, scanError) == Described(cfg, items, n, scanError)
  {
    n := RunsToFirstStop(cfg, payloads, silences, scanError);
    NoveltyRunStops(cfg, ItemsFrom(payloads, silences, 0), n, f, p, a, b);
  }
}
