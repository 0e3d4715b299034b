/** What the detector promises over a whole stream of fragments. */
module LoopGuardTheorems {
  import opened LoopGuard

  function Repeat(unit: seq<Rune>, n: nat): seq<Rune> {
    if n == 0 then [] else unit + Repeat(unit, n - 1)
  }

  lemma {:induction false} RepeatLength(unit: seq<Rune>, n: nat)
    ensures |Repeat(unit, n)| == |unit| * n
  {
    if n > 0 {
      RepeatLength(unit, n - 1);
      assert |unit| * n == |unit| + |unit| * (n - 1);
    }
  }

  /** Being periodic over whole units is being one unit repeated back to back. */
  lemma {:induction false} PeriodicIsRepeat(s: seq<Rune>, p: nat, n: nat)
    requires p >= 1 && n >= 1 && |s| == p * n
    ensures |s| >= p && (Periodic(s, p) <==> s == Repeat(s[..p], n))
  {
    LessOne(p, n);
    if n == 1 {
      assert s[..p] == s && Repeat(s, 1) == s + Repeat(s, 0) == s;
    } else {
      var u, r := s[..p], s[p..];
      LessOne(p, n - 1);
      PeriodicIsRepeat(r, p, n - 1);
      PeriodicSplit(s, p);
      RepeatSplit(u, r, n);
      assert s == u + r;
    }
  }

  lemma LessOne(p: nat, n: nat)
    requires n >= 1
    ensures p * n == p + p * (n - 1) && p * (n - 1) >= 0
  {
  }

  lemma PeriodicSplit(s: seq<Rune>, p: nat)
    requires |s| >= 2 * p
    ensures Periodic(s, p) <==> s[p..][..p] == s[..p] && Periodic(s[p..], p)
  {
    var r := s[p..];
    assert forall i :: 0 <= i < |r| ==> r[i] == s[i + p];
    if Periodic(s, p) {
      forall i | 0 <= i < p ensures r[..p][i] == s[..p][i] { assert s[i + p] == s[i + p - p]; }
      forall i | p <= i < |r| ensures r[i] == r[i - p] { assert s[i + p] == s[i + p - p]; }
    }
    if r[..p] == s[..p] && Periodic(r, p) {
      forall i | p <= i < |s| ensures s[i] == s[i - p] {
        if i < 2 * p { assert r[..p][i - p] == s[..p][i - p]; } else { assert r[i - p] == r[i - p - p]; }
      }
    }
  }

  lemma RepeatSplit(u: seq<Rune>, r: seq<Rune>, n: nat)
    requires n >= 2 && |r| >= |u|
    ensures u + r == Repeat(u, n) <==> r[..|u|] == u && r == Repeat(r[..|u|], n - 1)
  {
    RepeatStarts(u, n - 1);
    assert (u + r)[|u|..] == r && Repeat(u, n)[|u|..] == Repeat(u, n - 1);
  }

  lemma RepeatStarts(unit: seq<Rune>, n: nat)
    requires n >= 1
    ensures |Repeat(unit, n)| >= |unit| && Repeat(unit, n)[..|unit|] == unit
  {
  }

  ghost predicate EndsWith(s: seq<Rune>, end: seq<Rune>) {
    |end| <= |s| && s[|s| - |end|..] == end
  }

  /** The tail ends in a unit of at most 128 runes, back to back at least four times
      and over at least 48 runes. */
  ghost predicate EndsInRepeat(tail: seq<Rune>, unit: seq<Rune>, n: nat) {
    && 1 <= |unit| <= 128 && n >= 4
    && |Repeat(unit, n)| >= 48
    && EndsWith(tail, Repeat(unit, n))
  }

  /** The check is exact: it fires on precisely the tails that end in such a unit. */
  lemma CyclicMeansRepeatedUnit(tail: seq<Rune>)
    ensures Cyclic(tail) <==> exists unit, n :: EndsInRepeat(tail, unit, n)
  {
    if Cyclic(tail) {
      var p: nat :| 1 <= p <= MAX_CYCLE && EndsInCycle(tail, p);
      CycleIsRepeat(tail, p);
    }
    if unit, n :| EndsInRepeat(tail, unit, n) {
      RepeatIsCycle(tail, unit, n);
    }
  }

  lemma CycleIsRepeat(tail: seq<Rune>, p: nat)
    requires 1 <= p <= MAX_CYCLE && EndsInCycle(tail, p)
    ensures exists unit, n :: EndsInRepeat(tail, unit, n)
  {
    var s := Last(tail, Span(p));
    SpanBounds();
    PeriodicIsRepeat(s, p, Units(p));
    assert s == tail[|tail| - |s|..];
    assert EndsInRepeat(tail, s[..p], Units(p));
  }

  lemma RepeatIsCycle(tail: seq<Rune>, unit: seq<Rune>, n: nat)
    requires EndsInRepeat(tail, unit, n)
    ensures Cyclic(tail)
  {
    var p, s := |unit|, Repeat(unit, n);
    RepeatLength(unit, n);
    RepeatStarts(unit, n);
    PeriodicIsRepeat(s, p, n);
    UnitsLeast(p, n);
    var t := Last(tail, Span(p));
    assert forall i :: 0 <= i < |t| ==> t[i] == s[i + (|s| - |t|)];
    assert EndsInCycle(tail, p);
  }

  function Units(p: nat): (n: nat)
    requires p >= 1
    ensures n >= MIN_REPS && p * n == Span(p)
  {
    var whole := (MIN_REPEAT_LEN + p - 1) / p;
    if whole > MIN_REPS then whole else MIN_REPS
  }

  lemma UnitsLeast(p: nat, n: nat)
    requires p >= 1 && n >= MIN_REPS && p * n >= MIN_REPEAT_LEN
    ensures Span(p) <= p * n
  {
    var whole := (MIN_REPEAT_LEN + p - 1) / p;
    assert p * (whole - 1) < p * n;
    Cancel(p, whole - 1, n);
    MulMonotonic(p, Units(p), n);
  }

  lemma Cancel(p: nat, a: int, b: int)
    requires p * a < p * b
    ensures a < b
  {
    if a >= b { MulMonotonic(p, b, a); }
  }

  lemma MulMonotonic(p: nat, a: int, b: int)
    requires a <= b
    ensures p * a <= p * b
  {
  }

  // ---- Streams of fragments ---------------------------------------------------------

  function Flatten(frs: seq<seq<Rune>>): seq<Rune> {
    if frs == [] then [] else Flatten(frs[..|frs| - 1]) + frs[|frs| - 1]
  }

  /** The detector after the fragments, all fed to Add. */
  ghost function Feed(frs: seq<seq<Rune>>): Det {
    if frs == [] then FRESH else AddSpec(Feed(frs[..|frs| - 1]), frs[|frs| - 1]).0
  }

  /** The call that feeds fragment i trips. */
  ghost predicate TripsAt(frs: seq<seq<Rune>>, i: nat)
    requires i < |frs|
  {
    AddSpec(Feed(frs[..i]), frs[i]).1
  }

  ghost predicate Short(frs: seq<seq<Rune>>, f: nat) {
    forall i :: 0 <= i < |frs| ==> |frs[i]| <= f
  }

  lemma Grow(frs: seq<seq<Rune>>, i: nat)
    requires i < |frs|
    ensures Flatten(frs[..i + 1]) == Flatten(frs[..i]) + frs[i]
    ensures Feed(frs[..i + 1]) == AddSpec(Feed(frs[..i]), frs[i]).0
  {
    assert frs[..i + 1][..i] == frs[..i];
  }

  lemma {:induction false} Prefix(frs: seq<seq<Rune>>, i: nat)
    requires i <= |frs|
    ensures |Flatten(frs[..i])| <= |Flatten(frs)| && Flatten(frs)[..|Flatten(frs[..i])|] == Flatten(frs[..i])
  {
    if i == |frs| {
      assert frs[..i] == frs;
    } else {
      var front := frs[..|frs| - 1];
      Prefix(front, i);
      assert front[..i] == frs[..i];
    }
  }

  lemma LastOfLast<T>(s: seq<T>, t: seq<T>, n: nat)
    ensures Last(Last(s, n) + t, n) == Last(s + t, n)
  {
  }

  lemma LastOfLonger<T>(s: seq<T>, n: nat, m: nat)
    requires n <= m
    ensures Last(Last(s, m), n) == Last(s, n)
  {
  }

  /** After any fragments the tail is the last 1024 runes fed, and fewer than 64 of
      them await a scan. */
  lemma {:induction false} TailIsRecent(frs: seq<seq<Rune>>)
    ensures Feed(frs).tail == Last(Flatten(frs), MAX_TAIL)
    ensures Feed(frs).since < CHECK_EVERY && Feed(frs).since <= |Flatten(frs)|
  {
    if frs != [] {
      var front, s := frs[..|frs| - 1], frs[|frs| - 1];
      TailIsRecent(front);
      LastOfLast(Flatten(front), s, MAX_TAIL);
    }
  }

  // ---- Add trips exactly on repetition ---------------------------------------------------------

  /** Runes fed since the last scan, which comes with the fragment that brings 64 of them. */
  function CycleWait(frs: seq<seq<Rune>>): nat {
    if frs == [] then 0 else
      var w := CycleWait(frs[..|frs| - 1]) + |frs[|frs| - 1]|;
      if w >= 64 then 0 else w
  }

  predicate CycleDue(frs: seq<seq<Rune>>) {
    frs != [] && CycleWait(frs[..|frs| - 1]) + |frs[|frs| - 1]| >= 64
  }

  /** A scan is due and the last 1024 runes end in a unit repeated often enough. */
  ghost predicate CycleHeard(frs: seq<seq<Rune>>) {
    CycleDue(frs) && exists unit, n :: EndsInRepeat(Last(Flatten(frs), 1024), unit, n)
  }

  lemma {:induction false} WaitIsSince(frs: seq<seq<Rune>>)
    ensures Feed(frs).since == CycleWait(frs)
  {
    if frs != [] { WaitIsSince(frs[..|frs| - 1]); }
  }

  /** Exact: a call trips if and only if a scan is due and the text fed so far ends in such a
      repetition; text that does not repeat is never stopped. */
  lemma TripsExactly(frs: seq<seq<Rune>>, j: nat)
    requires j < |frs|
    ensures TripsAt(frs, j) <==> CycleHeard(frs[..j + 1])
  {
    var fed := frs[..j + 1];
    assert fed[..j] == frs[..j];
    WaitIsSince(frs[..j]);
    TailIsRecent(frs[..j]);
    Grow(frs, j);
    LastOfLast(Flatten(frs[..j]), frs[j], MAX_TAIL);
    CyclicMeansRepeatedUnit(Last(Flatten(fed), MAX_TAIL));
  }

  /** A scan happens soon after the text reaches any given length. */
  lemma {:induction false} NextScan(frs: seq<seq<Rune>>, f: nat, target: nat, i: nat) returns (j: nat)
    requires Short(frs, f) && i <= |frs|
    requires |Flatten(frs[..i])| - Feed(frs[..i]).since < target
    requires |Flatten(frs)| >= target + 63
    ensures j < |frs| && Feed(frs[..j]).since + |frs[j]| >= CHECK_EVERY
    ensures target <= |Flatten(frs[..j + 1])| <= target + 62 + f
    decreases |frs| - i
  {
    TailIsRecent(frs[..i]);
    assert frs[..|frs|] == frs;
    if i == |frs| {
      assert false;
    } else {
      Grow(frs, i);
      if Feed(frs[..i]).since + |frs[i]| >= CHECK_EVERY && |Flatten(frs[..i + 1])| >= target {
        j := i;
      } else {
        j := NextScan(frs, f, target, i + 1);
      }
    }
  }

  /** Timely: a stretch of period p that is long enough trips some Add by its end. */
  lemma CyclicTimely(frs: seq<seq<Rune>>, f: nat, p: nat, a: nat, b: nat)
    requires Short(frs, f) && 1 <= p <= MAX_CYCLE
    requires a <= b <= |Flatten(frs)| && Periodic(Flatten(frs)[a..b], p)
    requires b - a >= Span(p) + 63 + f
    ensures exists j: nat :: j < |frs| && TripsAt(frs, j) && |Flatten(frs[..j + 1])| <= b
  {
    assert frs[..0] == [];
    var text := Flatten(frs);
    SpanBounds();
    var j := NextScan(frs, f, a + Span(p), 0);
    Grow(frs, j);
    Prefix(frs, j + 1);
    TailIsRecent(frs[..j + 1]);
    InsideIsCyclic(text, p, a, b, |Flatten(frs[..j + 1])|);
    assert TripsAt(frs, j);
  }

  /** The last n runes before e lie inside text[a..b). */
  lemma LastInside(text: seq<Rune>, a: nat, b: nat, e: nat, n: nat)
    requires a + n <= e <= b <= |text|
    ensures Last(text[..e], n) == text[a..b][e - n - a..e - a]
  {
    var last, inner := Last(text[..e], n), text[a..b];
    forall i | 0 <= i < n ensures last[i] == inner[e - n - a + i] {
      assert last[i] == text[e - n + i];
    }
  }

  lemma InsideIsCyclic(text: seq<Rune>, p: nat, a: nat, b: nat, e: nat)
    requires 1 <= p <= MAX_CYCLE && a <= b <= |text| && Periodic(text[a..b], p)
    requires a + Span(p) <= e <= b
    ensures Cyclic(Last(text[..e], MAX_TAIL))
  {
    SpanBounds();
    LastInside(text, a, b, e, Span(p));
    LastOfLonger(text[..e], Span(p), MAX_TAIL);
    assert EndsInCycle(Last(text[..e], MAX_TAIL), p);
  }

  // ---- Novelty ------------------------------------------------------------------------

  /** The greatest common divisor of p and the stride. */
  function GcdWithStride(p: nat): (g: nat)
    ensures g >= 1 && p % g == 0 && STRIDE % g == 0
    ensures p >= 1 ==> forall d :: 1 <= d <= STRIDE && p % d == 0 && STRIDE % d == 0 ==> d <= g
  {
    if p % 8 == 0 then 8 else if p % 4 == 0 then 4 else if p % 2 == 0 then 2 else 1
  }

  /** How many stride steps bring a shingle back to the same phase of a period p. */
  function PhaseCount(p: nat): (q: nat)
    requires p >= 1
    ensures q >= 1
  {
    p / GcdWithStride(p)
  }

  lemma {:induction false} PeriodMultiple(s: seq<Rune>, p: nat, m: nat, i: nat)
    requires Periodic(s, p) && p >= 1 && i + p * m < |s|
    ensures p * m >= 0 && s[i + p * m] == s[i]
  {
    if m > 0 {
      assert p * m == p * (m - 1) + p;
      assert p * (m - 1) >= 0;
      PeriodMultiple(s, p, m - 1, i);
    }
  }

  lemma PhaseShift(p: nat)
    requires p >= 1
    ensures STRIDE * PhaseCount(p) == p * (STRIDE / GcdWithStride(p))
  {
  }

  lemma SamePhase(buf: seq<Rune>, p: nat, k: nat)
    requires Periodic(buf, p) && p >= 1 && k + PhaseCount(p) < ShingleCount(|buf|)
    ensures ShingleAt(buf, k + PhaseCount(p)) == ShingleAt(buf, k)
  {
    var q, m := PhaseCount(p), STRIDE / GcdWithStride(p);
    PhaseShift(p);
    assert STRIDE * (k + q) == STRIDE * k + p * m;
    forall i | 0 <= i < SHINGLE
      ensures ShingleAt(buf, k + q)[i] == ShingleAt(buf, k)[i]
    {
      PeriodMultiple(buf, p, m, STRIDE * k + i);
    }
  }

  lemma {:induction false} HashesAtMost(hash: seq<Rune> -> nat, buf: seq<Rune>, n: nat)
    requires n <= ShingleCount(|buf|)
    ensures |Hashes(hash, buf, n)| <= n
  {
    if n == 0 {
      assert Hashes(hash, buf, 0) == {};
    } else {
      HashesAtMost(hash, buf, n - 1);
      assert Hashes(hash, buf, n) == Hashes(hash, buf, n - 1) + {hash(ShingleAt(buf, n - 1))};
    }
  }

  lemma {:induction false} HashesRepeat(hash: seq<Rune> -> nat, buf: seq<Rune>, p: nat, n: nat)
    requires Periodic(buf, p) && p >= 1 && PhaseCount(p) <= n <= ShingleCount(|buf|)
    ensures Hashes(hash, buf, n) == Hashes(hash, buf, PhaseCount(p))
  {
    if n > PhaseCount(p) {
      HashesRepeat(hash, buf, p, n - 1);
      SamePhase(buf, p, n - 1 - PhaseCount(p));
      assert Hashes(hash, buf, n) == Hashes(hash, buf, n - 1) + {hash(ShingleAt(buf, n - 1))};
      assert hash(ShingleAt(buf, n - 1 - PhaseCount(p))) in Hashes(hash, buf, n - 1);
    }
  }

  /** Whatever the hash, text of period p has at most p / gcd(p, 8) distinct shingles. */
  lemma FewShingles(hash: seq<Rune> -> nat, buf: seq<Rune>, p: nat)
    requires Periodic(buf, p) && p >= 1
    ensures |Hashes(hash, buf, ShingleCount(|buf|))| <= PhaseCount(p)
  {
    var n := ShingleCount(|buf|);
    if PhaseCount(p) <= n {
      HashesRepeat(hash, buf, p, n);
      HashesAtMost(hash, buf, PhaseCount(p));
    } else {
      HashesAtMost(hash, buf, n);
    }
  }

  lemma PeriodicWindowIsLow(hash: seq<Rune> -> nat, buf: seq<Rune>, p: nat)
    requires |buf| == WINDOW && Periodic(buf, p) && p >= 1 && PhaseCount(p) <= 114
    ensures LowNovelty(hash, buf)
  {
    FewShingles(hash, buf, p);
  }

  ghost function FeedReasoning(hash: seq<Rune> -> nat, frs: seq<seq<Rune>>): Det {
    if frs == [] then FRESH
    else AddReasoningSpec(hash, FeedReasoning(hash, frs[..|frs| - 1]), frs[|frs| - 1]).0
  }

  ghost predicate ReasoningTripsAt(hash: seq<Rune> -> nat, frs: seq<seq<Rune>>, i: nat)
    requires i < |frs|
  {
    AddReasoningSpec(hash, FeedReasoning(hash, frs[..i]), frs[i]).1
  }

  ghost predicate Quiet(hash: seq<Rune> -> nat, frs: seq<seq<Rune>>, n: nat)
    requires n <= |frs|
  {
    forall i: nat :: i < n ==> !ReasoningTripsAt(hash, frs, i)
  }

  lemma GrowReasoning(hash: seq<Rune> -> nat, frs: seq<seq<Rune>>, i: nat)
    requires i < |frs|
    ensures Flatten(frs[..i + 1]) == Flatten(frs[..i]) + frs[i]
    ensures FeedReasoning(hash, frs[..i + 1]) == AddReasoningSpec(hash, FeedReasoning(hash, frs[..i]), frs[i]).0
  {
    assert frs[..i + 1][..i] == frs[..i];
  }

  /** The window is the last 3072 reasoning runes, and once it is full fewer than 256 of
      them await a scan. */
  predicate WindowOf(d: Det, text: seq<Rune>) {
    && d.rbuf == Last(text, WINDOW)
    && (if |text| < WINDOW then d.rsince == |text| else d.rsince < NOVELTY_EVERY)
  }

  /** d and e agree on everything the novelty scan looks at. */
  predicate SameWindow(d: Det, e: Det) {
    d.rbuf == e.rbuf && d.rsince == e.rsince && d.lowStreak == e.lowStreak
  }

  /** A reasoning fragment that does not trip takes the window from that of d to that of e. */
  ghost predicate QuietLink(hash: seq<Rune> -> nat, d: Det, s: seq<Rune>, e: Det) {
    var (j, tripped) := Judged(hash, Windowed(d, s));
    !tripped && SameWindow(j, e)
  }

  /** Detectors between reasoning fragments that do not trip; what else is fed in between
      may change all but the window. */
  ghost predicate QuietChain(hash: seq<Rune> -> nat, ds: seq<Det>, frs: seq<seq<Rune>>) {
    && |ds| == |frs| + 1
    && SameWindow(ds[0], FRESH)
    && forall k :: 0 <= k < |frs| ==> QuietLink(hash, ds[k], frs[k], ds[k + 1])
  }

  lemma QuietIsLink(hash: seq<Rune> -> nat, d: Det, s: seq<Rune>)
    requires !AddReasoningSpec(hash, d, s).1
    ensures QuietLink(hash, d, s, AddReasoningSpec(hash, d, s).0)
  {
    var e := AddSpec(d, s).0;
    var a, b := Windowed(d, s), Windowed(e, s);
    assert a.rbuf == b.rbuf && a.rsince == b.rsince && a.lowStreak == b.lowStreak;
  }

  lemma WindowMoves(hash: seq<Rune> -> nat, d: Det, text: seq<Rune>, s: seq<Rune>, e: Det)
    requires WindowOf(d, text) && QuietLink(hash, d, s, e)
    ensures WindowOf(e, text + s)
  {
    LastOfLast(text, s, WINDOW);
  }

  lemma {:induction false} ChainWindow(hash: seq<Rune> -> nat, ds: seq<Det>, frs: seq<seq<Rune>>, i: nat)
    requires QuietChain(hash, ds, frs) && i <= |frs|
    ensures WindowOf(ds[i], Flatten(frs[..i]))
  {
    if i > 0 {
      ChainWindow(hash, ds, frs, i - 1);
      Grow(frs, i - 1);
      WindowMoves(hash, ds[i - 1], Flatten(frs[..i - 1]), frs[i - 1], ds[i]);
    }
  }

  /** The detectors of a stream of reasoning alone. */
  ghost function ReasoningChain(hash: seq<Rune> -> nat, frs: seq<seq<Rune>>): seq<Det> {
    seq(|frs| + 1, i requires 0 <= i <= |frs| => FeedReasoning(hash, frs[..i]))
  }

  lemma ReasoningIsChain(hash: seq<Rune> -> nat, frs: seq<seq<Rune>>)
    requires Quiet(hash, frs, |frs|)
    ensures QuietChain(hash, ReasoningChain(hash, frs), frs)
  {
    var ds := ReasoningChain(hash, frs);
    forall k | 0 <= k < |frs| ensures QuietLink(hash, ds[k], frs[k], ds[k + 1]) {
      assert !ReasoningTripsAt(hash, frs, k);
      GrowReasoning(hash, frs, k);
      QuietIsLink(hash, FeedReasoning(hash, frs[..k]), frs[k]);
    }
  }

  /** While nothing trips, the window stays the last 3072 reasoning runes. */
  lemma WindowIsRecent(hash: seq<Rune> -> nat, frs: seq<seq<Rune>>)
    requires Quiet(hash, frs, |frs|)
    ensures WindowOf(FeedReasoning(hash, frs), Flatten(frs))
  {
    ReasoningIsChain(hash, frs);
    ChainWindow(hash, ReasoningChain(hash, frs), frs, |frs|);
    assert frs[..|frs|] == frs;
  }

  // ---- The novelty scan trips exactly on three low windows ----------------------------------------

  /** Reasoning runes since the last novelty scan. */
  function ReasonWait(frs: seq<seq<Rune>>): nat
    decreases |frs|, 1
  {
    if frs == [] || ScanDue(frs) then 0 else ReasonWait(frs[..|frs| - 1]) + |frs[|frs| - 1]|
  }

  /** The last fragment fills the window, or finds it full, and brings the 256th rune. */
  predicate ScanDue(frs: seq<seq<Rune>>)
    decreases |frs|, 0
  {
    frs != [] && |Flatten(frs)| >= 3072 && ReasonWait(frs[..|frs| - 1]) + |frs[|frs| - 1]| >= 256
  }

  /** The windows scanned, in order. */
  function Scans(frs: seq<seq<Rune>>): seq<seq<Rune>> {
    if frs == [] then [] else
      Scans(frs[..|frs| - 1]) + if ScanDue(frs) then [Last(Flatten(frs), 3072)] else []
  }

  /** A full window is low when at most 114 of the hashes of its 382 shingles, 24 runes each
      and 8 runes apart, are distinct. */
  lemma LowExactly(hash: seq<Rune> -> nat, w: seq<Rune>)
    requires |w| == 3072
    ensures LowNovelty(hash, w) <==> |ShingleHashes(hash, w)| <= 114
  {
    assert ShingleCount(|w|) == 382;
    assert Hashes(hash, w, 382) == ShingleHashes(hash, w) by {
      forall k: nat | k < 382 ensures hash(ShingleAt(w, k)) in ShingleHashes(hash, w) {
        assert Shingled(w, 8 * k);
      }
      forall i: nat | Shingled(w, i) ensures hash(w[i..i + 24]) in Hashes(hash, w, 382) {
        assert ShingleAt(w, i / 8) == w[i..i + 24];
      }
    }
  }

  predicate Shingled(w: seq<Rune>, i: nat) { i % 8 == 0 && i + 24 <= |w| }

  ghost function ShingleHashes(hash: seq<Rune> -> nat, w: seq<Rune>): set<nat> {
    set i: nat | i <= |w| && Shingled(w, i) :: hash(w[i..i + 24])
  }

  /** How many of the latest windows are low without a break. */
  ghost function Streak(hash: seq<Rune> -> nat, windows: seq<seq<Rune>>): nat {
    if windows == [] || !LowNovelty(hash, windows[|windows| - 1]) then 0 else 1 + Streak(hash, windows[..|windows| - 1])
  }

  ghost predicate LastThreeLow(hash: seq<Rune> -> nat, windows: seq<seq<Rune>>) {
    |windows| >= 3 && forall i :: |windows| - 3 <= i < |windows| ==> LowNovelty(hash, windows[i])
  }

  lemma {:induction false} StreakOf(hash: seq<Rune> -> nat, windows: seq<seq<Rune>>, k: nat)
    ensures Streak(hash, windows) >= k <==>
      |windows| >= k && forall i :: |windows| - k <= i < |windows| ==> LowNovelty(hash, windows[i])
  {
    if k > 0 && windows != [] {
      var front := windows[..|windows| - 1];
      StreakOf(hash, front, k - 1);
      assert forall i :: 0 <= i < |front| ==> front[i] == windows[i];
    }
  }

  /** A scan is due and it is the third in a row to find the window low. */
  ghost predicate RetreadHeard(hash: seq<Rune> -> nat, frs: seq<seq<Rune>>) {
    ScanDue(frs) && LastThreeLow(hash, Scans(frs))
  }

  /** The novelty state is what the reasoning fed so far says. */
  ghost predicate Remembers(hash: seq<Rune> -> nat, d: Det, frs: seq<seq<Rune>>) {
    && d.rbuf == Last(Flatten(frs), WINDOW)
    && d.rsince == ReasonWait(frs)
    && d.lowStreak == Streak(hash, Scans(frs))
  }

  lemma ScansSnoc(frs: seq<seq<Rune>>, s: seq<Rune>)
    ensures Flatten(frs + [s]) == Flatten(frs) + s
    ensures ScanDue(frs + [s]) <==> |Flatten(frs) + s| >= WINDOW && ReasonWait(frs) + |s| >= NOVELTY_EVERY
    ensures ReasonWait(frs + [s]) == if ScanDue(frs + [s]) then 0 else ReasonWait(frs) + |s|
    ensures Scans(frs + [s]) == Scans(frs) + if ScanDue(frs + [s]) then [Last(Flatten(frs) + s, WINDOW)] else []
  {
    assert (frs + [s])[..|frs|] == frs;
  }

  lemma StreakSnoc(hash: seq<Rune> -> nat, windows: seq<seq<Rune>>, w: seq<Rune>)
    ensures Streak(hash, windows + [w]) == if LowNovelty(hash, w) then 1 + Streak(hash, windows) else 0
  {
    assert (windows + [w])[..|windows|] == windows;
  }

  /** One reasoning fragment, whatever the tail does: it trips the novelty scan exactly when
      that scan is the third low one in a row, and is remembered. */
  lemma JudgedExactly(hash: seq<Rune> -> nat, d: Det, frs: seq<seq<Rune>>, s: seq<Rune>)
    requires Remembers(hash, d, frs)
    ensures var (e, tripped) := Judged(hash, Windowed(d, s));
      (tripped <==> RetreadHeard(hash, frs + [s])) && Remembers(hash, e, frs + [s])
  {
    var window := Last(Flatten(frs) + s, WINDOW);
    LastOfLast(Flatten(frs), s, WINDOW);
    ScansSnoc(frs, s);
    if ScanDue(frs + [s]) {
      StreakSnoc(hash, Scans(frs), window);
    } else {
      assert Scans(frs) + [] == Scans(frs);
    }
    StreakOf(hash, Scans(frs + [s]), 3);
  }

  /** text[a..b) has a period whose shingles fall in at most 114 phases. */
  ghost predicate Stretch(text: seq<Rune>, p: nat, a: nat, b: nat) {
    p >= 1 && PhaseCount(p) <= 114 && a <= b <= |text| && Periodic(text[a..b], p)
  }

  lemma InsideIsLow(hash: seq<Rune> -> nat, text: seq<Rune>, p: nat, a: nat, b: nat, e: nat)
    requires Stretch(text, p, a, b) && a + WINDOW <= e <= b
    ensures LowNovelty(hash, Last(text[..e], WINDOW))
  {
    LastInside(text, a, b, e, WINDOW);
    PeriodicWindowIsLow(hash, Last(text[..e], WINDOW), p);
  }

  /** What one prefix of the stream leaves behind. */
  datatype Mark = Mark(pos: nat, rsince: nat, streak: nat)

  function MarkOf(d: Det, text: seq<Rune>): Mark { Mark(|text|, d.rsince, d.lowStreak) }

  /** One fragment that does not trip: a due scan of a full window resets the wait, and
      if the window lies inside the stretch it raises the streak. */
  predicate QuietStep(m: Mark, m': Mark, f: nat, a: nat, b: nat) {
    && m.pos <= m'.pos <= m.pos + f
    && if m'.pos >= WINDOW && m.rsince + (m'.pos - m.pos) >= NOVELTY_EVERY then
         m'.rsince == 0 && (a + WINDOW <= m'.pos <= b ==> m'.streak == m.streak + 1 < PERSIST)
       else
         m'.rsince == m.rsince + (m'.pos - m.pos) && m'.streak == m.streak
  }

  lemma QuietFragment(hash: seq<Rune> -> nat, d: Det, text: seq<Rune>, s: seq<Rune>, e: Det, f: nat, a: nat, b: nat)
    requires |s| <= f && WindowOf(d, text) && QuietLink(hash, d, s, e)
    requires a + WINDOW <= |text + s| <= b ==> LowNovelty(hash, Last(text + s, WINDOW))
    ensures QuietStep(MarkOf(d, text), MarkOf(e, text + s), f, a, b)
  {
    LastOfLast(text, s, WINDOW);
  }

  /** Each fragment of a quiet chain over a text with the stretch is a quiet step. */
  lemma ChainStep(hash: seq<Rune> -> nat, ds: seq<Det>, frs: seq<seq<Rune>>, text: seq<Rune>, f: nat, p: nat, a: nat, b: nat, i: nat)
    requires Short(frs, f) && QuietChain(hash, ds, frs)
    requires Stretch(text, p, a, b) && Flatten(frs) <= text && i < |frs|
    ensures QuietStep(MarkOf(ds[i], Flatten(frs[..i])), MarkOf(ds[i + 1], Flatten(frs[..i + 1])), f, a, b)
  {
    var e := |Flatten(frs[..i + 1])|;
    Grow(frs, i);
    ChainWindow(hash, ds, frs, i);
    Prefix(frs, i + 1);
    if a + WINDOW <= e <= b {
      assert text[..e] == Flatten(frs[..i + 1]);
      InsideIsLow(hash, text, p, a, b, e);
    }
    QuietFragment(hash, ds[i], Flatten(frs[..i]), frs[i], ds[i + 1], f, a, b);
  }

  function Due(low: nat, f: nat): nat {
    if low == 0 then 0 else if low == 1 then 255 + f else 2 * (255 + f)
  }

  /** Without a trip, the wait for the next scan started by a bound that only the low
      scans so far can push out. */
  lemma {:induction false} ScansSoFar(marks: seq<Mark>, f: nat, a: nat, b: nat, i: nat) returns (low: nat)
    requires i < |marks| && marks[0] == Mark(0, 0, 0) && marks[i].pos <= b
    requires forall k :: 0 <= k < i ==> QuietStep(marks[k], marks[k + 1], f, a, b)
    ensures low < PERSIST && low <= marks[i].streak && (low > 0 ==> marks[i].pos >= a + WINDOW)
    ensures marks[i].pos - marks[i].rsince <= a + WINDOW - 1 + Due(low, f)
    ensures if marks[i].pos < WINDOW then marks[i].rsince == marks[i].pos else marks[i].rsince < NOVELTY_EVERY
  {
    if i == 0 {
      low := 0;
    } else {
      assert QuietStep(marks[i - 1], marks[i - 1 + 1], f, a, b);
      low := ScansSoFar(marks, f, a, b, i - 1);
      if marks[i].pos >= a + WINDOW && marks[i - 1].rsince + (marks[i].pos - marks[i - 1].pos) >= NOVELTY_EVERY {
        low := low + 1;
      }
    }
  }

  lemma {:induction false} PrefixUpTo(frs: seq<seq<Rune>>, f: nat, b: nat) returns (n: nat)
    requires Short(frs, f) && b <= |Flatten(frs)|
    ensures n <= |frs| && |Flatten(frs[..n])| <= b <= |Flatten(frs[..n])| + f
  {
    assert frs[..|frs|] == frs;
    if |Flatten(frs)| == b {
      n := |frs|;
    } else {
      var front := frs[..|frs| - 1];
      if |Flatten(front)| <= b {
        n := |front|;
      } else {
        n := PrefixUpTo(front, f, b);
        assert front[..n] == frs[..n];
      }
    }
  }

  /** Complete: reasoning that settles into period p, for any p with p / gcd(p, 8) <= 114,
      trips within 3072 + 3 * (255 + f) runes of doing so, whatever the hash. */
  lemma NoveltyTimely(hash: seq<Rune> -> nat, frs: seq<seq<Rune>>, f: nat, p: nat, a: nat, b: nat)
    requires Short(frs, f) && Stretch(Flatten(frs), p, a, b)
    requires b - a >= WINDOW + 3 * (255 + f)
    ensures exists j: nat :: j < |frs| && ReasoningTripsAt(hash, frs, j) && |Flatten(frs[..j + 1])| <= b
  {
    var n := PrefixUpTo(frs, f, b);
    Prefix(frs, n);
    if Quiet(hash, frs, n) {
      QuietPrefix(hash, frs, n);
      ReasoningIsChain(hash, frs[..n]);
      QuietIsShort(hash, ReasoningChain(hash, frs[..n]), frs[..n], Flatten(frs), f, p, a, b);
      assert false;
    } else {
      var j: nat :| j < n && ReasoningTripsAt(hash, frs, j);
      FedWithin(frs, j + 1, n);
    }
  }

  lemma QuietPrefix(hash: seq<Rune> -> nat, frs: seq<seq<Rune>>, n: nat)
    requires n <= |frs| && Quiet(hash, frs, n)
    ensures Quiet(hash, frs[..n], n)
  {
    forall i: nat | i < n ensures !ReasoningTripsAt(hash, frs[..n], i) {
      assert frs[..n][..i] == frs[..i] && !ReasoningTripsAt(hash, frs, i);
    }
  }

  lemma FedWithin(frs: seq<seq<Rune>>, j: nat, n: nat)
    requires j <= n <= |frs|
    ensures |Flatten(frs[..j])| <= |Flatten(frs[..n])|
  {
    assert frs[..n][..j] == frs[..j];
    Prefix(frs[..n], j);
  }

  /** Fragments that never trip end before three scans of the stretch are due. */
  lemma QuietIsShort(hash: seq<Rune> -> nat, ds: seq<Det>, frs: seq<seq<Rune>>, text: seq<Rune>, f: nat, p: nat, a: nat, b: nat)
    requires Short(frs, f) && QuietChain(hash, ds, frs)
    requires Stretch(text, p, a, b) && Flatten(frs) <= text && |Flatten(frs)| <= b
    ensures |Flatten(frs)| < a + WINDOW + 2 * (255 + f) + 255
  {
    var n := |frs|;
    var marks := seq(n + 1, i requires 0 <= i <= n => MarkOf(ds[i], Flatten(frs[..i])));
    forall k | 0 <= k < n
      ensures QuietStep(marks[k], marks[k + 1], f, a, b)
    {
      ChainStep(hash, ds, frs, text, f, p, a, b, k);
    }
    assert frs[..0] == [] && frs[..n] == frs;
    var low := ScansSoFar(marks, f, a, b, n);
  }
}
