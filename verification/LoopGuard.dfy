/** The streaming repetition detector (llm/loopguard.go): a cyclic-suffix check on
    a rolling tail and a novelty check on a rolling window of reasoning. */
module LoopGuard {
  type Rune = int

  const MAX_TAIL := 1024
  const CHECK_EVERY := 64
  const MIN_REPEAT_LEN := 48
  const MIN_REPS := 4
  const MAX_CYCLE := 128

  const SHINGLE := 24
  const STRIDE := 8
  const WINDOW := 3072
  const NOVELTY_EVERY := 256
  const PERSIST := 3

  // ---- Specification ------------------------------------------------------------

  /** The last n elements of s, or all of s when there are fewer. */
  function Last<T>(s: seq<T>, n: nat): seq<T> {
    if |s| <= n then s else s[|s| - n..]
  }

  ghost predicate Periodic(s: seq<Rune>, p: nat) {
    forall i :: p <= i < |s| ==> s[i] == s[i - p]
  }

  /** How much of the tail a unit of length p must fill: at least four repetitions
      and at least 48 runes, in whole units. */
  function Span(p: nat): nat
    requires p >= 1
  {
    var whole := (MIN_REPEAT_LEN + p - 1) / p;
    p * (if whole > MIN_REPS then whole else MIN_REPS)
  }

  ghost predicate EndsInCycle(tail: seq<Rune>, p: nat)
    requires p >= 1
  {
    Span(p) <= |tail| && Periodic(Last(tail, Span(p)), p)
  }

  ghost predicate Cyclic(tail: seq<Rune>) {
    exists p :: 1 <= p <= MAX_CYCLE && EndsInCycle(tail, p)
  }

  function ShingleAt(buf: seq<Rune>, k: nat): seq<Rune>
    requires STRIDE * k + SHINGLE <= |buf|
  {
    buf[STRIDE * k..STRIDE * k + SHINGLE]
  }

  function ShingleCount(n: nat): nat {
    if n < SHINGLE then 0 else (n - SHINGLE) / STRIDE + 1
  }

  /** The hashes of the first n shingles of buf. */
  ghost function Hashes(hash: seq<Rune> -> nat, buf: seq<Rune>, n: nat): set<nat>
    requires n <= ShingleCount(|buf|)
  {
    set k: nat | k < n :: hash(ShingleAt(buf, k))
  }

  ghost predicate LowNovelty(hash: seq<Rune> -> nat, buf: seq<Rune>) {
    10 * |Hashes(hash, buf, ShingleCount(|buf|))| < 3 * ShingleCount(|buf|)
  }

  datatype Det = Det(tail: seq<Rune>, since: nat, rbuf: seq<Rune>, rsince: nat, lowStreak: nat)

  const FRESH := Det([], 0, [], 0, 0)

  ghost function AddSpec(d: Det, s: seq<Rune>): (Det, bool) {
    var e := d.(tail := Last(d.tail + s, MAX_TAIL), since := d.since + |s|);
    if e.since < CHECK_EVERY then (e, false) else (e.(since := 0), Cyclic(e.tail))
  }

  ghost function AddReasoningSpec(hash: seq<Rune> -> nat, d: Det, s: seq<Rune>): (Det, bool) {
    var (e, tripped) := AddSpec(d, s);
    if tripped then (e, true) else Judged(hash, Windowed(e, s))
  }

  /** The window of reasoning after a fragment. */
  function Windowed(d: Det, s: seq<Rune>): Det {
    d.(rbuf := Last(d.rbuf + s, WINDOW), rsince := d.rsince + |s|)
  }

  /** The novelty scan of a full window, when one is due. */
  ghost function Judged(hash: seq<Rune> -> nat, d: Det): (Det, bool) {
    if |d.rbuf| < WINDOW || d.rsince < NOVELTY_EVERY then (d, false) else
      var streak := if LowNovelty(hash, d.rbuf) then d.lowStreak + 1 else 0;
      (d.(rsince := 0, lowStreak := streak), streak >= PERSIST)
  }

  // ---- The detector ---------------------------------------------------------------

  /** Whether the last span runes of b are its final unit-rune block repeated. */
  method IsCyclicSuffix(b: seq<Rune>, unit: nat, span: nat) returns (r: bool)
    requires 1 <= unit <= span <= |b|
    ensures r <==> Periodic(Last(b, span), unit)
  {
    var suf := b[|b| - span..];
    var i := unit;
    while i < span
      invariant unit <= i <= span
      invariant forall j :: unit <= j < i ==> suf[j] == suf[j - unit]
    {
      if suf[i] != suf[i - unit] {
        return false;
      }
      i := i + 1;
    }
    return true;
  }

  /** Distinct and total shingles of buf; (1, 1) when buf holds no shingle. */
  method DistinctShingles(hash: seq<Rune> -> nat, buf: seq<Rune>) returns (distinct: nat, total: nat)
    ensures |buf| < SHINGLE ==> distinct == total == 1
    ensures |buf| >= SHINGLE ==> total == ShingleCount(|buf|) && distinct == |Hashes(hash, buf, total)|
  {
    if |buf| < SHINGLE {
      return 1, 1;
    }
    var seen: set<nat> := {};
    total := 0;
    var i := 0;
    while i + SHINGLE <= |buf|
      invariant i == STRIDE * total && total <= ShingleCount(|buf|)
      invariant seen == Hashes(hash, buf, total)
    {
      var h := hash(buf[i..i + SHINGLE]);
      assert h == hash(ShingleAt(buf, total));
      assert Hashes(hash, buf, total + 1) == Hashes(hash, buf, total) + {h};
      seen := seen + {h};
      total := total + 1;
      i := i + STRIDE;
    }
    distinct := |seen|;
  }

  class RepetitionDetector {
    const hash: seq<Rune> -> nat
    var tail: seq<Rune>
    var since: nat
    var rbuf: seq<Rune>
    var rsince: nat
    var lowStreak: nat

    ghost function Abs(): Det
      reads this
    {
      Det(tail, since, rbuf, rsince, lowStreak)
    }

    constructor (hash: seq<Rune> -> nat)
      ensures Abs() == FRESH && this.hash == hash
    {
      this.hash := hash;
      tail, since, rbuf, rsince, lowStreak := [], 0, [], 0, 0;
    }

    /** The unit scan: short units need enough repetitions to fill 48 runes. */
    method ScanCycles() returns (r: bool)
      ensures r <==> Cyclic(tail)
    {
      var n := |tail|;
      if n < MIN_REPEAT_LEN {
        SpanBounds();
        return false;
      }
      var maxUnit := n / MIN_REPS;
      if maxUnit > MAX_CYCLE {
        maxUnit := MAX_CYCLE;
      }
      SpanBounds();
      var unit := 1;
      while unit <= maxUnit
        invariant 1 <= unit <= maxUnit + 1
        invariant forall p :: 1 <= p < unit ==> !EndsInCycle(tail, p)
      {
        var reps := MIN_REPS;
        if unit * reps < MIN_REPEAT_LEN {
          reps := (MIN_REPEAT_LEN + unit - 1) / unit;
        }
        var span := unit * reps;
        SpanIs(unit, reps);
        if span <= n {
          var hit := IsCyclicSuffix(tail, unit, span);
          if hit {
            assert EndsInCycle(tail, unit);
            return true;
          }
        }
        unit := unit + 1;
      }
      return false;
    }

    method Add(s: seq<Rune>) returns (r: bool)
      modifies this`tail, this`since
      ensures (Abs(), r) == AddSpec(old(Abs()), s)
    {
      var i := 0;
      while i < |s|
        invariant 0 <= i <= |s|
        invariant tail == old(tail) + s[..i] && since == old(since) + i
      {
        tail := tail + [s[i]];
        since := since + 1;
        i := i + 1;
      }
      assert s[..i] == s;
      if |tail| > MAX_TAIL {
        tail := tail[|tail| - MAX_TAIL..];
      }
      if since < CHECK_EVERY {
        return false;
      }
      since := 0;
      r := ScanCycles();
    }

    method AddReasoning(s: seq<Rune>) returns (r: bool)
      modifies this
      ensures (Abs(), r) == AddReasoningSpec(hash, old(Abs()), s)
    {
      r := Add(s);
      if r {
        return;
      }
      Slide(s);
      r := Judge();
    }

    /** Appends the fragment to the window. */
    method Slide(s: seq<Rune>)
      modifies this`rbuf, this`rsince
      ensures Abs() == Windowed(old(Abs()), s)
    {
      var i := 0;
      while i < |s|
        invariant 0 <= i <= |s|
        invariant rbuf == old(rbuf) + s[..i] && rsince == old(rsince) + i
      {
        rbuf := rbuf + [s[i]];
        rsince := rsince + 1;
        i := i + 1;
      }
      assert s[..i] == s;
      if |rbuf| > WINDOW {
        rbuf := rbuf[|rbuf| - WINDOW..];
      }
    }

    /** Judges the window once it is full and a scan is due. */
    method Judge() returns (r: bool)
      modifies this`rsince, this`lowStreak
      ensures (Abs(), r) == Judged(hash, old(Abs()))
    {
      if |rbuf| < WINDOW || rsince < NOVELTY_EVERY {
        return false;
      }
      rsince := 0;
      var distinct, total := DistinctShingles(hash, rbuf);
      if 10 * distinct < 3 * total {
        lowStreak := lowStreak + 1;
      } else {
        lowStreak := 0;
      }
      r := lowStreak >= PERSIST;
    }
  }

  lemma SpanIs(p: nat, reps: nat)
    requires p >= 1 && reps == if p * MIN_REPS < MIN_REPEAT_LEN then (MIN_REPEAT_LEN + p - 1) / p else MIN_REPS
    ensures Span(p) == p * reps && Span(p) >= p
  {
    var whole := (MIN_REPEAT_LEN + p - 1) / p;
    if p < 12 {
      assert whole >= 5;
    } else {
      assert whole <= 4;
    }
    assert reps >= 1;
  }

  lemma SpanBounds()
    ensures forall p: nat :: p >= 1 ==> Span(p) >= MIN_REPEAT_LEN && Span(p) >= MIN_REPS * p
    ensures forall p: nat :: 1 <= p <= MAX_CYCLE ==> Span(p) <= MAX_TAIL
  {
    forall p: nat | p >= 1
      ensures Span(p) >= MIN_REPEAT_LEN && Span(p) >= MIN_REPS * p
      ensures p <= MAX_CYCLE ==> Span(p) <= MAX_TAIL
    {
      var whole := (MIN_REPEAT_LEN + p - 1) / p;
      assert p * whole >= MIN_REPEAT_LEN && p * whole <= MIN_REPEAT_LEN + p - 1;
      if whole <= MIN_REPS {
        assert p * whole <= p * MIN_REPS;
      } else {
        assert p * whole >= p * MIN_REPS;
      }
    }
  }
}
