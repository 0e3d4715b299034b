/** The buffering both vendor translators share (llm/bedrock/bedrock.go,
    llm/vertex/vertex.go): consecutive tool results collect in one user turn, flushed
    by the next user or assistant message and at the end. */
module Turns {
  import opened Wrappers

  /** One output message. */
  datatype Turn<B> = Turn(model: bool, blocks: seq<B>)

  /** What one input message contributes. */
  datatype Item<B> = User(blocks: seq<B>) | Model(blocks: seq<B>) | Result(block: B) | Aside

  datatype Buffer<B> = Buffer(turns: seq<Turn<B>>, pending: seq<B>)

  function Flushed<B>(s: Buffer<B>): Buffer<B> {
    if s.pending == [] then s else Buffer(s.turns + [Turn(false, s.pending)], [])
  }

  function Say<B>(s: Buffer<B>, model: bool, blocks: seq<B>): Buffer<B> {
    if blocks == [] then s else s.(turns := s.turns + [Turn(model, blocks)])
  }

  function Add<B>(s: Buffer<B>, item: Item<B>): Buffer<B> {
    match item
    case User(blocks) => Say(Flushed(s), false, blocks)
    case Model(blocks) => Say(Flushed(s), true, blocks)
    case Result(b) => s.(pending := s.pending + [b])
    case Aside => s
  }

  /** The buffer after the first n items. */
  function After<B>(items: seq<Item<B>>, n: nat): Buffer<B>
    requires n <= |items|
  {
    if n == 0 then Buffer([], []) else Add(After(items, n - 1), items[n - 1])
  }

  function Build<B>(items: seq<Item<B>>): seq<Turn<B>> {
    Flushed(After(items, |items|)).turns
  }

  class TurnBuilder<B> {
    var turns: seq<Turn<B>>
    var pending: seq<B>

    ghost function Abs(): Buffer<B>
      reads this
    {
      Buffer(turns, pending)
    }

    constructor ()
      ensures Abs() == Buffer([], [])
    { turns, pending := [], []; }

    method Flush()
      modifies this
      ensures Abs() == Flushed(old(Abs()))
    {
      if |pending| == 0 {
        return;
      }
      turns := turns + [Turn(false, pending)];
      pending := [];
    }

    method AddMessage(model: bool, blocks: seq<B>)
      modifies this
      ensures Abs() == Say(Flushed(old(Abs())), model, blocks)
    {
      Flush();
      if |blocks| == 0 {
        return;
      }
      turns := turns + [Turn(model, blocks)];
    }

    method AddResult(block: B)
      modifies this
      ensures Abs() == old(Abs()).(pending := old(pending) + [block])
    {
      pending := pending + [block];
    }
  }

  // ---- Nothing is lost, reordered or invented -------------------------------------------------

  datatype Tagged<B> = Tagged(model: bool, block: B)

  function Tag<B>(model: bool, blocks: seq<B>): (r: seq<Tagged<B>>)
    ensures |r| == |blocks|
  {
    seq(|blocks|, i requires 0 <= i < |blocks| => Tagged(model, blocks[i]))
  }

  /** The blocks of the output in order, each with the side that says it. */
  function Flat<B>(turns: seq<Turn<B>>): seq<Tagged<B>> {
    if turns == [] then []
    else Flat(turns[..|turns| - 1]) + Tag(turns[|turns| - 1].model, turns[|turns| - 1].blocks)
  }

  function ItemBlocks<B>(item: Item<B>): seq<Tagged<B>> {
    match item
    case User(bs) => Tag(false, bs)
    case Model(bs) => Tag(true, bs)
    case Result(b) => [Tagged(false, b)]
    case Aside => []
  }

  /** The blocks of the first n messages in order. */
  function Said<B>(items: seq<Item<B>>, n: nat): seq<Tagged<B>>
    requires n <= |items|
  {
    if n == 0 then [] else Said(items, n - 1) + ItemBlocks(items[n - 1])
  }

  lemma FlatSnoc<B>(turns: seq<Turn<B>>, t: Turn<B>)
    ensures Flat(turns + [t]) == Flat(turns) + Tag(t.model, t.blocks)
  {
    assert (turns + [t])[..|turns|] == turns;
  }

  lemma FlushKeeps<B>(s: Buffer<B>)
    ensures Flat(Flushed(s).turns) == Flat(s.turns) + Tag(false, s.pending)
  {
    if s.pending != [] { FlatSnoc(s.turns, Turn(false, s.pending)); }
    else { assert Flat(s.turns) + [] == Flat(s.turns); }
  }

  lemma SayKeeps<B>(s: Buffer<B>, model: bool, blocks: seq<B>)
    ensures Flat(Say(s, model, blocks).turns) == Flat(s.turns) + Tag(model, blocks)
  {
    if blocks != [] { FlatSnoc(s.turns, Turn(model, blocks)); }
    else { assert Flat(s.turns) + [] == Flat(s.turns); }
  }

  function Held<B>(s: Buffer<B>): seq<Tagged<B>> { Flat(s.turns) + Tag(false, s.pending) }

  lemma SpeakKeeps<B>(s: Buffer<B>, model: bool, blocks: seq<B>)
    ensures Held(Say(Flushed(s), model, blocks)) == Held(s) + Tag(model, blocks)
  {
    FlushKeeps(s);
    SayKeeps(Flushed(s), model, blocks);
    Trailing(Held(s) + Tag(model, blocks));
  }

  lemma ResultKeeps<B>(s: Buffer<B>, b: B)
    ensures Held(s.(pending := s.pending + [b])) == Held(s) + [Tagged(false, b)]
  {
    assert Tag(false, s.pending + [b]) == Tag(false, s.pending) + [Tagged(false, b)];
  }

  lemma AddKeeps<B>(s: Buffer<B>, item: Item<B>)
    ensures Held(Add(s, item)) == Held(s) + ItemBlocks(item)
  {
    match item {
      case User(bs) => SpeakKeeps(s, false, bs);
      case Model(bs) => SpeakKeeps(s, true, bs);
      case Result(b) => ResultKeeps(s, b);
      case Aside => Trailing(Held(s));
    }
  }

  lemma KeepsOn<B>(s: Buffer<B>, item: Item<B>, t: Buffer<B>, said: seq<Tagged<B>>, more: seq<Tagged<B>>)
    requires t == Add(s, item) && more == said + ItemBlocks(item) && Held(s) == said
    ensures Held(t) == more
  {
    AddKeeps(s, item);
  }

  lemma AfterStep<B>(items: seq<Item<B>>, n: nat)
    requires 0 < n <= |items|
    ensures After(items, n) == Add(After(items, n - 1), items[n - 1])
  {
  }

  lemma SaidStep<B>(items: seq<Item<B>>, n: nat)
    requires 0 < n <= |items|
    ensures Said(items, n) == Said(items, n - 1) + ItemBlocks(items[n - 1])
  {
  }

  lemma {:induction false} AfterKeeps<B>(items: seq<Item<B>>, n: nat)
    requires n <= |items|
    ensures Held(After(items, n)) == Said(items, n)
  {
    if n > 0 {
      assert Held(After(items, n - 1)) == Said(items, n - 1) by { AfterKeeps(items, n - 1); }
      assert After(items, n) == Add(After(items, n - 1), items[n - 1]) by { AfterStep(items, n); }
      assert Said(items, n) == Said(items, n - 1) + ItemBlocks(items[n - 1]) by { SaidStep(items, n); }
      KeepsOn(After(items, n - 1), items[n - 1], After(items, n), Said(items, n - 1), Said(items, n));
    }
  }

  /** The output's blocks, in order and with their side, are exactly the input's. */
  lemma MeaningPreserved<B>(items: seq<Item<B>>)
    ensures Flat(Build(items)) == Said(items, |items|)
  {
    AfterKeeps(items, |items|);
    FlushKeeps(After(items, |items|));
  }

  lemma {:induction false} AfterNonEmpty<B>(items: seq<Item<B>>, n: nat)
    requires n <= |items|
    ensures forall t :: t in After(items, n).turns ==> t.blocks != []
  {
    if n > 0 { AfterNonEmpty(items, n - 1); }
  }

  /** No output message is empty. */
  lemma NoEmptyTurn<B>(items: seq<Item<B>>)
    ensures forall t :: t in Build(items) ==> t.blocks != []
  {
    AfterNonEmpty(items, |items|);
  }

  // ---- Which results share a turn ---------------------------------------------------------------

  /** The output message that holds the p-th block of the output. */
  function TurnOf<B>(turns: seq<Turn<B>>, p: nat): nat
    requires p < |Flat(turns)|
  {
    var front := turns[..|turns| - 1];
    if p < |Flat(front)| then TurnOf(front, p) else |front|
  }

  lemma TurnOfFlushed<B>(turns: seq<Turn<B>>, pending: seq<B>, p: nat)
    requires |Flat(turns)| <= p < |Flat(turns)| + |pending|
    ensures var all := turns + [Turn(false, pending)]; p < |Flat(all)| && TurnOf(all, p) == |turns|
  {
    FlatSnoc(turns, Turn(false, pending));
    assert (turns + [Turn(false, pending)])[..|turns|] == turns;
  }

  lemma TurnOfExtends<B>(turns: seq<Turn<B>>, t: Turn<B>, p: nat)
    requires p < |Flat(turns)|
    ensures p < |Flat(turns + [t])| && TurnOf(turns + [t], p) == TurnOf(turns, p)
  {
    FlatSnoc(turns, t);
    assert (turns + [t])[..|turns|] == turns;
  }

  /** Block p is pending as part of turn q, or already in turn q. */
  ghost predicate Homed<B>(s: Buffer<B>, p: nat, q: nat) {
    (|s.turns| == q && |Flat(s.turns)| <= p < |Flat(s.turns)| + |s.pending|)
    || (p < |Flat(s.turns)| && TurnOf(s.turns, p) == q)
  }

  lemma FlushHomes<B>(s: Buffer<B>, p: nat, q: nat)
    requires Homed(s, p, q)
    ensures p < |Flat(Flushed(s).turns)| && TurnOf(Flushed(s).turns, p) == q
  {
    if p < |Flat(s.turns)| {
      if s.pending != [] { TurnOfExtends(s.turns, Turn(false, s.pending), p); }
    } else {
      TurnOfFlushed(s.turns, s.pending, p);
    }
  }

  lemma AddHomes<B>(s: Buffer<B>, item: Item<B>, p: nat, q: nat)
    requires Homed(s, p, q)
    ensures Homed(Add(s, item), p, q)
  {
    if item.User? || item.Model? {
      FlushHomes(s, p, q);
      if item.blocks != [] { TurnOfExtends(Flushed(s).turns, Turn(item.Model?, item.blocks), p); }
    }
  }

  lemma {:induction false} StaysHome<B>(items: seq<Item<B>>, m: nat, n: nat, p: nat, q: nat)
    requires m <= n <= |items| && Homed(After(items, m), p, q)
    ensures Homed(After(items, n), p, q)
  {
    if m < n {
      StaysHome(items, m, n - 1, p, q);
      AddHomes(After(items, n - 1), items[n - 1], p, q);
    }
  }

  /** Where the block of result item i ends up. */
  lemma ResultHome<B>(items: seq<Item<B>>, i: nat)
    requires i < |items| && items[i].Result?
    ensures var p := |Said(items, i)|;
      p < |Flat(Build(items))| && Flat(Build(items))[p] == Tagged(false, items[i].block)
      && TurnOf(Build(items), p) == |After(items, i).turns|
  {
    var p, q := |Said(items, i)|, |After(items, i).turns|;
    PendingHome(items, i);
    StaysHome(items, i + 1, |items|, p, q);
    FlushHomes(After(items, |items|), p, q);
    ResultAt(items, i);
  }

  /** It is pending right after its item. */
  lemma PendingHome<B>(items: seq<Item<B>>, i: nat)
    requires i < |items| && items[i].Result?
    ensures Homed(After(items, i + 1), |Said(items, i)|, |After(items, i).turns|)
  {
    var s := After(items, i);
    AfterKeeps(items, i);
    assert After(items, i + 1) == s.(pending := s.pending + [items[i].block]);
    assert |Held(s)| == |Flat(s.turns)| + |s.pending|;
  }

  /** Its place among the blocks of the output. */
  lemma ResultAt<B>(items: seq<Item<B>>, i: nat)
    requires i < |items| && items[i].Result?
    ensures var p := |Said(items, i)|;
      p < |Flat(Build(items))| && Flat(Build(items))[p] == Tagged(false, items[i].block)
  {
    MeaningPreserved(items);
    SaidAt(items, i);
  }

  lemma SaidAt<B>(items: seq<Item<B>>, i: nat)
    requires i < |items| && items[i].Result?
    ensures var p := |Said(items, i)|;
      p < |Said(items, |items|)| && Said(items, |items|)[p] == Tagged(false, items[i].block)
  {
    var x := Tagged(false, items[i].block);
    assert Said(items, i) + [x] <= Said(items, |items|) by {
      SaidPrefix(items, i + 1, |items|);
      SaidStep(items, i + 1);
    }
    Within(Said(items, |items|), Said(items, i), x);
  }

  lemma Within<T>(whole: seq<T>, front: seq<T>, x: T)
    requires front + [x] <= whole
    ensures |front| < |whole| && whole[|front|] == x
  {
    assert (front + [x])[|front|] == x;
  }

  lemma {:induction false} SaidPrefix<B>(items: seq<Item<B>>, m: nat, n: nat)
    requires m <= n <= |items|
    ensures Said(items, m) <= Said(items, n)
  {
    if m < n { SaidPrefix(items, m, n - 1); }
  }

  predicate Breaks<B>(item: Item<B>) { item.User? || item.Model? }

  lemma {:induction false} TurnsGrow<B>(items: seq<Item<B>>, i: nat, j: nat)
    requires i < j <= |items| && items[i].Result?
    ensures if exists k :: i < k < j && Breaks(items[k]) then |After(items, j).turns| > |After(items, i).turns|
            else After(items, j).turns == After(items, i).turns && After(items, j).pending != []
  {
    if j > i + 1 {
      TurnsGrow(items, i, j - 1);
      if Breaks(items[j - 1]) {
        assert i < j - 1 < j && Breaks(items[j - 1]);
      }
    }
  }

  /** The results of items i and j are in one output message. */
  ghost predicate SameTurn<B>(items: seq<Item<B>>, i: nat, j: nat)
    requires i < |items| && j < |items|
  {
    && |Said(items, i)| < |Flat(Build(items))| && |Said(items, j)| < |Flat(Build(items))|
    && TurnOf(Build(items), |Said(items, i)|) == TurnOf(Build(items), |Said(items, j)|)
  }

  /** Two tool results share an output message exactly when no user or assistant message,
      not even an empty one, lies between them. */
  lemma ResultsShareTurnIff<B>(items: seq<Item<B>>, i: nat, j: nat)
    requires i < j < |items| && items[i].Result? && items[j].Result?
    ensures SameTurn(items, i, j) <==> forall k :: i < k < j ==> !Breaks(items[k])
  {
    ResultHome(items, i);
    ResultHome(items, j);
    TurnsGrow(items, i, j);
  }

  lemma {:induction false} AfterSame<B>(a: seq<Item<B>>, b: seq<Item<B>>, n: nat)
    requires n <= |a| && n <= |b| && a[..n] == b[..n]
    ensures After(a, n) == After(b, n) && Said(a, n) == Said(b, n)
  {
    if n > 0 {
      assert a[..n - 1] == a[..n][..n - 1] && b[..n - 1] == b[..n][..n - 1];
      assert a[n - 1] == a[..n][n - 1] && b[n - 1] == b[..n][n - 1];
      AfterSame(a, b, n - 1);
    }
  }

  lemma AfterSnoc<B>(items: seq<Item<B>>, item: Item<B>)
    ensures After(items + [item], |items| + 1) == Add(After(items, |items|), item)
  {
    AfterSame(items, items + [item], |items|);
  }

  /** An empty message says nothing and still parts two results. */
  lemma EmptyTurnParts<B>(a: B, b: B)
    ensures Build([Result(a), Model([]), Result(b)]) == [Turn(false, [a]), Turn(false, [b])]
  {
    var items := [Result(a), Model([]), Result(b)];
    assert After(items, 1) == Buffer([], [a]);
    assert After(items, 2) == Buffer([Turn(false, [a])], []);
    assert After(items, 3) == Buffer([Turn(false, [a])], [b]);
  }
}
