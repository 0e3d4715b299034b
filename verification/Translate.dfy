/** The message loop that both vendor translators run (llm/bedrock/bedrock.go,
    llm/vertex/vertex.go), for any translation of one message into blocks. */
module Translate {
  import opened Wrappers
  import opened Turns
  import opened MessageCodec

  /** How a vendor renders the content of a message, by role. */
  datatype Vendor<B, E> = Vendor(
    user: Message -> Result<seq<B>, E>,
    assistant: Message -> Result<seq<B>, E>,
    tool: Message -> Result<B, E>)

  /** What a message contributes; system messages and unknown roles add no turn. */
  function ItemOf<B, E>(v: Vendor<B, E>): Message -> Result<Item<B>, E> {
    (m: Message) =>
      match m.role
      case "user" => (match v.user(m) case Err(e) => Err(e) case Ok(bs) => Ok(User(bs)))
      case "assistant" => (match v.assistant(m) case Err(e) => Err(e) case Ok(bs) => Ok(Model(bs)))
      case "tool" => (match v.tool(m) case Err(e) => Err(e) case Ok(b) => Ok(Item.Result(b)))
      case _ => Ok(Aside)
  }

  function Items<B, E>(v: Vendor<B, E>, ms: seq<Message>): (r: Result<seq<Item<B>>, E>)
    ensures r.Ok? ==> |r.value| == |ms|
  {
    Each(ItemOf(v), ms)
  }

  /** The system texts, kept apart from the messages. */
  function System(ms: seq<Message>): seq<string> {
    if ms == [] then []
    else
      var m := ms[|ms| - 1];
      System(ms[..|ms| - 1]) + if m.role == "system" && m.content != "" then [m.content] else []
  }

  /** What one message says and on which side, by its role. */
  function Voiced<B, E>(v: Vendor<B, E>, m: Message): Result<seq<Tagged<B>>, E> {
    if m.role == "user" then Spoken(v.user(m), false)
    else if m.role == "assistant" then Spoken(v.assistant(m), true)
    else if m.role != "tool" then Ok([])
    else match v.tool(m) case Err(e) => Err(e) case Ok(b) => Ok([Tagged(false, b)])
  }

  function Spoken<B, E>(blocks: Result<seq<B>, E>, model: bool): Result<seq<Tagged<B>>, E> {
    match blocks
    case Err(e) => Err(e)
    case Ok(bs) => Ok(seq(|bs|, i requires 0 <= i < |bs| => Tagged(model, bs[i])))
  }

  /** What the messages say in order, if all of them can be rendered. */
  function AllVoiced<B, E>(v: Vendor<B, E>, ms: seq<Message>): seq<Tagged<B>> {
    if ms == [] then []
    else
      var front := AllVoiced(v, ms[..|ms| - 1]);
      match Voiced(v, ms[|ms| - 1]) case Err(_) => front case Ok(ts) => front + ts
  }

  ghost predicate Renders<B, E>(v: Vendor<B, E>, ms: seq<Message>) {
    forall i :: 0 <= i < |ms| ==> Voiced(v, ms[i]).Ok?
  }

  /** The turns say exactly what the messages say, block by block and side by side, and no
      turn is empty. */
  ghost predicate Says<B, E>(turns: seq<Turn<B>>, v: Vendor<B, E>, ms: seq<Message>) {
    Renders(v, ms) && Flat(turns) == AllVoiced(v, ms) && forall t :: t in turns ==> t.blocks != []
  }

  /** The first message that cannot be rendered gives the error. */
  ghost predicate FailsFirst<B, E>(v: Vendor<B, E>, ms: seq<Message>, i: int, e: E) {
    0 <= i < |ms| && Voiced(v, ms[i]) == Err(e) && Renders(v, ms[..i])
  }

  method TranslateMessages<B, E>(v: Vendor<B, E>, ms: seq<Message>) returns (r: Result<(seq<Turn<B>>, seq<string>), E>)
    ensures match Items(v, ms)
      case Err(e) => r == Err(e)
      case Ok(items) => r == Ok((Build(items), System(ms)))
    ensures r.Ok? ==> Says(r.value.0, v, ms)
    ensures r.Err? ==> exists i :: FailsFirst(v, ms, i, r.error)
  {
    var system: seq<string> := [];
    var out := new TurnBuilder<B>();
    ghost var items: seq<Item<B>> := [];
    for i := 0 to |ms|
      invariant Items(v, ms[..i]) == Ok(items)
      invariant out.Abs() == After(items, |items|) && fresh(out)
      invariant system == System(ms[..i])
    {
      var m := ms[i];
      assert ms[..i + 1][..i] == ms[..i];
      var item := ItemOf(v)(m);
      if item.Err? {
        EachStops(ItemOf(v), ms, i + 1);
        RendersEach(v, ms[..i]);
        ItemVoiced(v, m);
        assert FailsFirst(v, ms, i, item.error);
        return Err(item.error);
      }
      AfterSnoc(items, item.value);
      match item.value {
        case User(bs) => out.AddMessage(false, bs);
        case Model(bs) => out.AddMessage(true, bs);
        case Result(b) => out.AddResult(b);
        case Aside =>
      }
      if m.role == "system" && m.content != "" {
        system := system + [m.content];
      }
      items := items + [item.value];
    }
    assert ms[..|ms|] == ms;
    out.Flush();
    TranslationPreservesMeaning(v, ms);
    return Ok((out.turns, system));
  }

  predicate Speaks(m: Message) { m.role == "user" || m.role == "assistant" }

  lemma RoleOfItem<B, E>(v: Vendor<B, E>, m: Message)
    requires ItemOf(v)(m).Ok?
    ensures Breaks(ItemOf(v)(m).value) == Speaks(m)
    ensures ItemOf(v)(m).value.Result? == (m.role == "tool")
  {
  }

  /** An item holds what its message says. */
  lemma ItemVoiced<B, E>(v: Vendor<B, E>, m: Message)
    ensures Voiced(v, m) == match ItemOf(v)(m) case Err(e) => Err(e) case Ok(item) => Ok(ItemBlocks(item))
  {
  }

  lemma RendersEach<B, E>(v: Vendor<B, E>, ms: seq<Message>)
    requires Items(v, ms).Ok?
    ensures Renders(v, ms)
  {
    forall i | 0 <= i < |ms| ensures Voiced(v, ms[i]).Ok? {
      EachAt(ItemOf(v), ms, i);
      ItemVoiced(v, ms[i]);
    }
  }

  lemma {:induction false} SaidIsVoiced<B, E>(v: Vendor<B, E>, ms: seq<Message>)
    requires Items(v, ms).Ok?
    ensures Said(Items(v, ms).value, |ms|) == AllVoiced(v, ms)
  {
    if ms != [] {
      var front, items := ms[..|ms| - 1], Items(v, ms).value;
      SaidIsVoiced(v, front);
      ItemVoiced(v, ms[|ms| - 1]);
      AfterSame(Items(v, front).value, items, |front|);
    }
  }

  /** A translated request says exactly what its messages say, each on the side of its role,
      in order, and in no empty message. */
  lemma TranslationPreservesMeaning<B, E>(v: Vendor<B, E>, ms: seq<Message>)
    requires Items(v, ms).Ok?
    ensures Says(Build(Items(v, ms).value), v, ms)
  {
    var items := Items(v, ms).value;
    MeaningPreserved(items);
    NoEmptyTurn(items);
    SaidIsVoiced(v, ms);
    RendersEach(v, ms);
  }

  /** The system texts are the non-empty contents of the system messages, in order. */
  lemma {:induction false} SystemTexts(a: seq<Message>, m: Message, b: seq<Message>)
    ensures System(a + [m] + b) == System(a) + (if m.role == "system" && m.content != "" then [m.content] else []) + System(b)
  {
    var ms := a + [m] + b;
    if b == [] {
      assert ms[..|ms| - 1] == a && ms[|ms| - 1] == m;
    } else {
      var n := |b| - 1;
      assert ms[..|ms| - 1] == a + [m] + b[..n] && ms[|ms| - 1] == b[n];
      SystemTexts(a, m, b[..n]);
    }
  }

  /** Two tool results share a message exactly when no user or assistant message lies
      between them. */
  lemma ToolResultsShareIff<B, E>(v: Vendor<B, E>, ms: seq<Message>, i: nat, j: nat)
    requires Items(v, ms).Ok? && i < j < |ms| && ms[i].role == "tool" && ms[j].role == "tool"
    ensures SameTurn(Items(v, ms).value, i, j) <==> forall k :: i < k < j ==> !Speaks(ms[k])
  {
    var items := Items(v, ms).value;
    forall k: nat | k < |ms| ensures Breaks(items[k]) == Speaks(ms[k]) && items[k].Result? == (ms[k].role == "tool") {
      EachAt(ItemOf(v), ms, k);
      RoleOfItem(v, ms[k]);
    }
    ResultsShareTurnIff(items, i, j);
    assert (forall k :: i < k < j ==> !Breaks(items[k])) <==> (forall k :: i < k < j ==> !Speaks(ms[k]));
  }

  /** Two results parted only by an assistant message that has nothing to say: the empty
      message still flushes, so they go out in two messages. */
  lemma EmptyMessageParts<B, E>(v: Vendor<B, E>, first: Message, empty: Message, second: Message)
    requires first.role == second.role == "tool" && empty.role == "assistant" && v.assistant(empty) == Ok([])
    requires v.tool(first).Ok? && v.tool(second).Ok?
    ensures Items(v, [first, empty, second]).Ok?
    ensures Build(Items(v, [first, empty, second]).value) ==
      [Turn(false, [v.tool(first).value]), Turn(false, [v.tool(second).value])]
  {
    var f := ItemOf(v);
    EachSnoc(f, [], first);
    EachSnoc(f, [first], empty);
    EachSnoc(f, [first, empty], second);
    assert [] + [first] == [first] && [first] + [empty] == [first, empty] && [first, empty] + [second] == [first, empty, second];
    var a, b := v.tool(first).value, v.tool(second).value;
    assert Items(v, [first, empty, second]).value == [Item.Result(a), Model([]), Item.Result(b)];
    EmptyTurnParts(a, b);
  }
}
