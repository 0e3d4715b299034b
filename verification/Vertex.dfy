/** Translation of a chat request to Vertex contents (llm/vertex/vertex.go), and the ids
    that let a tool result find the name of its call. */
module Vertex {
  import opened Wrappers
  import opened Turns
  import opened MessageCodec
  import opened Translate
  import Decimal

  datatype Block =
    | Text(text: string)
    | Bytes(data: seq<int>, mime: string)
    | Uri(uri: string, mime: string)
    | FunctionCall(name: string, args: Json)
    | FunctionResponse(name: string, payload: Json, media: seq<Block>)

  datatype Error = BadPart(typ: string) | BadArguments(name: string)

  /** json.Unmarshal into an object, json.Unmarshal into any value, and the id-to-name map. */
  datatype Env = Env(parseObject: string -> Option<Json>, parse: string -> Option<Json>, names: map<string, string>)

  // ---- Tool-call ids -----------------------------------------------------------------------

  function SynthId(provided: string, name: string, idx: nat): string {
    if provided != "" then provided else "call_" + name + "_" + Decimal.Digits(idx)
  }

  /** The tool-call branch of the stream loop: one counter across the whole stream. */
  method IdsOfStream(calls: seq<(string, string)>) returns (ids: seq<string>)
    ensures |ids| == |calls| && forall i :: 0 <= i < |calls| ==> ids[i] == SynthId(calls[i].0, calls[i].1, i)
  {
    ids := [];
    var toolCallIdx := 0;
    for i := 0 to |calls|
      invariant toolCallIdx == i == |ids|
      invariant forall j :: 0 <= j < i ==> ids[j] == SynthId(calls[j].0, calls[j].1, j)
    {
      ids := ids + [SynthId(calls[i].0, calls[i].1, toolCallIdx)];
      toolCallIdx := toolCallIdx + 1;
    }
  }

  function TrailingDigits(s: string): nat {
    if s == [] || !Decimal.IsDigit(s[|s| - 1]) then 0 else 1 + TrailingDigits(s[..|s| - 1])
  }

  lemma {:induction false} DigitsAfterUnderscore(name: string, d: string)
    requires Decimal.AllDigits(d)
    ensures TrailingDigits(name + "_" + d) == |d|
  {
    var s := name + "_" + d;
    if d == [] {
      assert s == name + "_";
    } else {
      var front := d[..|d| - 1];
      assert s[..|s| - 1] == name + "_" + front && d[|d| - 1] in d && forall c :: c in front ==> c in d;
      DigitsAfterUnderscore(name, front);
    }
  }

  /** Synthesised ids determine both the name and the index, whatever the name contains. */
  lemma SynthIdInjective(name: string, i: nat, other: string, j: nat)
    requires SynthId("", name, i) == SynthId("", other, j)
    ensures name == other && i == j
  {
    var s, t := name + "_" + Decimal.Digits(i), other + "_" + Decimal.Digits(j);
    assert "call_" + name + "_" + Decimal.Digits(i) == "call_" + s && "call_" + other + "_" + Decimal.Digits(j) == "call_" + t;
    assert s == ("call_" + s)[5..] && t == ("call_" + t)[5..];
    DigitsAfterUnderscore(name, Decimal.Digits(i));
    DigitsAfterUnderscore(other, Decimal.Digits(j));
    var n, m := |name|, |other|;
    assert s[..n] == name && t[..m] == other && s[n + 1..] == Decimal.Digits(i) && t[m + 1..] == Decimal.Digits(j);
    Decimal.ValueOfDigits(i);
    Decimal.ValueOfDigits(j);
  }

  /** The id of call k of a stream of (provided id, name) pairs. */
  function IdAt(calls: seq<(string, string)>, k: nat): string
    requires k < |calls|
  {
    SynthId(calls[k].0, calls[k].1, k)
  }

  ghost predicate DistinctIds(calls: seq<(string, string)>) {
    forall i: nat, j: nat :: i < j < |calls| ==> IdAt(calls, i) != IdAt(calls, j)
  }

  /** The provider repeated an id, or gave one that spells the id synthesised for call j. */
  predicate Clash(calls: seq<(string, string)>, i: nat, j: nat) {
    && i < |calls| && j < |calls| && i != j && calls[i].0 != ""
    && calls[i].0 == if calls[j].0 != "" then calls[j].0 else SynthId("", calls[j].1, j)
  }

  /** The ids of one stream are distinct exactly when no provided id clashes; two synthesised
      ids never do. */
  lemma DistinctIdsIff(calls: seq<(string, string)>)
    ensures DistinctIds(calls) <==> forall i: nat, j: nat :: !Clash(calls, i, j)
  {
    if forall i: nat, j: nat :: !Clash(calls, i, j) {
      forall i: nat, j: nat | i < j < |calls| ensures IdAt(calls, i) != IdAt(calls, j) {
        assert !Clash(calls, i, j) && !Clash(calls, j, i);
        if calls[i].0 == "" && calls[j].0 == "" { SynthIdsDiffer(calls[i].1, i, calls[j].1, j); }
      }
    }
    forall i: nat, j: nat | Clash(calls, i, j) ensures !DistinctIds(calls) {
      assert IdAt(calls, i) == IdAt(calls, j);
    }
  }

  lemma SynthIdsDiffer(name: string, i: nat, other: string, j: nat)
    requires i != j
    ensures SynthId("", name, i) != SynthId("", other, j)
  {
    if SynthId("", name, i) == SynthId("", other, j) { SynthIdInjective(name, i, other, j); }
  }

  /** A stream that provides no id has distinct ids, however often a tool is called. */
  lemma SynthesisedDistinct(calls: seq<(string, string)>)
    requires forall i :: 0 <= i < |calls| ==> calls[i].0 == ""
    ensures DistinctIds(calls)
  {
    DistinctIdsIff(calls);
  }

  /** A provided id that breaks it. */
  lemma ProvidedIdCanClash()
    ensures !DistinctIds([("call_x_1", "y"), ("", "x")])
  {
    var calls := [("call_x_1", "y"), ("", "x")];
    assert Decimal.Digits(1) == "1";
    assert IdAt(calls, 0) == IdAt(calls, 1);
  }

  // ---- The id-to-name pass ---------------------------------------------------------------

  function IndexCalls(names: map<string, string>, tcs: seq<ToolCall>): map<string, string> {
    if tcs == [] then names else
      var m := IndexCalls(names, tcs[..|tcs| - 1]);
      var tc := tcs[|tcs| - 1];
      if tc.id != "" && tc.name != "" then m[tc.id := tc.name] else m
  }

  function IdToName(ms: seq<Message>): map<string, string> {
    if ms == [] then map[] else
      var m := ms[|ms| - 1];
      if m.role == "assistant" then IndexCalls(IdToName(ms[..|ms| - 1]), m.toolCalls) else IdToName(ms[..|ms| - 1])
  }

  method BuildIdToName(ms: seq<Message>) returns (names: map<string, string>)
    ensures names == IdToName(ms)
  {
    names := map[];
    for i := 0 to |ms|
      invariant names == IdToName(ms[..i])
    {
      var m := ms[i];
      assert ms[..i + 1][..i] == ms[..i];
      if m.role != "assistant" {
        continue;
      }
      ghost var before := names;
      for j := 0 to |m.toolCalls|
        invariant names == IndexCalls(before, m.toolCalls[..j])
      {
        var tc := m.toolCalls[j];
        assert m.toolCalls[..j + 1][..j] == m.toolCalls[..j];
        if tc.id != "" && tc.name != "" {
          names := names[tc.id := tc.name];
        }
      }
      assert m.toolCalls[..|m.toolCalls|] == m.toolCalls;
    }
    assert ms[..|ms|] == ms;
  }

  /** An assistant message of the history made this call. */
  ghost predicate Called(ms: seq<Message>, id: string, name: string) {
    exists i: nat, k: nat :: i < |ms| && ms[i].role == "assistant" && k < |ms[i].toolCalls|
      && ms[i].toolCalls[k].id == id && ms[i].toolCalls[k].name == name
  }

  lemma {:induction false} IndexedCalls(names: map<string, string>, tcs: seq<ToolCall>, id: string)
    ensures var m := IndexCalls(names, tcs);
      && (id in m ==> (id in names && m[id] == names[id]) || exists k :: 0 <= k < |tcs| && tcs[k].id == id && tcs[k].name == m[id] && id != "" && m[id] != "")
      && (id in names ==> id in m)
      && forall k :: 0 <= k < |tcs| && tcs[k].id == id && id != "" && tcs[k].name != "" ==> id in m
  {
    if tcs != [] {
      var n := |tcs| - 1;
      IndexedCalls(names, tcs[..n], id);
      var m := IndexCalls(names, tcs[..n]);
      if id in IndexCalls(names, tcs) && !(tcs[n].id == id && id != "" && tcs[n].name != "") && !(id in names && m[id] == names[id]) {
        var k :| 0 <= k < n && tcs[..n][k].id == id && tcs[..n][k].name == m[id] && id != "" && m[id] != "";
        assert tcs[k].id == id && tcs[k].name == m[id];
      }
    }
  }

  /** The map knows exactly the ids of named calls, and gives each the name of one of them. */
  lemma {:induction false} NamesAreCalls(ms: seq<Message>, id: string)
    ensures var m := IdToName(ms);
      && (id in m ==> id != "" && m[id] != "" && Called(ms, id, m[id]))
      && (forall name :: id != "" && name != "" && Called(ms, id, name) ==> id in m)
    decreases |ms|
  {
    if ms != [] {
      var n := |ms| - 1;
      var last, front := ms[n], ms[..n];
      NamesAreCalls(front, id);
      if last.role == "assistant" { IndexedCalls(IdToName(front), last.toolCalls, id); }
      forall name | Called(front, id, name) ensures Called(ms, id, name) {
        var i: nat, k: nat :| i < |front| && front[i].role == "assistant" && k < |front[i].toolCalls|
          && front[i].toolCalls[k].id == id && front[i].toolCalls[k].name == name;
        assert ms[i] == front[i];
      }
      forall name | id != "" && name != "" && Called(ms, id, name) ensures id in IdToName(ms) {
        var i: nat, k: nat :| i < |ms| && ms[i].role == "assistant" && k < |ms[i].toolCalls|
          && ms[i].toolCalls[k].id == id && ms[i].toolCalls[k].name == name;
        if i < n { assert front[i] == ms[i]; assert Called(front, id, name); }
      }
    }
  }

  /** All calls of the history in order. */
  function HistoryCalls(ms: seq<Message>): seq<ToolCall> {
    if ms == [] then [] else
      var m := ms[|ms| - 1];
      HistoryCalls(ms[..|ms| - 1]) + if m.role == "assistant" then m.toolCalls else []
  }

  lemma {:induction false} IndexConcat(names: map<string, string>, a: seq<ToolCall>, b: seq<ToolCall>)
    ensures IndexCalls(names, a + b) == IndexCalls(IndexCalls(names, a), b)
  {
    if b == [] {
      assert a + b == a;
    } else {
      var n := |b| - 1;
      assert (a + b)[..|a + b| - 1] == a + b[..n];
      IndexConcat(names, a, b[..n]);
    }
  }

  lemma {:induction false} IndexHistory(ms: seq<Message>)
    ensures IdToName(ms) == IndexCalls(map[], HistoryCalls(ms))
  {
    if ms != [] {
      var m, front := ms[|ms| - 1], ms[..|ms| - 1];
      IndexHistory(front);
      IndexConcat(map[], HistoryCalls(front), if m.role == "assistant" then m.toolCalls else []);
    }
  }

  predicate Names(tc: ToolCall, id: string) { tc.id == id && tc.name != "" }

  /** Call k is the last named call with this id. */
  ghost predicate LastNamed(tcs: seq<ToolCall>, id: string, k: int) {
    0 <= k < |tcs| && Names(tcs[k], id) && forall j :: k < j < |tcs| ==> !Names(tcs[j], id)
  }

  ghost predicate LastName(tcs: seq<ToolCall>, id: string, name: string) {
    exists k :: LastNamed(tcs, id, k) && tcs[k].name == name
  }

  lemma {:induction false} LastIndexed(tcs: seq<ToolCall>, id: string, name: string)
    requires id != ""
    ensures var m := IndexCalls(map[], tcs);
      (id in m && m[id] == name) <==> LastName(tcs, id, name)
  {
    if tcs != [] {
      var n := |tcs| - 1;
      LastIndexed(tcs[..n], id, name);
      if Names(tcs[n], id) {
        assert LastNamed(tcs, id, n);
        assert forall k :: LastNamed(tcs, id, k) ==> k == n;
      } else {
        LastStays(tcs, id, name);
      }
    }
  }

  lemma LastStays(tcs: seq<ToolCall>, id: string, name: string)
    requires tcs != [] && !Names(tcs[|tcs| - 1], id)
    ensures LastName(tcs, id, name) <==> LastName(tcs[..|tcs| - 1], id, name)
  {
    var n := |tcs| - 1;
    var front := tcs[..n];
    forall k | 0 <= k < n ensures LastNamed(tcs, id, k) <==> LastNamed(front, id, k) {
      assert forall j :: 0 <= j < n ==> front[j] == tcs[j];
    }
    if LastName(tcs, id, name) {
      var k :| LastNamed(tcs, id, k) && tcs[k].name == name;
      assert LastNamed(front, id, k) && front[k].name == name;
    }
    if LastName(front, id, name) {
      var k :| LastNamed(front, id, k) && front[k].name == name;
      assert LastNamed(tcs, id, k) && tcs[k].name == name;
    }
  }

  /** The map gives each id the name of the last named call that carries it. */
  lemma LastNameWins(ms: seq<Message>, id: string, name: string)
    requires id != ""
    ensures (id in IdToName(ms) && IdToName(ms)[id] == name) <==> LastName(HistoryCalls(ms), id, name)
  {
    IndexHistory(ms);
    LastIndexed(HistoryCalls(ms), id, name);
  }

  /** Every tool result is given the name of its call exactly when no two named calls of
      the history share an id under different names. */
  lemma NameRecoveredIff(ms: seq<Message>)
    ensures (forall id, name :: id != "" && name != "" && Called(ms, id, name) ==> id in IdToName(ms) && IdToName(ms)[id] == name)
       <==> (forall id, a, b :: id != "" && a != "" && b != "" && Called(ms, id, a) && Called(ms, id, b) ==> a == b)
  {
    forall id: string ensures id in IdToName(ms) ==> id != "" && IdToName(ms)[id] != "" && Called(ms, id, IdToName(ms)[id]) {
      NamesAreCalls(ms, id);
    }
    forall id, name | id != "" && name != "" && Called(ms, id, name) ensures id in IdToName(ms) {
      NamesAreCalls(ms, id);
    }
  }

  /** All ids of a history were synthesised, by streams that each restarted the counter. */
  ghost predicate Synthesised(ms: seq<Message>) {
    forall id, name :: Called(ms, id, name) ==> name != "" && exists idx: nat :: id == SynthId("", name, idx)
  }

  /** So in any history of synthesised ids every tool result recovers the name of its call. */
  lemma SynthesisedNamesRecovered(ms: seq<Message>, id: string, name: string)
    requires Synthesised(ms) && Called(ms, id, name)
    ensures id in IdToName(ms) && IdToName(ms)[id] == name
  {
    var i: nat :| id == SynthId("", name, i);
    assert id[0] == 'c';
    NamesAreCalls(ms, id);
    var found := IdToName(ms)[id];
    var j: nat :| id == SynthId("", found, j);
    SynthIdInjective(name, i, found, j);
  }

  // ---- The request -------------------------------------------------------------------------

  function PartBlock(p: Part): Result<Block, Error> {
    if p.typ == "text" then Ok(Text(p.text))
    else if IsMedia(p) then
      if p.data != [] then (if p.mime == "" then Err(BadPart(p.typ)) else Ok(Bytes(p.data, p.mime)))
      else if p.uri != "" then Ok(Uri(p.uri, p.mime))
      else Err(BadPart(p.typ))
    else Err(BadPart(p.typ))
  }

  function CallBlock(env: Env, tc: ToolCall): Result<Block, Error> {
    if tc.arguments == "" then Ok(FunctionCall(tc.name, Object(map[])))
    else match env.parseObject(tc.arguments)
      case None => Err(BadArguments(tc.name))
      case Some(args) => Ok(FunctionCall(tc.name, args))
  }

  function CallBlocks(env: Env, tcs: seq<ToolCall>): Result<seq<Block>, Error> {
    Each((tc: ToolCall) => CallBlock(env, tc), tcs)
  }

  function UserParts(m: Message): Result<seq<Block>, Error> {
    match Each(PartBlock, m.parts)
    case Err(e) => Err(e)
    case Ok(bs) => Ok((if m.content == "" then [] else [Text(m.content)]) + bs)
  }

  function AssistantParts(env: Env, m: Message): Result<seq<Block>, Error> {
    match UserParts(m)
    case Err(e) => Err(e)
    case Ok(bs) =>
      match CallBlocks(env, m.toolCalls)
      case Err(e) => Err(e)
      case Ok(calls) => Ok(bs + calls)
  }

  /** The tool's text as a structured payload: an object as it is, anything else wrapped. */
  function Payload(env: Env, content: string): Json {
    if content == "" then Object(map[])
    else match env.parse(content)
      case None => Object(map["content" := Str(content)])
      case Some(v) => if v.Object? then v else Object(map["content" := v])
  }

  predicate IsMedia(p: Part) { p.typ == "image" || p.typ == "document" }

  function MediaParts(parts: seq<Part>): seq<Part> {
    if parts == [] then [] else (if IsMedia(parts[0]) then [parts[0]] else []) + MediaParts(parts[1..])
  }

  function MediaBlock(p: Part): Result<Block, Error> {
    if p.data == [] || p.mime == "" then Err(BadPart(p.typ)) else Ok(Bytes(p.data, p.mime))
  }

  /** The name Gemini matches a response by: the call's, else the message's own. */
  function ResponseName(names: map<string, string>, m: Message): string {
    if m.toolCallId in names && names[m.toolCallId] != "" then names[m.toolCallId] else m.name
  }

  function ResponseBlock(env: Env, m: Message): Result<Block, Error> {
    match Each(MediaBlock, MediaParts(m.parts))
    case Err(e) => Err(e)
    case Ok(media) => Ok(FunctionResponse(ResponseName(env.names, m), Payload(env, m.content), media))
  }

  function Gemini(env: Env): Vendor<Block, Error> {
    Vendor(UserParts, (m: Message) => AssistantParts(env, m), (m: Message) => ResponseBlock(env, m))
  }

  /** The contents and the system instruction's texts, or the first error; the contents say
      what the messages that are not ignored say. */
  method BuildVertexRequest(parseObject: string -> Option<Json>, parse: string -> Option<Json>, messages: seq<Message>)
    returns (r: Result<(seq<Turn<Block>>, seq<string>), Error>)
    ensures var ms := Sendable(messages);
      var v := Gemini(Env(parseObject, parse, IdToName(ms)));
      match Items(v, ms)
      case Err(e) => r == Err(e)
      case Ok(items) => r == Ok((Build(items), System(ms)))
    ensures var ms := Sendable(messages);
      r.Ok? ==> Says(r.value.0, Gemini(Env(parseObject, parse, IdToName(ms))), ms)
  {
    var ms := FilterForRequest(messages);
    var names := BuildIdToName(ms);
    r := TranslateMessages(Gemini(Env(parseObject, parse, names)), ms);
  }

  /** End to end: in a history of synthesised ids, the output block of every tool message
      that answers a call carries the name of that call. */
  lemma ResponseCarriesCallName(env: Env, ms: seq<Message>, i: nat, name: string)
    requires Synthesised(ms) && env.names == IdToName(ms) && Items(Gemini(env), ms).Ok?
    requires i < |ms| && ms[i].role == "tool" && Called(ms, ms[i].toolCallId, name)
    ensures var items := Items(Gemini(env), ms).value;
      var p := |Said(items, i)|;
      && p < |Flat(Build(items))|
      && Flat(Build(items))[p].block.FunctionResponse? && Flat(Build(items))[p].block.name == name
  {
    SynthesisedNamesRecovered(ms, ms[i].toolCallId, name);
    EachAt(ItemOf(Gemini(env)), ms, i);
    ResultHome(Items(Gemini(env), ms).value, i);
  }

  // ---- What the parts carry ----------------------------------------------------------------------

  /** A part that Gemini takes: text, bytes with a MIME type, or a URI. */
  predicate Usable(p: Part) {
    p.typ == "text" || ((p.typ == "image" || p.typ == "document") && if p.data != [] then p.mime != "" else p.uri != "")
  }

  predicate Shows(p: Part, b: Block) {
    b == if p.typ == "text" then Text(p.text) else if p.data != [] then Bytes(p.data, p.mime) else Uri(p.uri, p.mime)
  }

  predicate Requests(env: Env, tc: ToolCall, b: Block) {
    && b.FunctionCall? && b.name == tc.name
    && if tc.arguments == "" then b.args == Object(map[]) else Some(b.args) == env.parseObject(tc.arguments)
  }

  ghost predicate Opens(m: Message, bs: seq<Block>) {
    var c := if m.content == "" then 0 else 1;
    && |bs| >= c + |m.parts|
    && (c == 1 ==> bs[0] == Text(m.content))
    && forall i :: 0 <= i < |m.parts| ==> Shows(m.parts[i], bs[c + i])
  }

  ghost predicate AllUsable(parts: seq<Part>) { forall i :: 0 <= i < |parts| ==> Usable(parts[i]) }

  /** A user message is its content and its parts, and fails exactly on a part not taken. */
  lemma UserBlocks(m: Message)
    ensures var r := UserParts(m);
      && (r.Ok? <==> AllUsable(m.parts))
      && (r.Ok? ==> Opens(m, r.value) && |r.value| == (if m.content == "" then 0 else 1) + |m.parts|)
  {
    EachIff(PartBlock, m.parts);
    if Each(PartBlock, m.parts).Ok? {
      forall i | 0 <= i < |m.parts| ensures Shows(m.parts[i], Each(PartBlock, m.parts).value[i]) { EachAt(PartBlock, m.parts, i); }
    }
  }

  ghost predicate AllParse(env: Env, tcs: seq<ToolCall>) {
    forall i :: 0 <= i < |tcs| ==> tcs[i].arguments == "" || env.parseObject(tcs[i].arguments).Some?
  }

  lemma CallsRequested(env: Env, tcs: seq<ToolCall>)
    ensures var r := CallBlocks(env, tcs);
      && (r.Ok? <==> AllParse(env, tcs))
      && (r.Ok? ==> |r.value| == |tcs| && forall i :: 0 <= i < |tcs| ==> Requests(env, tcs[i], r.value[i]))
  {
    var f := (tc: ToolCall) => CallBlock(env, tc);
    assert CallBlocks(env, tcs) == Each(f, tcs);
    EachIff(f, tcs);
    if Each(f, tcs).Ok? {
      forall i | 0 <= i < |tcs| ensures Requests(env, tcs[i], Each(f, tcs).value[i]) { EachAt(f, tcs, i); }
    }
  }

  /** An assistant message adds its tool calls, with their names and parsed arguments. */
  lemma AssistantBlocks(env: Env, m: Message)
    ensures var r := AssistantParts(env, m);
      && (r.Ok? <==> AllUsable(m.parts) && AllParse(env, m.toolCalls))
      && (r.Ok? ==>
            && |r.value| == (if m.content == "" then 0 else 1) + |m.parts| + |m.toolCalls|
            && Opens(m, r.value)
            && forall i :: 0 <= i < |m.toolCalls| ==> Requests(env, m.toolCalls[i], r.value[|r.value| - |m.toolCalls| + i]))
  {
    UserBlocks(m);
    CallsRequested(env, m.toolCalls);
  }

  /** The payload is the tool's own object, or holds its text or value under "content". */
  ghost predicate Carries(env: Env, content: string, payload: Json) {
    payload.Object? &&
    if content == "" then payload.fields == map[]
    else if env.parse(content).Some? && env.parse(content).value.Object? then payload == env.parse(content).value
    else payload.fields.Keys == {"content"} &&
         Some(payload.fields["content"]) == if env.parse(content).Some? then env.parse(content) else Some(Str(content))
  }

  /** The name of the call it answers, or the message's own when that is not known. */
  predicate Answers(env: Env, m: Message, name: string) {
    if m.toolCallId in env.names && env.names[m.toolCallId] != "" then name == env.names[m.toolCallId] else name == m.name
  }

  predicate HasBytes(p: Part) { p.data != [] && p.mime != "" }

  /** A tool message is one response with its payload and the bytes of its media parts; its
      text parts are not sent. It fails exactly on a media part without bytes or MIME type. */
  lemma ResponseBlocks(env: Env, m: Message)
    ensures var r := ResponseBlock(env, m);
      var media := MediaParts(m.parts);
      && (r.Ok? <==> forall i :: 0 <= i < |media| ==> HasBytes(media[i]))
      && (r.Ok? ==>
            && r.value.FunctionResponse? && Carries(env, m.content, r.value.payload)
            && Answers(env, m, r.value.name)
            && |r.value.media| == |media|
            && forall i :: 0 <= i < |media| ==> r.value.media[i] == Bytes(media[i].data, media[i].mime))
  {
    MediaShown(MediaParts(m.parts));
  }

  lemma MediaShown(media: seq<Part>)
    ensures var r := Each(MediaBlock, media);
      && (r.Ok? <==> forall i :: 0 <= i < |media| ==> HasBytes(media[i]))
      && (r.Ok? ==> forall i :: 0 <= i < |media| ==> r.value[i] == Bytes(media[i].data, media[i].mime))
  {
    var r := Each(MediaBlock, media);
    EachIff(MediaBlock, media);
    if r.Ok? {
      forall i | 0 <= i < |media| ensures HasBytes(media[i]) && r.value[i] == Bytes(media[i].data, media[i].mime) {
        EachAt(MediaBlock, media, i);
      }
    } else {
      var i :| 0 <= i < |media| && !MediaBlock(media[i]).Ok?;
      assert !HasBytes(media[i]);
    }
  }

  lemma {:induction false} MediaConcat(a: seq<Part>, b: seq<Part>)
    ensures MediaParts(a + b) == MediaParts(a) + MediaParts(b)
  {
    if a == [] {
      assert a + b == b;
    } else {
      assert (a + b)[1..] == a[1..] + b && (a + b)[0] == a[0];
      MediaConcat(a[1..], b);
    }
  }

  /** The media parts are the image and document parts, in order. */
  lemma MediaInOrder(a: seq<Part>, p: Part, b: seq<Part>)
    ensures MediaParts(a + [p] + b) == MediaParts(a) + (if p.typ == "image" || p.typ == "document" then [p] else []) + MediaParts(b)
  {
    MediaConcat(a + [p], b);
    MediaConcat(a, [p]);
    MediaOne(p);
  }

  lemma MediaOne(p: Part)
    ensures MediaParts([p]) == if p.typ == "image" || p.typ == "document" then [p] else []
  {
    assert [p][1..] == [];
  }

  /** The three as the translator uses them. */
  lemma GeminiRoles(env: Env, m: Message)
    ensures Gemini(env).user(m) == UserParts(m)
    ensures Gemini(env).assistant(m) == AssistantParts(env, m)
    ensures Gemini(env).tool(m) == ResponseBlock(env, m)
  {
  }
}
