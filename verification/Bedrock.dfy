/** Translation of a chat request to Bedrock Converse messages (llm/bedrock/bedrock.go). */
module Bedrock {
  import opened Wrappers
  import opened Turns
  import opened MessageCodec
  import opened Translate

  datatype Block =
    | Text(text: string)
    | Image(format: string, data: seq<int>)
    | ToolUse(id: string, name: string, input: Json)
    | ToolResult(id: string, content: seq<Block>)

  datatype Error = BadPart(typ: string) | BadArguments(name: string)

  /** json.Unmarshal of tool arguments, and the image MIME table. */
  datatype Env = Env(parse: string -> Option<Json>, imageFormat: string -> Option<string>)

  function ContentBlock(env: Env, p: Part): Result<Block, Error> {
    match p.typ
    case "text" => Ok(Text(p.text))
    case "image" =>
      if p.data == [] || env.imageFormat(p.mime).None? then Err(BadPart(p.typ))
      else Ok(Image(env.imageFormat(p.mime).value, p.data))
    case _ => Err(BadPart(p.typ))
  }

  function ContentBlocks(env: Env, parts: seq<Part>): Result<seq<Block>, Error> {
    Each((p: Part) => ContentBlock(env, p), parts)
  }

  function CallBlock(env: Env, tc: ToolCall): Result<Block, Error> {
    if tc.arguments == "" then Ok(ToolUse(tc.id, tc.name, Object(map[])))
    else match env.parse(tc.arguments)
      case None => Err(BadArguments(tc.name))
      case Some(arg) => Ok(ToolUse(tc.id, tc.name, arg))
  }

  function CallBlocks(env: Env, tcs: seq<ToolCall>): Result<seq<Block>, Error> {
    Each((tc: ToolCall) => CallBlock(env, tc), tcs)
  }

  function Lead(content: string): seq<Block> { if content == "" then [] else [Text(content)] }

  function UserContent(env: Env, m: Message): Result<seq<Block>, Error> {
    match ContentBlocks(env, m.parts)
    case Err(e) => Err(e)
    case Ok(bs) => Ok(Lead(m.content) + bs)
  }

  function AssistantContent(env: Env, m: Message): Result<seq<Block>, Error> {
    match UserContent(env, m)
    case Err(e) => Err(e)
    case Ok(bs) =>
      match CallBlocks(env, m.toolCalls)
      case Err(e) => Err(e)
      case Ok(calls) => Ok(bs + calls)
  }

  /** A tool result always has a block: a message without parts gives its text, even empty. */
  function ResultBlock(env: Env, m: Message): Result<Block, Error> {
    if m.parts == [] then Ok(ToolResult(m.toolCallId, [Text(m.content)]))
    else match ContentBlocks(env, m.parts)
      case Err(e) => Err(e)
      case Ok(bs) => Ok(ToolResult(m.toolCallId, Lead(m.content) + bs))
  }

  function Converse(env: Env): Vendor<Block, Error> {
    Vendor((m: Message) => UserContent(env, m), (m: Message) => AssistantContent(env, m), (m: Message) => ResultBlock(env, m))
  }

  /** The turns and the system texts, or the first error; the turns say what the messages
      that are not ignored say. */
  method BuildConverseInput(env: Env, messages: seq<Message>) returns (r: Result<(seq<Turn<Block>>, seq<string>), Error>)
    ensures var ms := Sendable(messages);
      match Items(Converse(env), ms)
      case Err(e) => r == Err(e)
      case Ok(items) => r == Ok((Build(items), System(ms)))
    ensures r.Ok? ==> Says(r.value.0, Converse(env), Sendable(messages))
  {
    var ms := FilterForRequest(messages);
    r := TranslateMessages(Converse(env), ms);
  }

  // ---- What the blocks carry -------------------------------------------------------------------

  /** A part that Converse takes: text, or an inline image of a known format. */
  predicate Usable(env: Env, p: Part) {
    p.typ == "text" || (p.typ == "image" && p.data != [] && env.imageFormat(p.mime).Some?)
  }

  predicate Shows(env: Env, p: Part, b: Block) {
    if p.typ == "text" then b == Text(p.text)
    else b.Image? && b.data == p.data && Some(b.format) == env.imageFormat(p.mime)
  }

  predicate Requests(env: Env, tc: ToolCall, b: Block) {
    && b.ToolUse? && b.id == tc.id && b.name == tc.name
    && if tc.arguments == "" then b.input == Object(map[]) else Some(b.input) == env.parse(tc.arguments)
  }

  /** bs opens with the content, if there is any, then shows the parts in order. */
  ghost predicate Opens(env: Env, m: Message, bs: seq<Block>) {
    var c := if m.content == "" then 0 else 1;
    && |bs| >= c + |m.parts|
    && (c == 1 ==> bs[0] == Text(m.content))
    && forall i :: 0 <= i < |m.parts| ==> Shows(env, m.parts[i], bs[c + i])
  }

  ghost predicate AllUsable(env: Env, parts: seq<Part>) { forall i :: 0 <= i < |parts| ==> Usable(env, parts[i]) }

  ghost predicate AllParse(env: Env, tcs: seq<ToolCall>) {
    forall i :: 0 <= i < |tcs| ==> tcs[i].arguments == "" || env.parse(tcs[i].arguments).Some?
  }

  lemma PartsShown(env: Env, parts: seq<Part>)
    ensures var r := ContentBlocks(env, parts);
      && (r.Ok? <==> AllUsable(env, parts))
      && (r.Ok? ==> |r.value| == |parts| && forall i :: 0 <= i < |parts| ==> Shows(env, parts[i], r.value[i]))
  {
    var f := (p: Part) => ContentBlock(env, p);
    assert ContentBlocks(env, parts) == Each(f, parts);
    EachIff(f, parts);
    if Each(f, parts).Ok? {
      forall i | 0 <= i < |parts| ensures Shows(env, parts[i], Each(f, parts).value[i]) { EachAt(f, parts, i); }
    }
  }

  lemma CallsRequested(env: Env, tcs: seq<ToolCall>)
    ensures var r := CallBlocks(env, tcs);
      && (r.Ok? <==> AllParse(env, tcs))
      && (r.Ok? ==> |r.value| == |tcs| && forall i :: 0 <= i < |tcs| ==> Requests(env, tcs[i], r.value[i]))
  {
    var f := (tc: ToolCall) => CallBlock(env, tc);
    assert CallBlocks(env, tcs) == Each(f, tcs);
    EachIff(f, tcs);
    if Each(f, tcs).Ok? {
      forall i | 0 <= i < |tcs| ensures Requests(env, tcs[i], Each(f, tcs).value[i]) { EachAt(f, tcs, i); }
    }
  }

  /** A user message is its content and its parts, and fails exactly on a part not taken. */
  lemma UserBlocks(env: Env, m: Message)
    ensures var r := UserContent(env, m);
      && (r.Ok? <==> AllUsable(env, m.parts))
      && (r.Ok? ==> Opens(env, m, r.value) && |r.value| == (if m.content == "" then 0 else 1) + |m.parts|)
  {
    PartsShown(env, m.parts);
  }

  /** An assistant message adds its tool calls, with their ids, names and parsed arguments. */
  lemma AssistantBlocks(env: Env, m: Message)
    ensures var r := AssistantContent(env, m);
      && (r.Ok? <==> AllUsable(env, m.parts) && AllParse(env, m.toolCalls))
      && (r.Ok? ==>
            && |r.value| == (if m.content == "" then 0 else 1) + |m.parts| + |m.toolCalls|
            && Opens(env, m, r.value)
            && forall i :: 0 <= i < |m.toolCalls| ==> Requests(env, m.toolCalls[i], r.value[|r.value| - |m.toolCalls| + i]))
  {
    UserBlocks(env, m);
    CallsRequested(env, m.toolCalls);
  }

  /** A tool message is one result for its call, with at least one block: the content and
      parts, or the content alone, even empty. */
  lemma ResultBlocks(env: Env, m: Message)
    ensures var r := ResultBlock(env, m);
      && (r.Ok? <==> AllUsable(env, m.parts))
      && (r.Ok? ==> r.value.ToolResult? && r.value.id == m.toolCallId)
      && (r.Ok? && m.parts == [] ==> r.value.content == [Text(m.content)])
      && (r.Ok? && m.parts != [] ==> Opens(env, m, r.value.content) && |r.value.content| == (if m.content == "" then 0 else 1) + |m.parts|)
  {
    PartsShown(env, m.parts);
  }

  /** The three as the translator uses them. */
  lemma ConverseRoles(env: Env, m: Message)
    ensures Converse(env).user(m) == UserContent(env, m)
    ensures Converse(env).assistant(m) == AssistantContent(env, m)
    ensures Converse(env).tool(m) == ResultBlock(env, m)
  {
  }
}
