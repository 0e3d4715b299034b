/** The wire form of a message (llm/messages.go), over abstract JSON trees. */
module MessageCodec {
  import opened Wrappers
  import Base64
  import Octets
  import Text

  datatype Json =
    | Null
    | Bool(b: bool)
    | Number(n: int)
    | Str(s: string)
    | Array(items: seq<Json>)
    | Object(fields: map<string, Json>)

  datatype Part = Part(typ: string, text: string, mime: string, data: seq<Octets.Byte>, uri: string)

  datatype ToolCall = ToolCall(id: string, typ: string, name: string, arguments: string)

  datatype Message = Message(role: string, content: string, parts: seq<Part>, toolCalls: seq<ToolCall>,
                             toolCallId: string, name: string,
                             synthetic: bool, ignored: bool, reasoning: string)

  function TextPart(text: string): Part { Part("text", text, "", [], "") }

  const MARK := ";base64,"

  // ---- data: URLs (section 3 of RFC 2397) ------------------------------------------------

  function DataUrl(p: Part): string {
    if p.data == [] || p.mime == "" then "" else "data:" + p.mime + MARK + Base64.Encode(p.data)
  }

  /** The MIME type and bytes of a base64 data: URL. */
  function ParseDataUrl(url: string): Option<(string, seq<Octets.Byte>)> {
    match Text.CutPrefix(url, "data:")
    case None => None
    case Some(rest) =>
      match Text.Cut(rest, MARK)
      case None => None
      case Some((mime, enc)) =>
        match Base64.Decode(enc)
        case None => None
        case Some(data) => Some((mime, data))
  }

  function PartFromUrl(typ: string, url: string): Part {
    match ParseDataUrl(url)
    case Some((mime, data)) => Part(typ, "", mime, data, "")
    case None => Part(typ, "", "", [], url)
  }

  // ---- Encoding --------------------------------------------------------------------------

  datatype File = File(data: string, id: string)

  datatype Block = Block(typ: string, text: string, image: Option<string>, file: Option<File>)

  function TextBlock(text: string): Block { Block("text", text, None, None) }

  /** The content block of a part; a part of any other type has none. */
  function PartBlock(p: Part): Option<Block> {
    match p.typ
    case "text" => Some(TextBlock(p.text))
    case "image" => Some(Block("image_url", "", Some(if p.uri == "" then DataUrl(p) else p.uri), None))
    case "document" => Some(Block("file", "", None, Some(if p.uri != "" then File("", p.uri) else File(DataUrl(p), ""))))
    case _ => None
  }

  function PartBlocks(parts: seq<Part>): seq<Block> {
    if parts == [] then []
    else (match PartBlock(parts[0]) case Some(b) => [b] case None => []) + PartBlocks(parts[1..])
  }

  function Blocks(m: Message): seq<Block> {
    (if m.content != "" then [TextBlock(m.content)] else []) + PartBlocks(m.parts)
  }

  /** o with a string field, left out when empty (omitempty). */
  function Put(o: map<string, Json>, key: string, s: string): map<string, Json> {
    if s == "" then o else o[key := Str(s)]
  }

  function FileJson(f: File): Json { Object(Put(Put(map[], "file_data", f.data), "file_id", f.id)) }

  function BlockJson(b: Block): Json {
    var o := Put(map["type" := Str(b.typ)], "text", b.text);
    var o1 := if b.image.Some? then o["image_url" := Object(map["url" := Str(b.image.value)])] else o;
    Object(if b.file.Some? then o1["file" := FileJson(b.file.value)] else o1)
  }

  function ToolCallJson(tc: ToolCall): Json {
    Object(map["id" := Str(tc.id), "type" := Str(tc.typ),
               "function" := Object(map["name" := Str(tc.name), "arguments" := Str(tc.arguments)])])
  }

  function ToolCallsJson(tcs: seq<ToolCall>): seq<Json> {
    seq(|tcs|, i requires 0 <= i < |tcs| => ToolCallJson(tcs[i]))
  }

  function BlocksJson(bs: seq<Block>): seq<Json> {
    seq(|bs|, i requires 0 <= i < |bs| => BlockJson(bs[i]))
  }

  function ContentJson(m: Message): Option<Json> {
    if m.parts != [] then Some(Array(BlocksJson(Blocks(m))))
    else if m.role == "assistant" && m.content == "" && m.toolCalls != [] then None
    else Some(Str(m.content))
  }

  function EncodeSpec(m: Message): Json {
    var o := Put(Put(map["role" := Str(m.role)], "tool_call_id", m.toolCallId), "name", m.name);
    var o1 := if m.toolCalls == [] then o else o["tool_calls" := Array(ToolCallsJson(m.toolCalls))];
    Object(match ContentJson(m) case None => o1 case Some(c) => o1["content" := c])
  }

  /** The keys of an encoded message are distinct. */
  lemma KeysOfMessage()
    ensures "role" != "name" && "role" != "tool_call_id" && "role" != "tool_calls" && "role" != "content"
    ensures "name" != "tool_call_id" && "name" != "tool_calls" && "name" != "content"
    ensures "tool_call_id" != "tool_calls" && "tool_call_id" != "content" && "tool_calls" != "content"
  {
    assert |"role"| == 4 && |"name"| == 4 && "role"[0] != "name"[0];
    assert |"tool_call_id"| == 12 && |"tool_calls"| == 10 && |"content"| == 7;
  }

  /** marshalMultimodalJSON's block list. */
  method MarshalBlocks(m: Message) returns (blocks: seq<Block>)
    ensures blocks == Blocks(m)
  {
    blocks := [];
    if m.content != "" {
      blocks := blocks + [TextBlock(m.content)];
    }
    ghost var head := blocks;
    for i := 0 to |m.parts|
      invariant blocks == head + PartBlocks(m.parts[..i])
    {
      var p := m.parts[i];
      PartBlocksOne(m.parts[..i], p);
      assert m.parts[..i + 1] == m.parts[..i] + [p];
      if p.typ == "text" {
        blocks := blocks + [TextBlock(p.text)];
      } else if p.typ == "image" {
        var url := p.uri;
        if url == "" {
          url := DataUrl(p);
        }
        blocks := blocks + [Block("image_url", "", Some(url), None)];
      } else if p.typ == "document" {
        var fb := File("", "");
        if p.uri != "" {
          fb := fb.(id := p.uri);
        } else {
          fb := fb.(data := DataUrl(p));
        }
        blocks := blocks + [Block("file", "", None, Some(fb))];
      }
    }
    assert m.parts[..|m.parts|] == m.parts;
  }

  lemma {:induction false} PartBlocksOne(parts: seq<Part>, p: Part)
    ensures PartBlocks(parts + [p]) == PartBlocks(parts) + (match PartBlock(p) case Some(b) => [b] case None => [])
  {
    if parts == [] {
      assert parts + [p] == [p] && [p][1..] == [];
    } else {
      assert (parts + [p])[1..] == parts[1..] + [p];
      PartBlocksOne(parts[1..], p);
    }
  }

  // ---- Decoding --------------------------------------------------------------------------

  /** A JSON value read into a Go string: null leaves it empty. */
  function StringOf(j: Json): Option<string> {
    match j case Null => Some("") case Str(s) => Some(s) case _ => None
  }

  function StringField(o: map<string, Json>, key: string): Option<string> {
    if key in o then StringOf(o[key]) else Some("")
  }

  /** A JSON value read into a Go struct: null leaves it zero. */
  function FieldsOf(j: Json): Option<map<string, Json>> {
    match j case Null => Some(map[]) case Object(o) => Some(o) case _ => None
  }

  function ItemsOf(o: map<string, Json>, key: string): Option<seq<Json>> {
    if key !in o || o[key] == Null then Some([])
    else match o[key] case Array(items) => Some(items) case _ => None
  }

  function ToolCallOf(j: Json): Option<ToolCall> {
    match FieldsOf(j)
    case None => None
    case Some(o) =>
      var f := if "function" in o then FieldsOf(o["function"]) else Some(map[]);
      if f.None? then None else
        var (id, typ, name, args) := (StringField(o, "id"), StringField(o, "type"), StringField(f.value, "name"), StringField(f.value, "arguments"));
        if id.Some? && typ.Some? && name.Some? && args.Some? then Some(ToolCall(id.value, typ.value, name.value, args.value)) else None
  }

  function ToolCallsOf(items: seq<Json>): Option<seq<ToolCall>> {
    if items == [] then Some([]) else
      var (h, t) := (ToolCallOf(items[0]), ToolCallsOf(items[1..]));
      if h.Some? && t.Some? then Some([h.value] + t.value) else None
  }

  /** A pointer to a struct: absent or null leaves it nil. */
  function Nested(o: map<string, Json>, key: string): Option<Option<map<string, Json>>> {
    if key !in o || o[key] == Null then Some(None)
    else match o[key] case Object(f) => Some(Some(f)) case _ => None
  }

  function BlockOf(j: Json): Option<Block> {
    match FieldsOf(j)
    case None => None
    case Some(o) =>
      var (typ, text, img, fil) := (StringField(o, "type"), StringField(o, "text"), Nested(o, "image_url"), Nested(o, "file"));
      if typ.None? || text.None? || img.None? || fil.None? then None else
        var url := if img.value.Some? then StringField(img.value.value, "url") else Some("");
        var data := if fil.value.Some? then StringField(fil.value.value, "file_data") else Some("");
        var id := if fil.value.Some? then StringField(fil.value.value, "file_id") else Some("");
        if url.None? || data.None? || id.None? then None else
          Some(Block(typ.value, text.value,
                     if img.value.Some? then Some(url.value) else None,
                     if fil.value.Some? then Some(File(data.value, id.value)) else None))
  }

  function BlocksOf(items: seq<Json>): Option<seq<Block>> {
    if items == [] then Some([]) else
      var (h, t) := (BlockOf(items[0]), BlocksOf(items[1..]));
      if h.Some? && t.Some? then Some([h.value] + t.value) else None
  }

  /** The part a block after the first, or a first block that is not text, becomes. */
  function BlockPart(b: Block): Option<Part> {
    if b.typ == "text" then Some(TextPart(b.text))
    else if b.typ == "image_url" && b.image.Some? then Some(PartFromUrl("image", b.image.value))
    else if b.typ == "file" && b.file.Some? then
      Some(if b.file.value.id != "" then Part("document", "", "", [], b.file.value.id)
           else PartFromUrl("document", b.file.value.data))
    else None
  }

  function BlockParts(bs: seq<Block>): seq<Part> {
    if bs == [] then []
    else (match BlockPart(bs[0]) case Some(p) => [p] case None => []) + BlockParts(bs[1..])
  }

  /** A leading text block becomes Content, the rest become Parts. */
  function FromBlocks(m: Message, bs: seq<Block>): Message {
    if bs != [] && bs[0].typ == "text" then m.(content := bs[0].text, parts := BlockParts(bs[1..]))
    else m.(content := "", parts := BlockParts(bs))
  }

  /** The message with every field but the content read in, and the content cleared. */
  function ReadEnvelope(m: Message, o: map<string, Json>): Option<Message> {
    var items := ItemsOf(o, "tool_calls");
    var tcs := if items.Some? then ToolCallsOf(items.value) else None;
    var (role, id, name) := (StringField(o, "role"), StringField(o, "tool_call_id"), StringField(o, "name"));
    if tcs.None? || role.None? || id.None? || name.None? then None
    else Some(m.(role := role.value, content := "", parts := [], toolCalls := tcs.value, toolCallId := id.value, name := name.value))
  }

  /** What UnmarshalJSON leaves in a message that held m, and whether it succeeds. */
  function DecodeSpec(m: Message, j: Json): (Message, bool) {
    match FieldsOf(j)
    case None => (m, false)
    case Some(o) =>
      match ReadEnvelope(m, o)
      case None => (m, false)
      case Some(m1) => ReadContent(m1, if "content" in o then Some(o["content"]) else None)
  }

  /** The content field read into a message whose Content and Parts are already cleared. */
  function ReadContent(m: Message, content: Option<Json>): (Message, bool) {
    match content
    case None => (m, true)
    case Some(Null) => (m, true)
    case Some(Str(s)) => (m.(content := s), true)
    case Some(Array(blocks)) =>
      var bs := BlocksOf(blocks);
      if bs.None? then (m, false) else (FromBlocks(m, bs.value), true)
    case _ => (m, false)
  }

  lemma ToTheEnd<T>(s: seq<T>, from: nat)
    requires from <= |s|
    ensures s[from..|s|] == s[from..] && s[0..] == s
  {
  }

  /** A message UnmarshalJSON writes into. */
  class Receiver {
    var m: Message

    constructor (m: Message)
      ensures this.m == m
    { this.m := m; }

    method UnmarshalJSON(j: Json) returns (ok: bool)
      modifies this
      ensures (m, ok) == DecodeSpec(old(m), j)
    {
      var fields := FieldsOf(j);
      if fields.None? {
        return false;
      }
      var o := fields.value;
      var items := ItemsOf(o, "tool_calls");
      var tcs := if items.Some? then ToolCallsOf(items.value) else None;
      var role, id, name := StringField(o, "role"), StringField(o, "tool_call_id"), StringField(o, "name");
      if tcs.None? || role.None? || id.None? || name.None? {
        return false;
      }
      m := m.(role := role.value);
      m := m.(content := "", parts := []);
      m := m.(toolCalls := tcs.value, toolCallId := id.value, name := name.value);
      if "content" !in o || o["content"] == Null {
        return true;
      }
      var content := o["content"];
      if !content.Array? {
        if content.Str? {
          m := m.(content := content.s);
        }
        return content.Str?;
      }
      var decoded := BlocksOf(content.items);
      if decoded.None? {
        return false;
      }
      ReadBlocks(decoded.value);
      return true;
    }

    /** The block loop. */
    method ReadBlocks(blocks: seq<Block>)
      requires m.content == "" && m.parts == []
      modifies this
      ensures m == FromBlocks(old(m), blocks)
    {
      if blocks == [] {
        return;
      }
      ghost var was := m;
      ReadBlock(blocks[0], 0);
      ghost var from := if blocks[0].typ == "text" then 1 else 0;
      assert blocks[0..1] == [blocks[0]] && [blocks[0]][1..] == [];
      for i := 1 to |blocks|
        invariant m == was.(content := if from == 1 then blocks[0].text else "", parts := BlockParts(blocks[from..i]))
      {
        BlockPartsOne(blocks[from..i], blocks[i]);
        assert blocks[from..i + 1] == blocks[from..i] + [blocks[i]];
        ReadBlock(blocks[i], i);
      }
      ToTheEnd(blocks, from);
    }

    /** One block of the loop: only the first may become Content. */
    method ReadBlock(b: Block, i: nat)
      modifies this
      ensures m == if b.typ == "text" && i == 0 then old(m).(content := b.text)
                   else old(m).(parts := old(m).parts + (match BlockPart(b) case Some(p) => [p] case None => []))
    {
      if b.typ == "text" && i == 0 {
        m := m.(content := b.text);
      } else if b.typ == "text" {
        m := m.(parts := m.parts + [TextPart(b.text)]);
      } else if b.typ == "image_url" && b.image.Some? {
        m := m.(parts := m.parts + [PartFromUrl("image", b.image.value)]);
      } else if b.typ == "file" && b.file.Some? {
        if b.file.value.id != "" {
          m := m.(parts := m.parts + [Part("document", "", "", [], b.file.value.id)]);
        } else {
          m := m.(parts := m.parts + [PartFromUrl("document", b.file.value.data)]);
        }
      }
    }
  }

  lemma {:induction false} BlockPartsOne(bs: seq<Block>, b: Block)
    ensures BlockParts(bs + [b]) == BlockParts(bs) + (match BlockPart(b) case Some(p) => [p] case None => [])
  {
    if bs == [] {
      assert bs + [b] == [b] && [b][1..] == [];
    } else {
      assert (bs + [b])[1..] == bs[1..] + [b];
      BlockPartsOne(bs[1..], b);
    }
  }

  // ---- FilterForRequest --------------------------------------------------------------------

  function Sendable(ms: seq<Message>): seq<Message> {
    if ms == [] then [] else (if ms[0].ignored then [] else [ms[0]]) + Sendable(ms[1..])
  }

  method FilterForRequest(msgs: seq<Message>) returns (out: seq<Message>)
    ensures out == Sendable(msgs)
  {
    var keep := true;
    for i := 0 to |msgs|
      invariant keep <==> forall k :: 0 <= k < i ==> !msgs[k].ignored
    {
      if msgs[i].ignored {
        keep := false;
        break;
      }
    }
    if keep {
      SendableAll(msgs);
      return msgs;
    }
    out := [];
    for i := 0 to |msgs|
      invariant out + Sendable(msgs[i..]) == Sendable(msgs)
    {
      assert msgs[i..][1..] == msgs[i + 1..];
      if msgs[i].ignored {
        continue;
      }
      out := out + [msgs[i]];
    }
  }

  lemma {:induction false} SendableAll(ms: seq<Message>)
    requires forall k :: 0 <= k < |ms| ==> !ms[k].ignored
    ensures Sendable(ms) == ms
  {
    if ms != [] {
      SendableAll(ms[1..]);
    }
  }
}
