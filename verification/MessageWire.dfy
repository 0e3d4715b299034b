/** What a message looks like on the wire, field by field (llm/messages.go), and what the
    decoder refuses. */
module MessageWire {
  import opened Wrappers
  import opened MessageCodec
  import Base64
  import Octets
  import Text

  // ---- Fields ------------------------------------------------------------------------------------

  /** An assistant message that leaves everything to its tool calls. */
  predicate Delegates(m: Message) { m.parts == [] && m.role == "assistant" && m.content == "" && m.toolCalls != [] }

  function FieldMap(m: Message): map<string, Json> { EncodeSpec(m).fields }

  /** Content is always there, except on a message that delegates; without parts it is the
      text, even when that is empty. */
  lemma ContentOnWire(m: Message)
    ensures "content" in FieldMap(m) <==> !Delegates(m)
    ensures m.parts == [] && !Delegates(m) ==> FieldMap(m)["content"] == Str(m.content)
    ensures m.parts != [] ==> FieldMap(m)["content"] == Array((if m.content == "" then [] else [TextOnWire(m.content)]) + PartsOnWire(m.parts))
  {
    KeysOfMessage();
    if m.parts != [] {
      BlocksAreParts(m.parts);
      var lead := if m.content == "" then [] else [TextBlock(m.content)];
      assert Blocks(m) == lead + PartBlocks(m.parts);
      JsonConcat(lead, PartBlocks(m.parts));
      if m.content != "" { OneText(m.content); }
    }
  }

  /** The other fields: the role always, the rest only when they are not empty. */
  lemma EnvelopeOnWire(m: Message)
    ensures "role" in FieldMap(m) && FieldMap(m)["role"] == Str(m.role)
    ensures "tool_call_id" in FieldMap(m) <==> m.toolCallId != ""
    ensures m.toolCallId != "" ==> FieldMap(m)["tool_call_id"] == Str(m.toolCallId)
    ensures "name" in FieldMap(m) <==> m.name != ""
    ensures m.name != "" ==> FieldMap(m)["name"] == Str(m.name)
    ensures "tool_calls" in FieldMap(m) <==> m.toolCalls != []
    ensures m.toolCalls != [] ==> FieldMap(m)["tool_calls"].Array? && |FieldMap(m)["tool_calls"].items| == |m.toolCalls|
    ensures forall i :: 0 <= i < |m.toolCalls| ==> FieldMap(m)["tool_calls"].items[i] == CallOnWire(m.toolCalls[i])
  {
    KeysOfMessage();
  }

  function CallOnWire(tc: ToolCall): Json {
    var f := map["name" := Str(tc.name), "arguments" := Str(tc.arguments)];
    Object(map["id" := Str(tc.id), "type" := Str(tc.typ), "function" := Object(f)])
  }

  // ---- Blocks ------------------------------------------------------------------------------------

  function TextOnWire(text: string): Json {
    Object(if text == "" then map["type" := Str("text")] else map["type" := Str("text"), "text" := Str(text)])
  }

  /** The URL an image goes by: its own, or its bytes inline. */
  function UrlOnWire(p: Part): string {
    if p.uri != "" then p.uri
    else if p.data == [] || p.mime == "" then ""
    else "data:" + p.mime + ";base64," + Base64.Encode(p.data)
  }

  function FileOnWire(p: Part): map<string, Json> {
    if p.uri != "" then map["file_id" := Str(p.uri)]
    else if UrlOnWire(p) == "" then map[]
    else map["file_data" := Str(UrlOnWire(p))]
  }

  predicate Known(p: Part) { p.typ == "text" || p.typ == "image" || p.typ == "document" }

  function PartOnWire(p: Part): Json {
    if p.typ == "text" then TextOnWire(p.text)
    else if p.typ == "image" then
      Object(map["type" := Str("image_url"), "image_url" := Object(map["url" := Str(UrlOnWire(p))])])
    else
      Object(map["type" := Str("file"), "file" := Object(FileOnWire(p))])
  }

  /** Every part of a known type, in order. */
  function PartsOnWire(parts: seq<Part>): seq<Json> {
    if parts == [] then [] else (if Known(parts[0]) then [PartOnWire(parts[0])] else []) + PartsOnWire(parts[1..])
  }

  lemma BlockIsPart(p: Part)
    ensures PartBlock(p).Some? <==> Known(p)
    ensures Known(p) ==> BlockJson(PartBlock(p).value) == PartOnWire(p)
  {
    if p.typ == "text" {
      OneText(p.text);
    } else if p.typ == "image" {
      var b := PartBlock(p).value;
      assert b.image.value == UrlOnWire(p);
    } else if p.typ == "document" {
      assert FileJson(PartBlock(p).value.file.value) == Object(FileOnWire(p));
    }
  }

  lemma OneText(text: string)
    ensures BlockJson(TextBlock(text)) == TextOnWire(text)
    ensures BlocksJson([TextBlock(text)]) == [TextOnWire(text)]
  {
  }

  lemma JsonConcat(a: seq<Block>, b: seq<Block>)
    ensures BlocksJson(a + b) == BlocksJson(a) + BlocksJson(b)
  {
  }

  lemma {:induction false} BlocksAreParts(parts: seq<Part>)
    ensures BlocksJson(PartBlocks(parts)) == PartsOnWire(parts)
  {
    if parts != [] {
      var first := match PartBlock(parts[0]) case Some(b) => [b] case None => [];
      BlockIsPart(parts[0]);
      BlocksAreParts(parts[1..]);
      JsonConcat(first, PartBlocks(parts[1..]));
      assert PartBlocks(parts) == first + PartBlocks(parts[1..]);
    }
  }

  // ---- What is refused ---------------------------------------------------------------------------

  /** A value that is not an object, nor null, is refused and leaves the message alone. */
  lemma NotAnObject(m0: Message, j: Json)
    requires !j.Object? && !j.Null?
    ensures DecodeSpec(m0, j) == (m0, false)
  {
  }

  /** A content that is neither text, a list of blocks nor null is refused, after the other
      fields were read and the old content cleared. */
  lemma WrongContent(m0: Message, o: map<string, Json>)
    requires ReadEnvelope(m0, o).Some? && "content" in o
    requires o["content"].Bool? || o["content"].Number? || o["content"].Object?
    ensures var (r, ok) := DecodeSpec(m0, Object(o));
      !ok && r == ReadEnvelope(m0, o).value && r.content == "" && r.parts == []
  {
  }

  /** Text and blocks as the decoder takes them. */
  lemma ContentTaken(m0: Message, o: map<string, Json>)
    requires ReadEnvelope(m0, o).Some?
    ensures var (r, ok) := DecodeSpec(m0, Object(o));
      && ("content" !in o || o["content"] == Null ==> ok && r.content == "" && r.parts == [])
      && ("content" in o && o["content"].Str? ==> ok && r.content == o["content"].s && r.parts == [])
      && ("content" in o && o["content"].Array? ==> (ok <==> BlocksOf(o["content"].items).Some?))
  {
  }

  // ---- Filtering ---------------------------------------------------------------------------------

  lemma {:induction false} SendableConcat(a: seq<Message>, b: seq<Message>)
    ensures Sendable(a + b) == Sendable(a) + Sendable(b)
  {
    if a == [] {
      assert a + b == b;
    } else {
      assert (a + b)[1..] == a[1..] + b && (a + b)[0] == a[0];
      SendableConcat(a[1..], b);
    }
  }

  /** A request drops exactly the ignored messages and keeps the order of the others. */
  lemma DropsIgnored(a: seq<Message>, m: Message, b: seq<Message>)
    ensures Sendable(a + [m] + b) == Sendable(a) + (if m.ignored then [] else [m]) + Sendable(b)
  {
    SendableConcat(a + [m], b);
    SendableConcat(a, [m]);
    SendableOne(m);
  }

  lemma SendableOne(m: Message)
    ensures Sendable([m]) == if m.ignored then [] else [m]
  {
    assert [m][1..] == [];
  }

  // ---- Blocks and URLs as the decoder reads them -----------------------------------------------------

  /** A block of its kind becomes a part; one that lacks its payload, or of another kind, is
      passed over. A file id wins over file data. */
  lemma BlockRead(b: Block)
    ensures b.typ == "text" ==> BlockPart(b) == Some(Part("text", b.text, "", [], ""))
    ensures b.typ == "image_url" ==> BlockPart(b) == match b.image case None => None case Some(url) => Some(PartFromUrl("image", url))
    ensures b.typ == "file" && b.file.None? ==> BlockPart(b) == None
    ensures b.typ == "file" && b.file.Some? && b.file.value.id != "" ==> BlockPart(b) == Some(Part("document", "", "", [], b.file.value.id))
    ensures b.typ == "file" && b.file.Some? && b.file.value.id == "" ==> BlockPart(b) == Some(PartFromUrl("document", b.file.value.data))
    ensures b.typ != "text" && b.typ != "image_url" && b.typ != "file" ==> BlockPart(b) == None
  {
  }

  /** url is a data: URL with base64 bytes: the first marker ends the MIME type. */
  ghost predicate DataUrlOf(url: string, mime: string, enc: string, data: seq<Octets.Byte>) {
    url == "data:" + mime + ";base64," + enc && Base64.Decode(enc) == Some(data)
    && forall j :: 0 <= j < |mime| ==> !(";base64," <= (mime + ";base64," + enc)[j..])
  }

  ghost predicate IsDataUrl(url: string) { exists mime, enc, data :: DataUrlOf(url, mime, enc, data) }

  /** A URL is read as bytes exactly when it is such a URL, and stays a URI otherwise. */
  lemma UrlRead(typ: string, url: string)
    ensures !IsDataUrl(url) ==> PartFromUrl(typ, url) == Part(typ, "", "", [], url)
    ensures forall mime, enc, data :: DataUrlOf(url, mime, enc, data) ==> PartFromUrl(typ, url) == Part(typ, "", mime, data, "")
  {
    forall mime, enc, data | DataUrlOf(url, mime, enc, data) ensures PartFromUrl(typ, url) == Part(typ, "", mime, data, "") {
      DataUrlParses(url, mime, enc, data);
    }
    if ParseDataUrl(url).Some? { ParsedIsDataUrl(url); }
  }

  lemma ParsedIsDataUrl(url: string)
    requires ParseDataUrl(url).Some?
    ensures IsDataUrl(url)
  {
    var rest := url[5..];
    var i := Text.IndexOf(rest, MARK);
    var mime, enc := rest[..i], rest[i + 8..];
    SplitsAt(rest, i);
    assert url == "data:" + rest;
    Spelled(url, rest, mime, enc);
    assert ParseDataUrl(url).value.1 == Base64.Decode(enc).value;
    assert DataUrlOf(url, mime, enc, Base64.Decode(enc).value);
  }

  lemma Spelled(url: string, rest: string, mime: string, enc: string)
    requires url == "data:" + rest && rest == mime + MARK + enc
    ensures url == "data:" + mime + ";base64," + enc
  {
  }

  lemma SplitsAt(rest: string, i: nat)
    requires i <= |rest| && MARK <= rest[i..]
    ensures i + 8 <= |rest| && rest == rest[..i] + MARK + rest[i + 8..]
  {
    assert rest[i..] == MARK + rest[i..][8..] && rest[i..][8..] == rest[i + 8..];
    assert rest == rest[..i] + rest[i..];
  }

  lemma DataUrlParses(url: string, mime: string, enc: string, data: seq<Octets.Byte>)
    requires DataUrlOf(url, mime, enc, data)
    ensures ParseDataUrl(url) == Some((mime, data))
  {
    var rest := mime + ";base64," + enc;
    assert url == "data:" + rest && "data:" <= url && url[5..] == rest;
    assert rest[|mime|..] == ";base64," + enc;
    Text.IndexIs(rest, MARK, |mime|);
    assert rest[..|mime|] == mime && rest[|mime| + 8..] == enc;
  }
}
