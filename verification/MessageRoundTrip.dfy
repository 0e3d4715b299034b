/** Decoding an encoded message: what comes back, and exactly when it is the same. */
module MessageRoundTrip {
  import opened Wrappers
  import opened MessageCodec
  import Base64
  import Octets
  import Text

  // ---- data: URLs ------------------------------------------------------------------------

  lemma UrlParts(mime: string, rest: string)
    ensures Text.CutPrefix("data:" + mime + MARK + rest, "data:") == Some(mime + MARK + rest)
  {
    assert "data:" + mime + MARK + rest == "data:" + (mime + MARK + rest);
  }

  lemma MarkCutsAt(mime: string, enc: string)
    ensures Text.Contains(mime, MARK) ==> exists c :: Text.Cut(mime + MARK + enc, MARK) == Some(c) && |c.0| < |mime|
    ensures !Text.Contains(mime, MARK) ==> Text.Cut(mime + MARK + enc, MARK) == Some((mime, enc))
  {
    if Text.Contains(mime, MARK) {
      var i, rest := Text.IndexOf(mime, MARK), mime + MARK + enc;
      assert rest[i..] == mime[i..] + MARK + enc;
      var c := Text.Cut(rest, MARK).value;
      assert |c.0| <= i;
    } else {
      Text.FirstAfter(mime, MARK, enc);
    }
  }

  /** PartFromUrl undoes DataUrl exactly for the MIME types without ";base64,": the first
      marker can never straddle the end of the MIME type. */
  lemma DataUrlRoundTrip(typ: string, mime: string, data: seq<Octets.Byte>)
    requires data != [] && mime != ""
    ensures PartFromUrl(typ, DataUrl(Part(typ, "", mime, data, ""))) == Part(typ, "", mime, data, "")
       <==> !Text.Contains(mime, MARK)
  {
    var enc := Base64.Encode(data);
    UrlParts(mime, enc);
    MarkCutsAt(mime, enc);
    Base64.RoundTrip(data);
  }

  // ---- JSON trees come back --------------------------------------------------------------

  lemma {:induction false} ToolCallsBack(tcs: seq<ToolCall>)
    ensures ToolCallsOf(ToolCallsJson(tcs)) == Some(tcs)
  {
    if tcs != [] {
      assert ToolCallsJson(tcs)[1..] == ToolCallsJson(tcs[1..]);
      assert ToolCallOf(ToolCallJson(tcs[0])) == Some(tcs[0]);
      ToolCallsBack(tcs[1..]);
      assert [tcs[0]] + tcs[1..] == tcs;
    }
  }

  lemma FileBack(f: File)
    ensures var o := FileJson(f).fields;
      StringField(o, "file_data") == Some(f.data) && StringField(o, "file_id") == Some(f.id)
  {
    assert "file_data" != "file_id";
  }

  lemma KeysDiffer()
    ensures "type" != "text" && |"image_url"| == 9 && |"type"| == 4 && |"text"| == 4 && |"file"| == 4
    ensures "type" != "file" && "text" != "file"
  {
    assert "type"[1] == 'y' && "text"[1] == 'e' && "file"[0] == 'f';
  }

  lemma BlockBack(b: Block)
    ensures BlockOf(BlockJson(b)) == Some(b)
  {
    KeysDiffer();
    if b.file.Some? {
      FileBack(b.file.value);
    }
    var o := BlockJson(b).fields;
    assert StringField(o, "type") == Some(b.typ);
    assert StringField(o, "text") == Some(b.text);
    assert Nested(o, "image_url") == Some(if b.image.Some? then Some(map["url" := Str(b.image.value)]) else None);
    assert Nested(o, "file") == Some(if b.file.Some? then Some(FileJson(b.file.value).fields) else None);
  }

  lemma {:induction false} BlocksBack(bs: seq<Block>)
    ensures BlocksOf(BlocksJson(bs)) == Some(bs)
  {
    if bs != [] {
      assert BlocksJson(bs)[1..] == BlocksJson(bs[1..]);
      BlockBack(bs[0]);
      BlocksBack(bs[1..]);
      assert [bs[0]] + bs[1..] == bs;
    }
  }

  function Envelope(m0: Message, m: Message): Message {
    m0.(role := m.role, content := "", parts := [], toolCalls := m.toolCalls, toolCallId := m.toolCallId, name := m.name)
  }

  /** The message an encoded one decodes to: the envelope intact, the content split anew. */
  function Returned(m0: Message, m: Message): Message {
    if m.parts != [] then FromBlocks(Envelope(m0, m), Blocks(m)) else Envelope(m0, m).(content := m.content)
  }

  lemma ContentBack(m0: Message, m: Message)
    ensures ReadContent(Envelope(m0, m), ContentJson(m)) == (Returned(m0, m), true)
  {
    BlocksBack(Blocks(m));
  }

  lemma FieldsBack(m: Message)
    ensures var o := EncodeSpec(m).fields;
      && StringField(o, "role") == Some(m.role)
      && StringField(o, "tool_call_id") == Some(m.toolCallId)
      && StringField(o, "name") == Some(m.name)
      && ItemsOf(o, "tool_calls") == Some(ToolCallsJson(m.toolCalls))
      && ContentJson(m) == (if "content" in o then Some(o["content"]) else None)
  {
    KeysOfMessage();
    assert m.toolCalls == [] ==> ToolCallsJson(m.toolCalls) == [];
  }

  lemma EnvelopeBack(m0: Message, m: Message)
    ensures ReadEnvelope(m0, EncodeSpec(m).fields) == Some(Envelope(m0, m))
  {
    FieldsBack(m);
    ToolCallsBack(m.toolCalls);
  }

  lemma Decoded(m0: Message, m: Message)
    ensures DecodeSpec(m0, EncodeSpec(m)) == (Returned(m0, m), true)
  {
    EnvelopeBack(m0, m);
    ContentBack(m0, m);
    FieldsBack(m);
  }

  /** Decoding always succeeds on an encoded message, and restores role, tool calls, tool
      call id and name for every message whatever its content. */
  lemma EnvelopeRestored(m0: Message, m: Message)
    ensures DecodeSpec(m0, EncodeSpec(m)) == (Returned(m0, m), true)
    ensures var r := Returned(m0, m); r.role == m.role && r.toolCalls == m.toolCalls && r.toolCallId == m.toolCallId && r.name == m.name
  {
    Decoded(m0, m);
  }

  // ---- When the content is restored ---------------------------------------------------------

  /** What a part must look like to come back: only the fields its type uses, inline bytes
      with a MIME type free of the marker, an image URI that is not a base64 data: URL. */
  predicate Kept(p: Part) {
    if p.typ == "text" then p.mime == "" && p.data == [] && p.uri == ""
    else (p.typ == "image" || p.typ == "document") && p.text == "" &&
         if p.uri != "" then p.mime == "" && p.data == [] && (p.typ == "image" ==> ParseDataUrl(p.uri).None?)
         else (p.data == [] <==> p.mime == "") && !Text.Contains(p.mime, MARK)
  }

  /** The part that a part's own block becomes. */
  function Restored(p: Part): Option<Part> {
    match PartBlock(p) case None => None case Some(b) => BlockPart(b)
  }

  lemma EmptyUrl(typ: string)
    ensures PartFromUrl(typ, "") == Part(typ, "", "", [], "")
  {
  }

  lemma KeptIff(p: Part)
    ensures Restored(p) == Some(p) <==> Kept(p)
    ensures PartBlock(p).Some? ==> Restored(p).Some?
  {
    if p.typ == "image" {
      ImageKept(p);
    } else if p.typ == "document" {
      DocumentKept(p);
    }
  }

  lemma ImageKept(p: Part)
    requires p.typ == "image"
    ensures Restored(p) == Some(PartFromUrl("image", if p.uri == "" then DataUrl(p) else p.uri))
    ensures Restored(p) == Some(p) <==> Kept(p)
  {
    if p.uri == "" && p.text == "" { InlineBack(p); }
  }

  lemma DocumentKept(p: Part)
    requires p.typ == "document"
    ensures Restored(p) == Some(if p.uri == "" then PartFromUrl("document", DataUrl(p)) else Part("document", "", "", [], p.uri))
    ensures Restored(p) == Some(p) <==> Kept(p)
  {
    if p.uri == "" && p.text == "" { InlineBack(p); }
  }

  /** Inline bytes come back exactly when a MIME type goes with them, free of the marker. */
  lemma InlineBack(p: Part)
    requires p.uri == "" && p.text == ""
    ensures PartFromUrl(p.typ, DataUrl(p)) == p <==> (p.data == [] <==> p.mime == "") && !Text.Contains(p.mime, MARK)
  {
    if p.data != [] && p.mime != "" {
      DataUrlRoundTrip(p.typ, p.mime, p.data);
      assert p == Part(p.typ, "", p.mime, p.data, "");
    } else {
      EmptyUrl(p.typ);
    }
  }

  lemma {:induction false} PartsBack(parts: seq<Part>)
    ensures |BlockParts(PartBlocks(parts))| <= |parts|
    ensures BlockParts(PartBlocks(parts)) == parts <==> forall p :: p in parts ==> Kept(p)
  {
    if parts != [] {
      var rest := parts[1..];
      PartsBack(rest);
      KeptIff(parts[0]);
      assert forall p :: p in parts <==> p == parts[0] || p in rest;
      match PartBlock(parts[0]) {
        case None => assert PartBlocks(parts) == PartBlocks(rest);
        case Some(b) =>
          assert PartBlocks(parts)[0] == b && PartBlocks(parts)[1..] == PartBlocks(rest);
          assert BlockParts(PartBlocks(parts)) == [Restored(parts[0]).value] + BlockParts(PartBlocks(rest));
      }
    }
  }

  /** The message's blocks in order, Content counted as a leading text block. */
  function BlockList(m: Message): seq<Part> {
    (if m.content != "" then [TextPart(m.content)] else []) + m.parts
  }

  predicate AllKept(m: Message) { forall p :: p in m.parts ==> Kept(p) }

  lemma {:induction false} BlockPartsShort(bs: seq<Block>)
    ensures |BlockParts(bs)| <= |bs|
  {
    if bs != [] { BlockPartsShort(bs[1..]); }
  }

  lemma {:induction false} PartBlocksShort(parts: seq<Part>)
    ensures |PartBlocks(parts)| <= |parts|
  {
    if parts != [] { PartBlocksShort(parts[1..]); }
  }

  /** How the block list of a message with parts splits again. */
  lemma SplitBlocks(m0: Message, m: Message)
    requires m.parts != []
    ensures var r, first := Returned(m0, m), m.parts[0];
      if m.content != "" then r.content == m.content && r.parts == BlockParts(PartBlocks(m.parts))
      else if first.typ == "text" then r.content == first.text && r.parts == BlockParts(PartBlocks(m.parts[1..]))
      else if PartBlock(first).None? then |BlockList(r)| < |m.parts|
      else r.content == "" && r.parts == BlockParts(PartBlocks(m.parts))
  {
    if m.content != "" {
      assert Blocks(m)[1..] == PartBlocks(m.parts);
    } else if PartBlock(m.parts[0]).None? {
      FirstDropped(m0, m);
    } else {
      assert Blocks(m) == PartBlocks(m.parts) && Blocks(m)[0] == PartBlock(m.parts[0]).value;
      assert Blocks(m)[1..] == PartBlocks(m.parts[1..]);
    }
  }

  lemma FirstDropped(m0: Message, m: Message)
    requires m.content == "" && m.parts != [] && PartBlock(m.parts[0]).None?
    ensures |BlockList(Returned(m0, m))| < |m.parts|
  {
    var rest := PartBlocks(m.parts[1..]);
    assert Blocks(m) == rest;
    PartBlocksShort(m.parts[1..]);
    BlockPartsShort(rest);
    if rest != [] { BlockPartsShort(rest[1..]); }
  }

  /** Decoding an encoded message gives back Content and Parts field by field exactly when
      every part is kept and no leading text part can be taken for Content. */
  lemma FieldsRestoredIff(m0: Message, m: Message)
    ensures var r := DecodeSpec(m0, EncodeSpec(m)).0;
      (r.content == m.content && r.parts == m.parts) <==>
        AllKept(m) && (m.content != "" || m.parts == [] || m.parts[0].typ != "text")
  {
    EnvelopeRestored(m0, m);
    PartsBack(m.parts);
    if m.parts != [] {
      SplitBlocks(m0, m);
      PartsBack(m.parts[1..]);
      KeptIff(m.parts[0]);
      assert m.parts[0] in m.parts;
    }
  }

  /** It gives back the same block list exactly when every part is kept and the message
      does not open with an empty text part, which would be dropped. */
  lemma BlocksRestoredIff(m0: Message, m: Message)
    ensures BlockList(DecodeSpec(m0, EncodeSpec(m)).0) == BlockList(m) <==>
      AllKept(m) && !(m.content == "" && m.parts != [] && m.parts[0].typ == "text" && m.parts[0].text == "")
  {
    EnvelopeRestored(m0, m);
    PartsBack(m.parts);
    if m.parts != [] {
      SplitBlocks(m0, m);
      KeptIff(m.parts[0]);
      assert m.parts[0] in m.parts;
      if m.content != "" {
        SameLead(m.content, Returned(m0, m), m);
      } else {
        NoLead(m);
        if m.parts[0].typ == "text" {
          PartsBack(m.parts[1..]);
          LeadingText(m, Returned(m0, m));
        } else if PartBlock(m.parts[0]).Some? {
          NoLead(Returned(m0, m));
        }
      }
    }
  }

  /** A part that does not come back: bytes that name no MIME type are dropped. */
  lemma BytesLost(m0: Message)
    ensures var m := Message("user", "", [Part("image", "", "", [1], "")], [], "", "", false, false, "");
      var r := DecodeSpec(m0, EncodeSpec(m)).0;
      r.parts != m.parts && BlockList(r) != BlockList(m)
  {
    var p := Part("image", "", "", [1], "");
    var m := Message("user", "", [p], [], "", "", false, false, "");
    assert !Kept(p) && p in m.parts;
    FieldsRestoredIff(m0, m);
    BlocksRestoredIff(m0, m);
    EnvelopeRestored(m0, m);
    LostContent(m0, m);
  }

  lemma LostContent(m0: Message, m: Message)
    requires m.content == "" && m.parts != [] && m.parts[0].typ == "image"
    ensures DecodeSpec(m0, EncodeSpec(m)).0.content == ""
  {
    EnvelopeRestored(m0, m);
    SplitBlocks(m0, m);
  }

  /** A text part in front of the message comes back as its Content instead. */
  lemma LeadBecomesContent(m0: Message)
    ensures var m := Message("user", "", [TextPart("hi")], [], "", "", false, false, "");
      var r := DecodeSpec(m0, EncodeSpec(m)).0;
      !(r.content == m.content && r.parts == m.parts) && BlockList(r) == BlockList(m)
  {
    var p := TextPart("hi");
    var m := Message("user", "", [p], [], "", "", false, false, "");
    assert Kept(p) && m.parts[0] == p;
    FieldsRestoredIff(m0, m);
    BlocksRestoredIff(m0, m);
  }

  lemma SameLead(content: string, r: Message, m: Message)
    requires content != "" && r.content == m.content == content
    ensures BlockList(r) == BlockList(m) <==> r.parts == m.parts
  {
    assert BlockList(r)[1..] == r.parts && BlockList(m)[1..] == m.parts;
  }

  lemma NoLead(m: Message)
    requires m.content == ""
    ensures BlockList(m) == m.parts
  {
  }

  lemma LeadingText(m: Message, r: Message)
    requires m.content == "" && m.parts != [] && m.parts[0].typ == "text"
    requires r.content == m.parts[0].text && r.parts == BlockParts(PartBlocks(m.parts[1..]))
    requires |r.parts| <= |m.parts| - 1
    requires r.parts == m.parts[1..] <==> forall p :: p in m.parts[1..] ==> Kept(p)
    ensures BlockList(r) == m.parts <==> AllKept(m) && m.parts[0].text != ""
  {
    var first, rest := m.parts[0], m.parts[1..];
    assert forall p :: p in m.parts <==> p == first || p in rest;
    assert Kept(first) <==> first == TextPart(first.text);
    if first.text == "" {
      NoLead(r);
    } else {
      assert BlockList(r)[1..] == r.parts && BlockList(r)[0] == TextPart(first.text);
      assert m.parts == [first] + rest;
    }
  }
}
