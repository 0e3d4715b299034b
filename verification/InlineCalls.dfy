/** Tool calls that a chat template leaked into the assistant's text (llm/inline_toolcall.go).
    The three regular expressions are written out as searches; the JSON library is a
    parameter. */
module InlineCalls {
  import opened Wrappers
  import Decimal
  import opened MessageCodec

  /** What the parser uses of encoding/json. */
  datatype JsonLib = JsonLib(
    valid: string -> bool,
    quote: string -> string,
    call: string -> Option<(string, string)>,   // the name and raw arguments of an object
    unquote: string -> Option<string>)          // raw text that is a JSON string

  // ---- White space -----------------------------------------------------------------------------

  /** The class \s. */
  predicate IsBlank(c: char) { c == ' ' || c == '\t' || c == '\n' || c == '\r' || c == 0x0c as char }

  /** unicode.IsSpace. */
  predicate IsSpace(c: char) {
    IsBlank(c) || c == 0x0b as char || c == 0x85 as char || c == 0xa0 as char || c == 0x1680 as char ||
    0x2000 as char <= c <= 0x200a as char || c == 0x2028 as char || c == 0x2029 as char ||
    c == 0x202f as char || c == 0x205f as char || c == 0x3000 as char
  }

  function TrimLeft(s: string): string { if s != [] && IsSpace(s[0]) then TrimLeft(s[1..]) else s }

  function TrimRight(s: string): string {
    if s != [] && IsSpace(s[|s| - 1]) then TrimRight(s[..|s| - 1]) else s
  }

  function TrimSpace(s: string): string { TrimRight(TrimLeft(s)) }

  function SkipBlank(s: string): (r: string)
    ensures |r| <= |s|
  {
    if s != [] && IsBlank(s[0]) then SkipBlank(s[1..]) else s
  }

  // ---- Tags --------------------------------------------------------------------------------------

  function FoldChar(c: char): char { if 'A' <= c <= 'Z' then (c as int + 32) as char else c }

  /** s begins with tag, whatever the case of its letters. */
  predicate HasTag(s: string, tag: string) {
    |tag| <= |s| && forall j :: 0 <= j < |tag| ==> FoldChar(s[j]) == tag[j]
  }

  /** The bracketed shapes: <tool_call>..</tool_call>, and <word = NAME >..</word >. */
  datatype Shape = Wrapper | Element(word: string)

  function NameRun(s: string): (n: nat)
    ensures n <= |s|
  {
    if s == [] || s[0] == '>' || IsBlank(s[0]) then 0 else 1 + NameRun(s[1..])
  }

  /** The opening tag at the start of s: its name and what follows it. */
  function Open(shape: Shape, s: string): (r: Option<(string, string)>)
    ensures r.Some? ==> |r.value.1| < |s|
  {
    match shape
    case Wrapper => if HasTag(s, "<tool_call>") then Some(("", s[11..])) else None
    case Element(word) =>
      if !HasTag(s, "<" + word) then None else
        var a := SkipBlank(s[1 + |word|..]);
        if a == [] || a[0] != '=' then None else
          var b := SkipBlank(a[1..]);
          var n := NameRun(b);
          var c := SkipBlank(b[n..]);
          if n == 0 || c == [] || c[0] != '>' then None else Some((b[..n], c[1..]))
  }

  /** What follows the closing tag at the start of s. */
  function Close(shape: Shape, s: string): (r: Option<string>)
    ensures r.Some? ==> |r.value| < |s|
  {
    match shape
    case Wrapper => if HasTag(s, "</tool_call>") then Some(s[12..]) else None
    case Element(word) =>
      if !HasTag(s, "</" + word) then None else
        var a := SkipBlank(s[2 + |word|..]);
        if a == [] || a[0] != '>' then None else Some(a[1..])
  }

  datatype Found<T> = Nowhere | At(pos: nat, what: T)

  /** The leftmost opening tag. */
  function FindOpen(shape: Shape, s: string): (r: Found<(string, string)>)
    ensures r.At? ==> r.pos <= |s| && |r.what.1| < |s|
  {
    if Open(shape, s).Some? then At(0, Open(shape, s).value)
    else if s == [] then Nowhere
    else match FindOpen(shape, s[1..]) case Nowhere => Nowhere case At(i, w) => At(i + 1, w)
  }

  function FindClose(shape: Shape, s: string): (r: Found<string>)
    ensures r.At? ==> r.pos <= |s| && |r.what| < |s|
  {
    if Close(shape, s).Some? then At(0, Close(shape, s).value)
    else if s == [] then Nowhere
    else match FindClose(shape, s[1..]) case Nowhere => Nowhere case At(i, w) => At(i + 1, w)
  }

  /** A match: the text skipped to reach it, and its two groups. White space at either end
      of a group is dropped by a later TrimSpace, so the group keeps it here. */
  datatype Match = Match(before: string, name: string, body: string)

  /** The leftmost match, with the shortest body, and the text after it. An opening tag
      with no closing tag behind it leaves none behind any later one. */
  function NextMatch(shape: Shape, s: string): (r: Option<(Match, string)>)
    ensures r.Some? ==> |r.value.1| < |s|
  {
    var o := FindOpen(shape, s);
    if o == Nowhere then None else
      var c := FindClose(shape, o.what.1);
      if c == Nowhere then None
      else Some((Match(s[..o.pos], o.what.0, o.what.1[..c.pos]), c.what))
  }

  /** Every match in order, and the text after the last. */
  function FindAll(shape: Shape, s: string): (seq<Match>, string)
    decreases |s|
  {
    var n := NextMatch(shape, s);
    if n == None then ([], s) else
      var (ms, tail) := FindAll(shape, n.value.1);
      ([n.value.0] + ms, tail)
  }

  /** The text with every match removed. */
  function Unmatched(ms: seq<Match>, tail: string): string {
    if ms == [] then tail else ms[0].before + Unmatched(ms[1..], tail)
  }

  // ---- From matches to calls ---------------------------------------------------------------------

  function Coerce(json: JsonLib, raw: string): string {
    if raw != "" && json.valid(raw) && raw != "}" then raw else json.quote(raw)
  }

  function Member(json: JsonLib, key: string, raw: string): string {
    json.quote(key) + ":" + Coerce(json, raw)
  }

  function Members(json: JsonLib, ms: seq<Match>): seq<string> {
    if ms == [] then [] else
      var m := ms[|ms| - 1];
      var key := TrimSpace(m.name);
      Members(json, ms[..|ms| - 1]) + if key == "" then [] else [Member(json, key, TrimSpace(m.body))]
  }

  function Join(parts: seq<string>, sep: string): string {
    if parts == [] then "" else if |parts| == 1 then parts[0] else parts[0] + sep + Join(parts[1..], sep)
  }

  function InlineId(n: nat): string { "call_inline_" + Decimal.Digits(n) }

  function NewInlineCall(name: string, args: string, idx: nat): ToolCall {
    ToolCall(InlineId(idx + 1), "function", TrimSpace(name), args)
  }

  function FunctionCall(json: JsonLib, name: string, body: string, idx: nat): Option<ToolCall> {
    if TrimSpace(name) == "" then None
    else
      var members := Members(json, FindAll(Element("parameter"), body).0);
      Some(NewInlineCall(TrimSpace(name), "{" + Join(members, ",") + "}", idx))
  }

  function ArgumentsOf(json: JsonLib, raw: string): string {
    var args := TrimSpace(raw);
    if args == "" || args == "null" then "{}"
    else if json.unquote(raw).Some? then json.unquote(raw).value
    else args
  }

  function OneInline(json: JsonLib, body: string, idx: nat): Option<ToolCall> {
    var n := NextMatch(Element("function"), body);
    if n.Some? then FunctionCall(json, n.value.0.name, n.value.0.body, idx)
    else
      var j := json.call(body);
      if j == None || j.value.0 == "" then None
      else Some(NewInlineCall(j.value.0, ArgumentsOf(json, j.value.1), idx))
  }

  function CallOf(json: JsonLib, shape: Shape, m: Match, idx: nat): Option<ToolCall> {
    if shape == Wrapper then OneInline(json, TrimSpace(m.body), idx) else FunctionCall(json, m.name, m.body, idx)
  }

  function Calls(json: JsonLib, shape: Shape, ms: seq<Match>): seq<ToolCall> {
    if ms == [] then [] else
      var calls := Calls(json, shape, ms[..|ms| - 1]);
      var c := CallOf(json, shape, ms[|ms| - 1], |calls|);
      if c.Some? then calls + [c.value] else calls
  }

  function ParseSpec(json: JsonLib, content: string): (string, seq<ToolCall>) {
    if '<' !in content then (content, []) else
      var (blocks, tail) := FindAll(Wrapper, content);
      if Calls(json, Wrapper, blocks) != [] then (TrimSpace(Unmatched(blocks, tail)), Calls(json, Wrapper, blocks))
      else
        var (functions, rest) := FindAll(Element("function"), content);
        if Calls(json, Element("function"), functions) == [] then (content, [])
        else (TrimSpace(Unmatched(functions, rest)), Calls(json, Element("function"), functions))
  }

  // ---- The parser --------------------------------------------------------------------------------

  method ParseFunctionXML(json: JsonLib, name: string, body: string, idx: nat) returns (r: Option<ToolCall>)
    ensures r == FunctionCall(json, name, body, idx)
  {
    var trimmed := TrimSpace(name);
    if trimmed == "" {
      return None;
    }
    var ms := FindAll(Element("parameter"), body).0;
    var parts := [];
    for i := 0 to |ms|
      invariant parts == Members(json, ms[..i])
    {
      assert ms[..i + 1][..i] == ms[..i];
      var key := TrimSpace(ms[i].name);
      if key == "" {
        continue;
      }
      var raw := TrimSpace(ms[i].body);
      var val;
      if raw != "" && json.valid(raw) && raw != "}" {
        val := raw;
      } else {
        val := json.quote(raw);
      }
      parts := parts + [json.quote(key) + ":" + val];
    }
    assert ms[..|ms|] == ms;
    return Some(NewInlineCall(trimmed, "{" + Join(parts, ",") + "}", idx));
  }

  method ParseOneInline(json: JsonLib, body: string, idx: nat) returns (r: Option<ToolCall>)
    ensures r == OneInline(json, body, idx)
  {
    var n := NextMatch(Element("function"), body);
    if n.Some? {
      r := ParseFunctionXML(json, n.value.0.name, n.value.0.body, idx);
      return;
    }
    var j := json.call(body);
    if j == None || j.value.0 == "" {
      return None;
    }
    var args := TrimSpace(j.value.1);
    if args == "" || args == "null" {
      args := "{}";
    } else if json.unquote(j.value.1).Some? {
      args := json.unquote(j.value.1).value;
    }
    return Some(NewInlineCall(j.value.0, args, idx));
  }

  method ParseInlineToolCalls(json: JsonLib, content: string) returns (text: string, calls: seq<ToolCall>)
    ensures (text, calls) == ParseSpec(json, content)
  {
    calls := [];
    if content == "" || '<' !in content {
      return content, calls;
    }
    var (blocks, tail) := FindAll(Wrapper, content);
    for i := 0 to |blocks|
      invariant calls == Calls(json, Wrapper, blocks[..i])
    {
      assert blocks[..i + 1][..i] == blocks[..i];
      var c := ParseOneInline(json, TrimSpace(blocks[i].body), |calls|);
      if c.Some? { calls := calls + [c.value]; }
    }
    assert blocks[..|blocks|] == blocks;
    if calls != [] {
      return TrimSpace(Unmatched(blocks, tail)), calls;
    }
    var (functions, rest) := FindAll(Element("function"), content);
    for i := 0 to |functions|
      invariant calls == Calls(json, Element("function"), functions[..i])
    {
      assert functions[..i + 1][..i] == functions[..i];
      var c := ParseFunctionXML(json, functions[i].name, functions[i].body, |calls|);
      if c.Some? { calls := calls + [c.value]; }
    }
    assert functions[..|functions|] == functions;
    if calls != [] {
      return TrimSpace(Unmatched(functions, rest)), calls;
    }
    return content, calls;
  }
}
