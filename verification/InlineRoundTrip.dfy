/** The inline-call parser undoes a printer of the pseudo-XML shape, and leaves alone the
    text it finds no call in. */
module InlineRoundTrip {
  import opened Wrappers
  import Decimal
  import opened MessageCodec
  import opened InlineCalls

  // ---- The printer -------------------------------------------------------------------------------

  /** A parameter, with the white space before it and on either side of its value. */
  datatype Param = Param(before: string, key: string, pre: string, value: string, post: string)

  /** A call, with the white space after its last parameter. */
  datatype Printed = Printed(name: string, params: seq<Param>, end: string)

  /** Some prose, then a call with the white space around it in its wrapper. */
  datatype Said = Said(prose: string, lead: string, call: Printed, trail: string)

  function ParamOpen(key: string): string { "<parameter=" + key + ">" }

  function Padded(p: Param): string { p.pre + p.value + p.post }

  function ParamsText(ps: seq<Param>, end: string): string {
    if ps == [] then end
    else ps[0].before + (ParamOpen(ps[0].key) + (Padded(ps[0]) + ("</parameter>" + ParamsText(ps[1..], end))))
  }

  function CallOpen(c: Printed): string { "<function=" + c.name + ">" }

  function CallText(c: Printed): string {
    CallOpen(c) + (ParamsText(c.params, c.end) + "</function>")
  }

  /** What stands between the wrapper's tags. */
  function Inside(s: Said): string { s.lead + CallText(s.call) + s.trail }

  function Content(said: seq<Said>, tail: string): string {
    if said == [] then tail
    else said[0].prose + ("<tool_call>" + (Inside(said[0]) + ("</tool_call>" + Content(said[1..], tail))))
  }

  function Prose(said: seq<Said>, tail: string): string {
    if said == [] then tail else said[0].prose + Prose(said[1..], tail)
  }

  /** The call a printed call stands for. */
  function Meant(json: JsonLib, c: Printed, idx: nat): ToolCall {
    ToolCall("call_inline_" + Decimal.Digits(idx + 1), "function", c.name, "{" + Listing(json, c.params) + "}")
  }

  function AllMeant(json: JsonLib, said: seq<Said>): seq<ToolCall> {
    seq(|said|, i requires 0 <= i < |said| => Meant(json, said[i].call, i))
  }

  /** The parameters as the members of a JSON object, in order, with commas between. */
  function Listing(json: JsonLib, ps: seq<Param>): string {
    if ps == [] then ""
    else if |ps| == 1 then Entry(json, ps[0])
    else Entry(json, ps[0]) + "," + Listing(json, ps[1..])
  }

  /** A value that is valid JSON goes in as it is, any other as a JSON string. */
  function Entry(json: JsonLib, p: Param): string {
    json.quote(p.key) + ":" + if p.value != "" && json.valid(p.value) && p.value != "}" then p.value else json.quote(p.value)
  }

  function Texts(json: JsonLib, ps: seq<Param>): seq<string> {
    seq(|ps|, i requires 0 <= i < |ps| => Member(json, ps[i].key, ps[i].value))
  }

  lemma {:induction false} JoinsListing(json: JsonLib, ps: seq<Param>)
    ensures Join(Texts(json, ps), ",") == Listing(json, ps)
  {
    if |ps| > 1 {
      JoinsListing(json, ps[1..]);
      assert Texts(json, ps)[1..] == Texts(json, ps[1..]);
    }
  }

  // ---- What may be printed -----------------------------------------------------------------------

  ghost predicate Blank(gap: string) { forall i :: 0 <= i < |gap| ==> IsBlank(gap[i]) }

  /** A name or key: something, free of white space and angle brackets. */
  ghost predicate Plain(s: string) {
    s != "" && forall i :: 0 <= i < |s| ==> !IsSpace(s[i]) && s[i] != '<' && s[i] != '>'
  }

  /** tag occurs nowhere in s, whatever the case of its letters. */
  ghost predicate Free(s: string, tag: string) { forall i :: 0 <= i < |s| ==> !HasTag(s[i..], tag) }

  predicate Trimmed(s: string) { s == "" || (!IsSpace(s[0]) && !IsSpace(s[|s| - 1])) }

  /** A value may hold anything, other tags included, but the three closing ones. */
  ghost predicate Value(s: string) {
    Trimmed(s) && Free(s, "</parameter") && Free(s, "</function") && Free(s, "</tool_call>")
  }

  ghost predicate ParamOk(p: Param) {
    Blank(p.before) && Blank(p.pre) && Blank(p.post) && Plain(p.key) && Value(p.value)
  }

  ghost predicate Printable(c: Printed) {
    Plain(c.name) && Blank(c.end) && forall i :: 0 <= i < |c.params| ==> ParamOk(c.params[i])
  }

  ghost predicate Wrapped(s: Said) {
    Free(s.prose, "<tool_call>") && Blank(s.lead) && Blank(s.trail) && Printable(s.call)
  }

  ghost predicate Speakable(said: seq<Said>, tail: string) {
    Free(tail, "<tool_call>") && forall i :: 0 <= i < |said| ==> Wrapped(said[i])
  }

  // ---- No tag begins where none should ------------------------------------------------------------

  /** A tag: it starts with '<' and has no other. */
  ghost predicate IsTag(tag: string) {
    tag != "" && tag[0] == '<' && forall i :: 1 <= i < |tag| ==> tag[i] != '<' && !IsBlank(tag[i])
  }

  /** With b behind it, no occurrence of tag begins inside a. */
  ghost predicate Clear(a: string, b: string, tag: string) {
    forall i :: 0 <= i < |a| ==> !HasTag((a + b)[i..], tag)
  }

  lemma ClearJoin(a: string, b: string, c: string, tag: string)
    requires Clear(a, b + c, tag) && Clear(b, c, tag)
    ensures Clear(a + b, c, tag)
  {
    assert (a + b) + c == a + (b + c);
    forall i | |a| <= i < |a + b| ensures !HasTag(((a + b) + c)[i..], tag) {
      assert (a + (b + c))[i..] == (b + c)[i - |a|..];
    }
  }

  /** An occurrence that starts in a text free of the tag cannot run on into a bracket or a
      blank. */
  lemma FreeIsClear(a: string, b: string, tag: string)
    requires IsTag(tag) && Free(a, tag)
    requires b == "" || b[0] == '<' || IsBlank(b[0])
    ensures Clear(a, b, tag)
  {
    forall i | 0 <= i < |a| ensures !HasTag((a + b)[i..], tag) {
      var s := (a + b)[i..];
      assert forall j :: 0 <= j < |a| - i ==> s[j] == a[i..][j];
      if |tag| > |a| - i && |tag| <= |s| {
        assert s[|a| - i] == b[0];
        assert FoldChar(s[|a| - i]) != tag[|a| - i];
      }
    }
  }

  lemma NoBracketIsClear(a: string, b: string, tag: string)
    requires IsTag(tag) && forall i :: 0 <= i < |a| ==> a[i] != '<'
    ensures Clear(a, b, tag)
  {
    forall i | 0 <= i < |a| ensures !HasTag((a + b)[i..], tag) {
      assert FoldChar((a + b)[i..][0]) != tag[0];
    }
  }

  lemma BlankIsClear(gap: string, b: string, tag: string)
    requires IsTag(tag) && Blank(gap)
    ensures Clear(gap, b, tag)
  {
    NoBracketIsClear(gap, b, tag);
  }

  /** A text whose only bracket starts another tag. */
  lemma OtherTagIsClear(a: string, b: string, tag: string, k: nat)
    requires IsTag(tag) && k < |tag| && k < |a| && FoldChar(a[k]) != tag[k]
    requires forall i :: 1 <= i < |a| ==> a[i] != '<'
    ensures Clear(a, b, tag)
  {
    forall i | 0 <= i < |a| ensures !HasTag((a + b)[i..], tag) {
      var s := (a + b)[i..];
      if i == 0 { assert s[k] == a[k]; } else { assert FoldChar(s[0]) != tag[0]; }
    }
  }

  /** The characters of the class \s. */
  lemma Blanks(c: char)
    ensures IsBlank(c) <==> c in {' ', '\t', '\n', '\r', 0x0c as char}
  {
  }

  lemma Tags()
    ensures IsTag("<tool_call>") && IsTag("</tool_call>")
    ensures IsTag("<function") && IsTag("</function") && IsTag("<parameter") && IsTag("</parameter")
  {
  }

  // ---- Searching past clear text -------------------------------------------------------------------

  function OpenTagOf(shape: Shape): string { if shape == Wrapper then "<tool_call>" else "<" + shape.word }

  function CloseTagOf(shape: Shape): string { if shape == Wrapper then "</tool_call>" else "</" + shape.word }

  lemma {:induction false} SkipOpen(shape: Shape, a: string, b: string, name: string, rest: string)
    requires Clear(a, b, OpenTagOf(shape)) && Open(shape, b) == Some((name, rest))
    ensures FindOpen(shape, a + b) == At(|a|, (name, rest))
  {
    if a == [] {
      assert a + b == b;
    } else {
      ClearTail(a, b, OpenTagOf(shape));
      SkipOpen(shape, a[1..], b, name, rest);
    }
  }

  lemma {:induction false} SkipClose(shape: Shape, a: string, b: string, rest: string)
    requires Clear(a, b, CloseTagOf(shape)) && Close(shape, b) == Some(rest)
    ensures FindClose(shape, a + b) == At(|a|, rest)
  {
    if a == [] {
      assert a + b == b;
    } else {
      ClearTail(a, b, CloseTagOf(shape));
      SkipClose(shape, a[1..], b, rest);
    }
  }

  lemma {:induction false} NoOpen(shape: Shape, a: string)
    requires Clear(a, "", OpenTagOf(shape)) && OpenTagOf(shape) != ""
    ensures FindOpen(shape, a) == Nowhere
  {
    if a != [] {
      ClearTail(a, "", OpenTagOf(shape));
      assert a + "" == a && a[1..] + "" == a[1..];
      NoOpen(shape, a[1..]);
    }
  }

  lemma ClearTail(a: string, b: string, tag: string)
    requires a != [] && Clear(a, b, tag)
    ensures !HasTag(a + b, tag) && (a + b)[1..] == a[1..] + b && Clear(a[1..], b, tag)
  {
    assert (a + b)[0..] == a + b;
    forall i | 0 <= i < |a[1..]| ensures !HasTag((a[1..] + b)[i..], tag) {
      assert (a[1..] + b)[i..] == (a + b)[i + 1..];
    }
  }

  /** An element is found with its name and body, whatever clear text comes before it. */
  lemma Bracketed(shape: Shape, before: string, open: string, name: string, body: string, close: string, rest: string)
    requires Open(shape, open + (body + (close + rest))) == Some((name, body + (close + rest)))
    requires Close(shape, close + rest) == Some(rest)
    requires Clear(before, open + (body + (close + rest)), OpenTagOf(shape))
    requires Clear(body, close + rest, CloseTagOf(shape))
    ensures NextMatch(shape, before + (open + (body + (close + rest)))) == Some((Match(before, name, body), rest))
  {
    SkipOpen(shape, before, open + (body + (close + rest)), name, body + (close + rest));
    SkipClose(shape, body, close + rest, rest);
  }

  // ---- Reading the tags the printer writes --------------------------------------------------------

  lemma {:induction false} NameEnds(name: string, rest: string)
    requires forall i :: 0 <= i < |name| ==> !IsBlank(name[i]) && name[i] != '>'
    ensures NameRun(name + (">" + rest)) == |name|
  {
    var s := name + (">" + rest);
    if name == "" {
      assert s == ">" + rest;
    } else {
      assert s[1..] == name[1..] + (">" + rest);
      NameEnds(name[1..], rest);
    }
  }

  lemma OpensElement(word: string, name: string, rest: string)
    requires Plain(name) && (word == "function" || word == "parameter")
    ensures Open(Element(word), ("<" + word + "=" + name + ">") + rest) == Some((name, rest))
  {
    var s := ("<" + word + "=" + name + ">") + rest;
    var b := name + (">" + rest);
    assert HasTag(s, "<" + word);
    assert s[1 + |word|..] == "=" + b;
    assert ("=" + b)[1..] == b && SkipBlank(b) == b;
    NameEnds(name, rest);
    assert b[..|name|] == name && b[|name|..] == ">" + rest;
  }

  lemma ClosesElement(word: string, rest: string)
    requires word == "function" || word == "parameter"
    ensures Close(Element(word), ("</" + word + ">") + rest) == Some(rest)
  {
    var s := ("</" + word + ">") + rest;
    assert HasTag(s, "</" + word);
    assert s[2 + |word|..] == ">" + rest;
  }

  /** Trimming drops other white space too, but not every invisible character. */
  lemma Spaces()
    ensures forall c :: IsBlank(c) ==> IsSpace(c)
    ensures IsSpace(0x0b as char) && IsSpace(0x85 as char) && IsSpace(0xa0 as char) && IsSpace(0x2003 as char) && IsSpace(0x3000 as char)
    ensures !IsSpace(0x200b as char) && !IsSpace('x') && !IsSpace('<')
  {
  }

  lemma {:induction false} SkipsGap(gap: string, s: string)
    requires Blank(gap) && (s == "" || !IsBlank(s[0]))
    ensures SkipBlank(gap + s) == s
  {
    if gap == "" {
      assert gap + s == s;
    } else {
      assert (gap + s)[1..] == gap[1..] + s;
      SkipsGap(gap[1..], s);
    }
  }

  /** An opening tag in any case, with white space around its equals sign and name. */
  lemma OpensLoosely(word: string, tag: string, a: string, b: string, name: string, c: string, rest: string)
    requires HasTag(tag, "<" + word) && |tag| == 1 + |word| && Plain(name) && Blank(a) && Blank(b) && Blank(c)
    ensures Open(Element(word), tag + (a + ("=" + (b + (name + (c + (">" + rest))))))) == Some((name, rest))
  {
    var end := c + (">" + rest);
    var named := name + end;
    var s := tag + (a + ("=" + (b + named)));
    assert forall j :: 0 <= j < |tag| ==> s[j] == tag[j];
    assert s[1 + |word|..] == a + ("=" + (b + named));
    SkipsGap(a, "=" + (b + named));
    assert ("=" + (b + named))[1..] == b + named;
    SkipsGap(b, named);
    NameStops(name, end);
    assert named[..|name|] == name && named[|name|..] == end;
    SkipsGap(c, ">" + rest);
    assert (">" + rest)[1..] == rest;
  }

  lemma {:induction false} NameStops(name: string, end: string)
    requires forall i :: 0 <= i < |name| ==> !IsBlank(name[i]) && name[i] != '>'
    requires end != "" && (end[0] == '>' || IsBlank(end[0]))
    ensures NameRun(name + end) == |name|
  {
    if name == "" {
      assert name + end == end;
    } else {
      assert (name + end)[1..] == name[1..] + end;
      NameStops(name[1..], end);
    }
  }

  /** A closing tag in any case, with white space before its bracket. */
  lemma ClosesLoosely(word: string, tag: string, a: string, rest: string)
    requires HasTag(tag, "</" + word) && |tag| == 2 + |word| && Blank(a)
    ensures Close(Element(word), tag + (a + (">" + rest))) == Some(rest)
  {
    var s := tag + (a + (">" + rest));
    assert forall j :: 0 <= j < |tag| ==> s[j] == tag[j];
    assert s[2 + |word|..] == a + (">" + rest);
    SkipsGap(a, ">" + rest);
    assert (">" + rest)[1..] == rest;
  }

  /** Tags in capitals are the same tags. */
  lemma AnyCase()
    ensures HasTag("<FUNCTION", "<function") && HasTag("</Parameter", "</parameter") && HasTag("<Tool_Call>", "<tool_call>")
  {
  }

  lemma Wraps(rest: string)
    ensures Open(Wrapper, "<tool_call>" + rest) == Some(("", rest))
    ensures Close(Wrapper, "</tool_call>" + rest) == Some(rest)
  {
  }

  // ---- Trimming ------------------------------------------------------------------------------------

  lemma {:induction false} TrimLeftGap(gap: string, s: string)
    requires Blank(gap)
    ensures TrimLeft(gap + s) == TrimLeft(s)
  {
    if gap == "" {
      assert gap + s == s;
    } else {
      assert (gap + s)[1..] == gap[1..] + s;
      TrimLeftGap(gap[1..], s);
    }
  }

  lemma {:induction false} TrimRightGap(s: string, gap: string)
    requires Blank(gap)
    ensures TrimRight(s + gap) == TrimRight(s)
  {
    if gap == "" {
      assert s + gap == s;
    } else {
      var n := |gap| - 1;
      assert (s + gap)[..|s + gap| - 1] == s + gap[..n];
      TrimRightGap(s, gap[..n]);
    }
  }

  lemma TrimsGap(pre: string, s: string, post: string)
    requires Blank(pre) && Blank(post) && Trimmed(s)
    ensures TrimSpace(pre + s + post) == s
  {
    assert pre + s + post == pre + (s + post);
    TrimLeftGap(pre, s + post);
    if s == "" {
      assert post + "" == post && s + post == post;
      TrimLeftGap(post, "");
    } else {
      assert TrimLeft(s + post) == s + post;
    }
    TrimRightGap(s, post);
  }

  lemma TrimsNothing(s: string)
    requires Trimmed(s)
    ensures TrimSpace(s) == s
  {
    TrimsGap("", s, "");
    assert "" + s + "" == s;
  }

  // ---- Parameters ------------------------------------------------------------------------------------

  /** Nothing inside the printed parameters closes an outer element. */
  lemma {:induction false} ParamsClear(ps: seq<Param>, end: string, rest: string, tag: string)
    requires Blank(end) && (tag == "</function" || tag == "</tool_call>" || tag == "<tool_call>")
    requires forall i :: 0 <= i < |ps| ==> ParamOk(ps[i]) && Free(ps[i].value, tag)
    ensures Clear(ParamsText(ps, end), rest, tag)
  {
    Tags();
    if ps == [] {
      BlankIsClear(end, rest, tag);
    } else {
      var more := ParamsText(ps[1..], end);
      ParamsClear(ps[1..], end, rest, tag);
      ParamClear(ps[0], more, rest, tag);
    }
  }

  lemma ParamClear(p: Param, more: string, rest: string, tag: string)
    requires ParamOk(p) && (tag == "</function" || tag == "</tool_call>" || tag == "<tool_call>")
    requires Free(p.value, tag) && Clear(more, rest, tag)
    ensures Clear(p.before + (ParamOpen(p.key) + (Padded(p) + ("</parameter>" + more))), rest, tag)
  {
    Tags();
    OtherTagIsClear("</parameter>", more + rest, tag, 2);
    ClearJoin("</parameter>", more, rest, tag);
    var closing := "</parameter>" + more;
    BodyClear(p, closing + rest, tag);
    ClearJoin(Padded(p), closing, rest, tag);
    var inner := Padded(p) + closing;
    OtherTagIsClear(ParamOpen(p.key), inner + rest, tag, 1);
    ClearJoin(ParamOpen(p.key), inner, rest, tag);
    BlankIsClear(p.before, (ParamOpen(p.key) + inner) + rest, tag);
    ClearJoin(p.before, ParamOpen(p.key) + inner, rest, tag);
  }

  lemma BodyClear(p: Param, rest: string, tag: string)
    requires IsTag(tag) && Blank(p.pre) && Blank(p.post) && Free(p.value, tag)
    requires rest != "" && rest[0] == '<'
    ensures Clear(Padded(p), rest, tag)
  {
    BlankIsClear(p.post, rest, tag);
    FreeIsClear(p.value, p.post + rest, tag);
    ClearJoin(p.value, p.post, rest, tag);
    BlankIsClear(p.pre, (p.value + p.post) + rest, tag);
    ClearJoin(p.pre, p.value + p.post, rest, tag);
    assert p.pre + (p.value + p.post) == Padded(p);
  }

  function ParsedOne(p: Param): Match { Match(p.before, p.key, Padded(p)) }

  function Parsed(ps: seq<Param>): seq<Match> {
    seq(|ps|, i requires 0 <= i < |ps| => ParsedOne(ps[i]))
  }

  /** The parameters are found in order, each with its key and padded value. */
  lemma {:induction false} ParamsFound(ps: seq<Param>, end: string)
    requires Blank(end) && forall i :: 0 <= i < |ps| ==> ParamOk(ps[i])
    ensures FindAll(Element("parameter"), ParamsText(ps, end)) == (Parsed(ps), end)
  {
    if ps == [] {
      NoParams(end);
      assert Parsed(ps) == [];
    } else {
      ParamsFound(ps[1..], end);
      FirstParam(ps[0], ParamsText(ps[1..], end));
      ParsedSplit(ps);
    }
  }

  lemma NoParams(end: string)
    requires Blank(end)
    ensures NextMatch(Element("parameter"), end) == None
  {
    Tags();
    assert OpenTagOf(Element("parameter")) == "<parameter";
    BlankIsClear(end, "", "<parameter");
    NoOpen(Element("parameter"), end);
  }

  lemma ParsedSplit(ps: seq<Param>)
    requires ps != []
    ensures Parsed(ps) == [ParsedOne(ps[0])] + Parsed(ps[1..])
  {
  }

  lemma FirstParam(p: Param, more: string)
    requires ParamOk(p)
    ensures NextMatch(Element("parameter"), p.before + (ParamOpen(p.key) + (Padded(p) + ("</parameter>" + more))))
         == Some((ParsedOne(p), more))
  {
    Tags();
    var shape, body := Element("parameter"), Padded(p);
    assert OpenTagOf(shape) == "<parameter" && CloseTagOf(shape) == "</parameter";
    assert "<" + "parameter" + "=" + p.key + ">" == ParamOpen(p.key);
    OpensElement("parameter", p.key, body + ("</parameter>" + more));
    assert "</" + "parameter" + ">" == "</parameter>";
    ClosesElement("parameter", more);
    BlankIsClear(p.before, ParamOpen(p.key) + (body + ("</parameter>" + more)), "<parameter");
    BodyClear(p, "</parameter>" + more, "</parameter");
    Bracketed(shape, p.before, ParamOpen(p.key), p.key, body, "</parameter>", more);
  }

  lemma {:induction false} MembersMeant(json: JsonLib, ps: seq<Param>)
    requires forall i :: 0 <= i < |ps| ==> ParamOk(ps[i])
    ensures Members(json, Parsed(ps)) == Texts(json, ps)
  {
    if ps == [] {
      assert Parsed(ps) == [];
    } else {
      var n := |ps| - 1;
      MembersMeant(json, ps[..n]);
      assert ParamOk(ps[n]);
      ParsedSnoc(json, ps);
      MembersSnoc(json, Parsed(ps[..n]), ParsedOne(ps[n]));
      TrimsNothing(ps[n].key);
      TrimsGap(ps[n].pre, ps[n].value, ps[n].post);
    }
  }

  lemma ParsedSnoc(json: JsonLib, ps: seq<Param>)
    requires ps != []
    ensures var n := |ps| - 1;
      && Parsed(ps) == Parsed(ps[..n]) + [ParsedOne(ps[n])]
      && Texts(json, ps) == Texts(json, ps[..n]) + [Member(json, ps[n].key, ps[n].value)]
  {
  }

  lemma MembersSnoc(json: JsonLib, ms: seq<Match>, m: Match)
    ensures var key := TrimSpace(m.name);
      Members(json, ms + [m]) == Members(json, ms) + if key == "" then [] else [Member(json, key, TrimSpace(m.body))]
  {
    assert (ms + [m])[..|ms|] == ms;
  }

  // ---- Calls -----------------------------------------------------------------------------------------

  /** The function element of a printed call is found with its parameters as the body,
      past any text without such an element. */
  lemma CallFound(prose: string, c: Printed, rest: string)
    requires Printable(c) && Free(prose, "<function")
    ensures NextMatch(Element("function"), prose + (CallOpen(c) + (ParamsText(c.params, c.end) + ("</function>" + rest))))
         == Some((Match(prose, c.name, ParamsText(c.params, c.end)), rest))
  {
    Tags();
    var shape, body := Element("function"), ParamsText(c.params, c.end);
    assert OpenTagOf(shape) == "<function" && CloseTagOf(shape) == "</function";
    assert "<" + "function" + "=" + c.name + ">" == CallOpen(c) && "</" + "function" + ">" == "</function>";
    OpensElement("function", c.name, body + ("</function>" + rest));
    ClosesElement("function", rest);
    FreeIsClear(prose, CallOpen(c) + (body + ("</function>" + rest)), "<function");
    ParamsClear(c.params, c.end, "</function>" + rest, "</function");
    Bracketed(shape, prose, CallOpen(c), c.name, body, "</function>", rest);
  }

  /** One printed call is read back as the call it stands for. */
  lemma CallRead(json: JsonLib, c: Printed, idx: nat)
    requires Printable(c)
    ensures OneInline(json, CallText(c), idx) == Some(Meant(json, c, idx))
  {
    CallFound("", c, "");
    assert "</function>" + "" == "</function>" && "" + CallText(c) == CallText(c);
    FunctionRead(json, c, idx);
  }

  lemma FunctionRead(json: JsonLib, c: Printed, idx: nat)
    requires Printable(c)
    ensures FunctionCall(json, c.name, ParamsText(c.params, c.end), idx) == Some(Meant(json, c, idx))
  {
    ParamsFound(c.params, c.end);
    MembersMeant(json, c.params);
    JoinsListing(json, c.params);
    TrimsNothing(c.name);
  }

  /** No wrapper tag begins inside a printed call. */
  lemma CallClear(c: Printed, rest: string, tag: string)
    requires Printable(c) && (tag == "</tool_call>" || tag == "<tool_call>")
    requires forall i :: 0 <= i < |c.params| ==> Free(c.params[i].value, tag)
    ensures Clear(CallText(c), rest, tag)
  {
    Tags();
    OtherTagIsClear("</function>", rest, tag, 2);
    ParamsClear(c.params, c.end, "</function>" + rest, tag);
    ClearJoin(ParamsText(c.params, c.end), "</function>", rest, tag);
    var inner := ParamsText(c.params, c.end) + "</function>";
    OtherTagIsClear(CallOpen(c), inner + rest, tag, 1);
    ClearJoin(CallOpen(c), inner, rest, tag);
  }

  lemma BlockClear(s: Said, rest: string)
    requires Wrapped(s)
    ensures Clear(Inside(s), "</tool_call>" + rest, "</tool_call>")
  {
    Tags();
    var tag, after, text := "</tool_call>", "</tool_call>" + rest, CallText(s.call);
    BlankIsClear(s.trail, after, tag);
    CallClear(s.call, s.trail + after, tag);
    ClearJoin(text, s.trail, after, tag);
    BlankIsClear(s.lead, (text + s.trail) + after, tag);
    ClearJoin(s.lead, text + s.trail, after, tag);
    assert s.lead + (text + s.trail) == Inside(s);
  }

  function Blocks(said: seq<Said>): seq<Match> {
    seq(|said|, i requires 0 <= i < |said| => Match(said[i].prose, "", Inside(said[i])))
  }

  lemma {:induction false} BlocksFound(said: seq<Said>, tail: string)
    requires Speakable(said, tail)
    ensures FindAll(Wrapper, Content(said, tail)) == (Blocks(said), tail)
    ensures Unmatched(Blocks(said), tail) == Prose(said, tail)
  {
    Tags();
    if said == [] {
      FreeIsClear(tail, "", "<tool_call>");
      NoOpen(Wrapper, tail);
      assert Blocks(said) == [];
    } else {
      BlocksFound(said[1..], tail);
      FirstBlock(said[0], Content(said[1..], tail));
      BlocksSplit(said);
    }
  }

  lemma BlocksSplit(said: seq<Said>)
    requires said != []
    ensures Blocks(said) == [Blocks(said)[0]] + Blocks(said[1..])
    ensures Blocks(said)[1..] == Blocks(said[1..])
  {
  }

  lemma FirstBlock(s: Said, more: string)
    requires Wrapped(s)
    ensures NextMatch(Wrapper, s.prose + ("<tool_call>" + (Inside(s) + ("</tool_call>" + more)))) == Some((Match(s.prose, "", Inside(s)), more))
  {
    Tags();
    Wraps(Inside(s) + ("</tool_call>" + more));
    Wraps(more);
    FreeIsClear(s.prose, "<tool_call>" + (Inside(s) + ("</tool_call>" + more)), "<tool_call>");
    BlockClear(s, more);
    Bracketed(Wrapper, s.prose, "<tool_call>", "", Inside(s), "</tool_call>", more);
  }

  lemma {:induction false} CallsRead(json: JsonLib, said: seq<Said>, tail: string)
    requires Speakable(said, tail)
    ensures Calls(json, Wrapper, Blocks(said)) == AllMeant(json, said)
  {
    if said == [] {
      assert Blocks(said) == [];
    } else {
      var n := |said| - 1;
      CallsRead(json, said[..n], tail);
      BlocksSnoc(said);
      CallsSnoc(json, Wrapper, Blocks(said[..n]), Blocks(said)[n]);
      assert Wrapped(said[n]);
      BlockRead(json, said[n], n);
      MeantSnoc(json, said);
    }
  }

  lemma MeantSnoc(json: JsonLib, said: seq<Said>)
    requires said != []
    ensures var n := |said| - 1; AllMeant(json, said) == AllMeant(json, said[..n]) + [Meant(json, said[n].call, n)]
  {
  }

  lemma BlocksSnoc(said: seq<Said>)
    requires said != []
    ensures Blocks(said) == Blocks(said[..|said| - 1]) + [Blocks(said)[|said| - 1]]
  {
  }

  lemma CallsSnoc(json: JsonLib, shape: Shape, ms: seq<Match>, m: Match)
    ensures var calls := Calls(json, shape, ms);
      var c := CallOf(json, shape, m, |calls|);
      Calls(json, shape, ms + [m]) == calls + if c.Some? then [c.value] else []
  {
    assert (ms + [m])[..|ms|] == ms;
  }

  lemma BlockRead(json: JsonLib, s: Said, idx: nat)
    requires Wrapped(s)
    ensures OneInline(json, TrimSpace(Inside(s)), idx) == Some(Meant(json, s.call, idx))
  {
    var text := CallText(s.call);
    assert text[0] == '<' && text[|text| - 1] == '>';
    TrimsGap(s.lead, text, s.trail);
    CallRead(json, s.call, idx);
  }

  /** For prose interleaved with printed calls, the parser returns exactly those calls in
      order, numbered from 1, and the prose with the markup gone. */
  lemma ParserUndoesPrinter(json: JsonLib, said: seq<Said>, tail: string)
    requires Speakable(said, tail) && said != []
    ensures ParseSpec(json, Content(said, tail))
         == (TrimSpace(Prose(said, tail)), AllMeant(json, said))
  {
    BlocksFound(said, tail);
    CallsRead(json, said, tail);
    assert Content(said, tail)[|said[0].prose|] == '<';
  }

  // ---- Calls in the JSON shape ---------------------------------------------------------------------

  /** The arguments of a JSON call: none or null stand for an empty object, a JSON string
      for the JSON it spells, anything else for itself. */
  ghost predicate JsonArguments(json: JsonLib, raw: string, args: string) {
    && (TrimSpace(raw) == "" || TrimSpace(raw) == "null" ==> args == "{}")
    && (TrimSpace(raw) != "" && TrimSpace(raw) != "null" ==> args == match json.unquote(raw) case Some(s) => s case None => TrimSpace(raw))
  }

  /** text is a JSON call, and holds no tag that would be taken first. */
  ghost predicate JsonCall(json: JsonLib, text: string, name: string, raw: string) {
    && Trimmed(text) && Free(text, "</tool_call>") && Free(text, "<function")
    && json.call(text) == Some((name, raw)) && name != ""
  }

  lemma JsonCallRead(json: JsonLib, text: string, name: string, raw: string, idx: nat)
    requires JsonCall(json, text, name, raw)
    ensures var c := OneInline(json, text, idx);
      && c.Some? && c.value.id == InlineId(idx + 1) && c.value.typ == "function"
      && c.value.name == TrimSpace(name) && JsonArguments(json, raw, c.value.arguments)
  {
    NoFunction(text);
  }

  /** A wrapped JSON call is read back with the prose around it. */
  lemma JsonBlockRead(json: JsonLib, prose: string, lead: string, text: string, trail: string, tail: string, name: string, raw: string) returns (call: ToolCall)
    requires Free(prose, "<tool_call>") && Free(tail, "<tool_call>") && Blank(lead) && Blank(trail)
    requires JsonCall(json, text, name, raw)
    ensures ParseSpec(json, prose + ("<tool_call>" + ((lead + text + trail) + ("</tool_call>" + tail)))) == (TrimSpace(prose + tail), [call])
    ensures call.id == InlineId(1) && call.typ == "function"
    ensures call.name == TrimSpace(name) && JsonArguments(json, raw, call.arguments)
  {
    var content := prose + ("<tool_call>" + ((lead + text + trail) + ("</tool_call>" + tail)));
    var m := Match(prose, "", lead + text + trail);
    JsonBlockFound(prose, lead, text, trail, tail);
    NoBlock(tail);
    TrimsGap(lead, text, trail);
    JsonCallRead(json, text, name, raw, 0);
    HasBracket(prose, (lead + text + trail) + ("</tool_call>" + tail));
    OneBlock(json, content, m, tail);
    call := OneInline(json, text, 0).value;
  }

  lemma HasBracket(prose: string, rest: string)
    ensures '<' in prose + ("<tool_call>" + rest)
  {
    assert (prose + ("<tool_call>" + rest))[|prose|] == '<';
  }

  lemma NoBlock(tail: string)
    requires Free(tail, "<tool_call>")
    ensures NextMatch(Wrapper, tail) == None
  {
    Tags();
    FreeIsClear(tail, "", "<tool_call>");
    NoOpen(Wrapper, tail);
  }

  /** A text with one block that is a call. */
  lemma OneBlock(json: JsonLib, content: string, m: Match, tail: string)
    requires '<' in content && NextMatch(Wrapper, content) == Some((m, tail)) && NextMatch(Wrapper, tail) == None
    requires OneInline(json, TrimSpace(m.body), 0).Some?
    ensures ParseSpec(json, content) == (TrimSpace(m.before + tail), [OneInline(json, TrimSpace(m.body), 0).value])
  {
    assert FindAll(Wrapper, content) == ([m] + [], tail) && [m] + [] == [m];
    OneCall(json, m);
    assert [m][1..] == [] && Unmatched([m], tail) == m.before + tail;
  }

  lemma OneCall(json: JsonLib, m: Match)
    ensures var c := OneInline(json, TrimSpace(m.body), 0);
      Calls(json, Wrapper, [m]) == if c.Some? then [c.value] else []
  {
    CallsSnoc(json, Wrapper, [], m);
    assert [] + [m] == [m];
  }

  lemma JsonBlockFound(prose: string, lead: string, text: string, trail: string, tail: string)
    requires Free(prose, "<tool_call>") && Blank(lead) && Blank(trail) && Free(text, "</tool_call>")
    ensures NextMatch(Wrapper, prose + ("<tool_call>" + ((lead + text + trail) + ("</tool_call>" + tail))))
         == Some((Match(prose, "", lead + text + trail), tail))
  {
    Tags();
    var body := lead + text + trail;
    Wraps(body + ("</tool_call>" + tail));
    Wraps(tail);
    FreeIsClear(prose, "<tool_call>" + (body + ("</tool_call>" + tail)), "<tool_call>");
    BodyClear(Param("", "", lead, text, trail), "</tool_call>" + tail, "</tool_call>");
    Bracketed(Wrapper, prose, "<tool_call>", "", body, "</tool_call>", tail);
  }

  // ---- Calls printed without the wrapper ---------------------------------------------------------

  function Bare(said: seq<Said>, tail: string): string {
    if said == [] then tail
    else said[0].prose + (CallOpen(said[0].call) + (ParamsText(said[0].call.params, said[0].call.end) + ("</function>" + Bare(said[1..], tail))))
  }

  ghost predicate Unwrapped(c: Printed) {
    Printable(c) && forall i :: 0 <= i < |c.params| ==> Free(c.params[i].value, "<tool_call>")
  }

  /** No prose or value holds an opening tag that would be taken first. */
  ghost predicate BareSpeakable(said: seq<Said>, tail: string) {
    && Free(tail, "<function") && Free(tail, "<tool_call>")
    && forall i :: 0 <= i < |said| ==>
         Free(said[i].prose, "<function") && Free(said[i].prose, "<tool_call>") && Unwrapped(said[i].call)
  }

  lemma {:induction false} BareHasNoBlock(said: seq<Said>, tail: string)
    requires BareSpeakable(said, tail)
    ensures Clear(Bare(said, tail), "", "<tool_call>")
  {
    Tags();
    if said == [] {
      FreeIsClear(tail, "", "<tool_call>");
    } else {
      BareHasNoBlock(said[1..], tail);
      OneBareClear(said[0], Bare(said[1..], tail));
    }
  }

  lemma OneBareClear(s: Said, more: string)
    requires Unwrapped(s.call) && Free(s.prose, "<tool_call>") && Clear(more, "", "<tool_call>")
    ensures Clear(s.prose + (CallOpen(s.call) + (ParamsText(s.call.params, s.call.end) + ("</function>" + more))), "", "<tool_call>")
  {
    Tags();
    var text := CallText(s.call);
    assert more + "" == more && (text + more) + "" == text + more;
    CallClear(s.call, more, "<tool_call>");
    ClearJoin(text, more, "", "<tool_call>");
    FreeIsClear(s.prose, text + more, "<tool_call>");
    ClearJoin(s.prose, text + more, "", "<tool_call>");
    assert text + more == CallOpen(s.call) + (ParamsText(s.call.params, s.call.end) + ("</function>" + more));
  }

  function Functions(said: seq<Said>): seq<Match> {
    seq(|said|, i requires 0 <= i < |said| => Match(said[i].prose, said[i].call.name, ParamsText(said[i].call.params, said[i].call.end)))
  }

  lemma {:induction false} FunctionsFound(said: seq<Said>, tail: string)
    requires BareSpeakable(said, tail)
    ensures FindAll(Element("function"), Bare(said, tail)) == (Functions(said), tail)
    ensures Unmatched(Functions(said), tail) == Prose(said, tail)
  {
    if said == [] {
      NoFunction(tail);
      assert Functions(said) == [];
    } else {
      FunctionsFound(said[1..], tail);
      CallFound(said[0].prose, said[0].call, Bare(said[1..], tail));
      FunctionsSplit(said);
    }
  }

  lemma NoFunction(tail: string)
    requires Free(tail, "<function")
    ensures NextMatch(Element("function"), tail) == None
  {
    Tags();
    assert OpenTagOf(Element("function")) == "<function";
    FreeIsClear(tail, "", "<function");
    NoOpen(Element("function"), tail);
  }

  lemma FunctionsSplit(said: seq<Said>)
    requires said != []
    ensures Functions(said) == [Functions(said)[0]] + Functions(said[1..])
    ensures Functions(said)[1..] == Functions(said[1..])
  {
  }

  lemma FunctionsSnoc(said: seq<Said>)
    requires said != []
    ensures Functions(said) == Functions(said[..|said| - 1]) + [Functions(said)[|said| - 1]]
  {
  }

  lemma {:induction false} FunctionsRead(json: JsonLib, said: seq<Said>)
    requires forall i :: 0 <= i < |said| ==> Printable(said[i].call)
    ensures Calls(json, Element("function"), Functions(said)) == AllMeant(json, said)
  {
    if said == [] {
      assert Functions(said) == [];
    } else {
      var n := |said| - 1;
      FunctionsRead(json, said[..n]);
      FunctionsSnoc(said);
      CallsSnoc(json, Element("function"), Functions(said[..n]), Functions(said)[n]);
      FunctionRead(json, said[n].call, n);
      MeantSnoc(json, said);
    }
  }

  /** The same for calls printed with no wrapper at all. */
  lemma ParserUndoesBarePrinter(json: JsonLib, said: seq<Said>, tail: string)
    requires BareSpeakable(said, tail) && said != []
    ensures ParseSpec(json, Bare(said, tail)) == (TrimSpace(Prose(said, tail)), AllMeant(json, said))
  {
    var content := Bare(said, tail);
    BareHasNoBlock(said, tail);
    NoOpen(Wrapper, content);
    assert FindAll(Wrapper, content) == ([], content);
    FunctionsFound(said, tail);
    FunctionsRead(json, said);
    assert content[|said[0].prose|] == '<';
  }

  // ---- Blocks that are no calls ----------------------------------------------------------------------

  /** A block that is no call is passed over: the calls before and after it are found, and
      numbered, as if it were not there. */
  lemma {:induction false} BadBlockIgnored(json: JsonLib, shape: Shape, a: seq<Match>, m: Match, b: seq<Match>)
    requires CallOf(json, shape, m, |Calls(json, shape, a)|) == None
    ensures Calls(json, shape, a + [m] + b) == Calls(json, shape, a + b)
  {
    if b == [] {
      CallsSnoc(json, shape, a, m);
      assert a + [m] + b == a + [m] && a + b == a;
    } else {
      var n := |b| - 1;
      BadBlockIgnored(json, shape, a, m, b[..n]);
      OneMoreBlock(json, shape, a + [m] + b[..n], a + b[..n], b[n]);
      EndsWith(a + [m], b);
      EndsWith(a, b);
    }
  }

  lemma EndsWith<T>(a: seq<T>, b: seq<T>)
    requires b != []
    ensures a + b == (a + b[..|b| - 1]) + [b[|b| - 1]]
  {
  }

  lemma OneMoreBlock(json: JsonLib, shape: Shape, x: seq<Match>, y: seq<Match>, m: Match)
    requires Calls(json, shape, x) == Calls(json, shape, y)
    ensures Calls(json, shape, x + [m]) == Calls(json, shape, y + [m])
  {
    CallsSnoc(json, shape, x, m);
    CallsSnoc(json, shape, y, m);
  }

  /** It is no call exactly when it holds neither a named function nor a named JSON call. */
  lemma NoCallIff(json: JsonLib, body: string, idx: nat)
    ensures OneInline(json, body, idx).None? <==>
      match NextMatch(Element("function"), body)
      case Some((m, _)) => TrimSpace(m.name) == ""
      case None => json.call(body).None? || json.call(body).value.0 == ""
  {
  }

  // ---- Any text ----------------------------------------------------------------------------------------

  lemma CallId(json: JsonLib, shape: Shape, m: Match, idx: nat)
    ensures var c := CallOf(json, shape, m, idx);
      c.Some? ==> c.value.id == InlineId(idx + 1)
  {
  }

  ghost predicate Numbered(cs: seq<ToolCall>) {
    forall i :: 0 <= i < |cs| ==> cs[i].id == InlineId(i + 1)
  }

  lemma {:induction false} CallsNumbered(json: JsonLib, shape: Shape, ms: seq<Match>)
    ensures Numbered(Calls(json, shape, ms))
  {
    if ms != [] {
      var n := |ms| - 1;
      var calls := Calls(json, shape, ms[..n]);
      CallsNumbered(json, shape, ms[..n]);
      assert ms == ms[..n] + [ms[n]];
      CallsSnoc(json, shape, ms[..n], ms[n]);
      CallId(json, shape, ms[n], |calls|);
      var c := CallOf(json, shape, ms[n], |calls|);
      if c.Some? { NumberedSnoc(calls, c.value); }
    }
  }

  lemma NumberedSnoc(cs: seq<ToolCall>, c: ToolCall)
    requires Numbered(cs) && c.id == InlineId(|cs| + 1)
    ensures Numbered(cs + [c])
  {
  }

  lemma NumberedDiffer(cs: seq<ToolCall>, i: nat, j: nat)
    requires Numbered(cs) && i < j < |cs|
    ensures cs[i].id != cs[j].id
  {
    Decimal.ValueOfDigits(i + 1);
    Decimal.ValueOfDigits(j + 1);
    assert cs[i].id[12..] == Decimal.Digits(i + 1) && cs[j].id[12..] == Decimal.Digits(j + 1);
  }

  /** Whatever the text: with no call found it comes back unchanged, and the calls found are
      numbered from 1, hence have distinct ids. */
  lemma AnyContent(json: JsonLib, content: string)
    ensures var (text, calls) := ParseSpec(json, content);
      && (calls == [] ==> text == content)
      && Numbered(calls)
      && (forall i, j :: 0 <= i < j < |calls| ==> calls[i].id != calls[j].id)
  {
    CallsNumbered(json, Wrapper, FindAll(Wrapper, content).0);
    CallsNumbered(json, Element("function"), FindAll(Element("function"), content).0);
    var calls := ParseSpec(json, content).1;
    forall i, j | 0 <= i < j < |calls| ensures calls[i].id != calls[j].id {
      NumberedDiffer(calls, i, j);
    }
  }
}
