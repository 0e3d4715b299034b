/** Length-prefixed framing of the control socket (ipc/ipc.go). The JSON of an envelope
    is any encoding with a decoder; readers may deliver the bytes in any chunks. */
module Framing {
  import opened Wrappers
  import opened Octets

  const MAX_MESSAGE := 8 * 1024 * 1024

  // ---- The prefix --------------------------------------------------------------------------

  function Prefix(n: nat): (p: seq<Byte>)
    requires n < 0x1_0000_0000
    ensures |p| == 4
  {
    [n / 0x100_0000, n / 0x1_0000 % 256, n / 0x100 % 256, n % 256]
  }

  function Length(p: seq<Byte>): nat
    requires |p| == 4
  {
    p[0] as int * 0x100_0000 + p[1] as int * 0x1_0000 + p[2] as int * 0x100 + p[3] as int
  }

  lemma LengthOfPrefix(n: nat)
    requires n < 0x1_0000_0000
    ensures Length(Prefix(n)) == n
  {
    assert n == n / 0x100 * 0x100 + n % 0x100;
    assert n / 0x100 == n / 0x1_0000 * 0x100 + n / 0x100 % 0x100;
    assert n / 0x1_0000 == n / 0x100_0000 * 0x100 + n / 0x1_0000 % 0x100;
  }

  lemma Digits(m: nat, n: nat)
    requires m <= n
    ensures m / 256 <= n / 256 && (m / 256 == n / 256 ==> m % 256 <= n % 256 && (m < n ==> m % 256 < n % 256))
  {
  }

  lemma Nested(n: nat)
    ensures n / 0x1_0000 == n / 0x100 / 256 && n / 0x100_0000 == n / 0x1_0000 / 256
  {
  }

  /** The prefix is big-endian: comparing prefixes byte by byte compares lengths. */
  lemma PrefixOrders(m: nat, n: nat) returns (k: nat)
    requires m < n < 0x1_0000_0000
    ensures k < 4 && Prefix(m)[..k] == Prefix(n)[..k] && Prefix(m)[k] < Prefix(n)[k]
  {
    Nested(m);
    Nested(n);
    Digits(m, n);
    Digits(m / 0x100, n / 0x100);
    Digits(m / 0x1_0000, n / 0x1_0000);
    k := if m / 0x100_0000 < n / 0x100_0000 then 0
      else if m / 0x1_0000 < n / 0x1_0000 then 1
      else if m / 0x100 < n / 0x100 then 2
      else 3;
  }

  predicate Sendable(payload: seq<Byte>) { 1 <= |payload| <= MAX_MESSAGE }

  function Frame(payload: seq<Byte>): seq<Byte>
    requires |payload| <= MAX_MESSAGE
  {
    Prefix(|payload|) + payload
  }

  // ---- Streams -----------------------------------------------------------------------------

  /** A writer that accepts `room` more bytes and then fails. */
  class Writer {
    var out: seq<Byte>
    var room: nat

    constructor (room: nat)
      ensures out == [] && this.room == room
    { out := []; this.room := room; }

    method Write(p: seq<Byte>) returns (ok: bool)
      modifies this
      ensures ok <==> |p| <= old(room)
      ensures ok ==> out == old(out) + p && room == old(room) - |p|
      ensures !ok ==> out == old(out) + p[..old(room)] && room == 0
    {
      if |p| <= room {
        out, room := out + p, room - |p|;
        return true;
      }
      out, room := out + p[..room], 0;
      return false;
    }
  }

  function Joined(chunks: seq<seq<Byte>>): seq<Byte> {
    if chunks == [] then [] else chunks[0] + Joined(chunks[1..])
  }

  /** How a stream of bytes ends: closed, or with another error. */
  datatype Ending = Eof | Broken

  /** A reader that hands out its bytes chunk by chunk, then its ending, again and again. It
      may return empty chunks, and may return the ending together with the last bytes. */
  class Reader {
    var chunks: seq<seq<Byte>>
    const ending: Ending
    const eager: bool

    ghost function Left(): seq<Byte>
      reads this
    {
      Joined(chunks)
    }

    constructor (chunks: seq<seq<Byte>>, ending: Ending, eager: bool)
      ensures Left() == Joined(chunks) && this.ending == ending
    {
      this.chunks, this.ending, this.eager := chunks, ending, eager;
    }

    /** Up to n bytes of the next chunk. */
    method Read(n: nat) returns (got: seq<Byte>, err: Option<Ending>)
      requires n > 0
      modifies this`chunks
      ensures old(Left()) == got + Left() && |got| <= n
      ensures err.Some? ==> err.value == ending && Left() == []
      ensures |chunks| <= |old(chunks)|
      ensures |chunks| < |old(chunks)| || err.Some? || |got| == n
    {
      if chunks == [] {
        return [], Some(ending);
      }
      var c := chunks[0];
      if |c| <= n {
        chunks := chunks[1..];
        return c, if chunks == [] && eager then Some(ending) else None;
      }
      got, err := c[..n], None;
      chunks := [c[n..]] + chunks[1..];
      assert chunks[1..] == old(chunks)[1..] && c == c[..n] + c[n..];
      assert c[..n] + (c[n..] + Joined(chunks[1..])) == c + Joined(chunks[1..]);
    }
  }

  datatype Short = NoBytes | UnexpectedEof | Failed

  /** Why n bytes could not be had from s. */
  function ShortOf(s: seq<Byte>, ending: Ending): Short {
    if ending == Broken then Failed else if s == [] then NoBytes else UnexpectedEof
  }

  /** io.ReadFull for n > 0 bytes of a stream. */
  function FullSpec(s: seq<Byte>, ending: Ending, n: nat): (Result<seq<Byte>, Short>, seq<Byte>) {
    if |s| >= n then (Ok(s[..n]), s[n..]) else (Err(ShortOf(s, ending)), [])
  }

  /** An error that comes with enough bytes is dropped; the reader gives it again. */
  method ReadFull(r: Reader, n: nat) returns (res: Result<seq<Byte>, Short>)
    requires n > 0
    modifies r
    ensures (res, r.Left()) == FullSpec(old(r.Left()), r.ending, n)
  {
    var buf: seq<Byte> := [];
    var err: Option<Ending> := None;
    while |buf| < n && err == None
      invariant |buf| <= n && old(r.Left()) == buf + r.Left()
      invariant err.Some? ==> err.value == r.ending && r.Left() == []
      decreases err == None, |r.chunks|, n - |buf|
    {
      var got;
      got, err := r.Read(n - |buf|);
      Regroup(buf, got, r.Left());
      buf := buf + got;
    }
    if |buf| >= n {
      return Ok(buf);
    }
    assert buf + r.Left() == buf;
    if err == Some(Broken) {
      return Err(Failed);
    }
    return Err(if buf == [] then NoBytes else UnexpectedEof);
  }

  lemma Regroup<T>(a: seq<T>, b: seq<T>, c: seq<T>)
    ensures a + (b + c) == (a + b) + c
  {
  }

  // ---- Read and Write ------------------------------------------------------------------------

  datatype ReadError = Closed | CutPrefix | PrefixFailed | BadLength(n: nat) | ShortFrame(cause: Short) | BadEnvelope

  /** An error while reading the prefix passes through verbatim. */
  function PrefixError(cause: Short): ReadError {
    match cause case NoBytes => Closed case UnexpectedEof => CutPrefix case Failed => PrefixFailed
  }

  function ReadSpec<E>(decode: seq<Byte> -> Option<E>, s: seq<Byte>, ending: Ending): (Result<E, ReadError>, seq<Byte>) {
    var (head, rest) := FullSpec(s, ending, 4);
    match head
    case Err(cause) => (Err(PrefixError(cause)), rest)
    case Ok(p) =>
      var n := Length(p);
      if n == 0 || n > MAX_MESSAGE then (Err(BadLength(n)), rest) else
        var (body, rest') := FullSpec(rest, ending, n);
        match body
        case Err(cause) => (Err(ShortFrame(cause)), rest')
        case Ok(payload) =>
          match decode(payload)
          case None => (Err(BadEnvelope), rest')
          case Some(e) => (Ok(e), rest')
  }

  method Read<E>(decode: seq<Byte> -> Option<E>, r: Reader) returns (res: Result<E, ReadError>)
    modifies r
    ensures (res, r.Left()) == ReadSpec(decode, old(r.Left()), r.ending)
  {
    var head := ReadFull(r, 4);
    if head.Err? {
      return Err(PrefixError(head.error));
    }
    var n := Length(head.value);
    if n == 0 || n > MAX_MESSAGE {
      return Err(BadLength(n));
    }
    var body := ReadFull(r, n);
    if body.Err? {
      return Err(ShortFrame(body.error));
    }
    var e := decode(body.value);
    if e.None? {
      return Err(BadEnvelope);
    }
    return Ok(e.value);
  }

  datatype WriteError = Unencodable | TooLarge | WriteFailed

  /** Writes the frame, or as much of it as the writer takes; an envelope that cannot be
      encoded or is too large writes nothing. */
  method Write<E>(encode: E -> Option<seq<Byte>>, w: Writer, e: E) returns (err: Option<WriteError>)
    modifies w
    ensures match encode(e)
      case None => err == Some(Unencodable) && w.out == old(w.out)
      case Some(payload) =>
        if |payload| > MAX_MESSAGE then err == Some(TooLarge) && w.out == old(w.out)
        else if |Frame(payload)| <= old(w.room) then err == None && w.out == old(w.out) + Frame(payload)
        else err == Some(WriteFailed) && w.out == old(w.out) + Frame(payload)[..old(w.room)]
  {
    var payload := encode(e);
    if payload.None? {
      return Some(Unencodable);
    }
    if |payload.value| > MAX_MESSAGE {
      return Some(TooLarge);
    }
    var prefix := Prefix(|payload.value|);
    ghost var frame := Frame(payload.value);
    var ok := w.Write(prefix);
    if !ok {
      assert prefix[..old(w.room)] == frame[..old(w.room)];
      return Some(WriteFailed);
    }
    ok := w.Write(payload.value);
    if !ok {
      var n := old(w.room) - 4;
      assert old(w.out) + prefix + payload.value[..n] == old(w.out) + (prefix + payload.value[..n]);
      assert frame[..old(w.room)] == prefix + payload.value[..n];
      return Some(WriteFailed);
    }
    assert old(w.out) + prefix + payload.value == old(w.out) + frame;
    return None;
  }

  /** Read accepts exactly the streams that open with the frame of 1 to 8 MiB bytes that
      decode, and leaves what follows it. */
  lemma ReadExactly<E(!new)>(decode: seq<Byte> -> Option<E>, s: seq<Byte>, ending: Ending, e: E, rest: seq<Byte>)
    ensures ReadSpec(decode, s, ending) == (Ok(e), rest) <==> exists payload :: Framed(decode, s, payload, e, rest)
  {
    if ReadSpec(decode, s, ending) == (Ok(e), rest) {
      var n := Length(s[..4]);
      var payload := s[4..][..n];
      PrefixOfLength(s[..4]);
      assert s == s[..4] + s[4..] && s[4..] == payload + rest;
      assert s[..4] + (payload + rest) == (s[..4] + payload) + rest;
      assert Framed(decode, s, payload, e, rest);
    }
    forall payload | Framed(decode, s, payload, e, rest) ensures ReadSpec(decode, s, ending) == (Ok(e), rest) {
      ReadWhole(decode, payload, rest, ending);
    }
  }

  ghost predicate Framed<E>(decode: seq<Byte> -> Option<E>, s: seq<Byte>, payload: seq<Byte>, e: E, rest: seq<Byte>) {
    1 <= |payload| <= 8388608 && decode(payload) == Some(e) && s == Prefix(|payload|) + payload + rest
  }

  lemma PrefixOfLength(p: seq<Byte>)
    requires |p| == 4
    ensures Length(p) < 0x1_0000_0000 && Prefix(Length(p)) == p
  {
    var n := Length(p);
    var b0: int, b1: int, b2: int, b3: int := p[0], p[1], p[2], p[3];
    assert n / 0x100 == b0 * 0x1_0000 + b1 * 0x100 + b2 && n % 256 == b3;
    assert n / 0x1_0000 == b0 * 0x100 + b1 && n / 0x100 % 256 == b2;
    assert n / 0x100_0000 == b0 && n / 0x1_0000 % 256 == b1;
  }

  /** A length of zero or above the limit is refused without reading on. */
  lemma BadLengthRefused<E>(decode: seq<Byte> -> Option<E>, n: nat, rest: seq<Byte>, ending: Ending)
    requires n < 0x1_0000_0000 && (n == 0 || n > 8388608)
    ensures ReadSpec(decode, Prefix(n) + rest, ending) == (Err(BadLength(n)), rest)
  {
    LengthOfPrefix(n);
    assert (Prefix(n) + rest)[..4] == Prefix(n) && (Prefix(n) + rest)[4..] == rest;
  }

  // ---- Round trip under truncation -------------------------------------------------------------

  /** Everything a reader gets until the first error, and that error. */
  function ReadAll<E>(decode: seq<Byte> -> Option<E>, s: seq<Byte>, ending: Ending): (seq<E>, ReadError)
    decreases |s|
  {
    match ReadSpec(decode, s, ending)
    case (Err(e), _) => ([], e)
    case (Ok(e), rest) =>
      var (es, err) := ReadAll(decode, rest, ending);
      ([e] + es, err)
  }

  predicate AllSendable(payloads: seq<seq<Byte>>) {
    forall i :: 0 <= i < |payloads| ==> Sendable(payloads[i])
  }

  function Frames(payloads: seq<seq<Byte>>): seq<Byte>
    requires AllSendable(payloads)
  {
    if payloads == [] then [] else Frame(payloads[0]) + Frames(payloads[1..])
  }

  /** How many frames lie wholly within the first c bytes. */
  function Whole(payloads: seq<seq<Byte>>, c: nat): (k: nat)
    requires AllSendable(payloads)
    ensures k <= |payloads|
  {
    if payloads == [] || c < |Frame(payloads[0])| then 0 else 1 + Whole(payloads[1..], c - |Frame(payloads[0])|)
  }

  /** Bytes left over after the whole frames. */
  function Spare(payloads: seq<seq<Byte>>, c: nat): nat
    requires AllSendable(payloads)
  {
    if payloads == [] || c < |Frame(payloads[0])| then c else Spare(payloads[1..], c - |Frame(payloads[0])|)
  }

  lemma {:induction false} WholeMeans(payloads: seq<seq<Byte>>, c: nat)
    requires AllSendable(payloads)
    requires c <= |Frames(payloads)|
    ensures var k := Whole(payloads, c);
      && |Frames(payloads[..k])| + Spare(payloads, c) == c
      && (k < |payloads| ==> Spare(payloads, c) < 4 + |payloads[k]|)
      && (k == |payloads| ==> Spare(payloads, c) == 0)
  {
    if payloads != [] && c >= |Frame(payloads[0])| {
      var k := Whole(payloads, c);
      WholeMeans(payloads[1..], c - |Frame(payloads[0])|);
      assert payloads[..k][1..] == payloads[1..][..k - 1];
    }
  }

  /** The bytes of the first j frames. */
  function Boundary(payloads: seq<seq<Byte>>, j: nat): nat
    requires AllSendable(payloads) && j <= |payloads|
  {
    |Frames(payloads[..j])|
  }

  /** Nothing is left over exactly on a frame boundary. */
  lemma {:induction false} SpareAtBoundary(payloads: seq<seq<Byte>>, c: nat)
    requires AllSendable(payloads) && c <= |Frames(payloads)|
    ensures Spare(payloads, c) == 0 <==> exists j: nat :: j <= |payloads| && c == Boundary(payloads, j)
  {
    WholeMeans(payloads, c);
    if Spare(payloads, c) == 0 {
      assert c == Boundary(payloads, Whole(payloads, c));
    }
    forall j: nat | j <= |payloads| && c == Boundary(payloads, j) ensures Spare(payloads, c) == 0 {
      NoSpare(payloads, j);
    }
  }

  lemma {:induction false} NoSpare(payloads: seq<seq<Byte>>, j: nat)
    requires AllSendable(payloads) && j <= |payloads|
    ensures Spare(payloads, Boundary(payloads, j)) == 0 && Whole(payloads, Boundary(payloads, j)) == j
  {
    if j > 0 {
      assert payloads[..j][1..] == payloads[1..][..j - 1];
      NoSpare(payloads[1..], j - 1);
    }
  }

  /** The error a reader ends with, from the spare bytes of a cut frame. */
  function CutError(spare: nat, ending: Ending): ReadError {
    if spare < 4 then PrefixError(ShortOfCount(spare, ending)) else ShortFrame(ShortOfCount(spare - 4, ending))
  }

  function ShortOfCount(n: nat, ending: Ending): Short {
    if ending == Broken then Failed else if n == 0 then NoBytes else UnexpectedEof
  }

  /** The payloads are the encodings of the envelopes, and decoding undoes each. */
  ghost predicate Encoded<E>(encode: E -> Option<seq<Byte>>, decode: seq<Byte> -> Option<E>, es: seq<E>, payloads: seq<seq<Byte>>) {
    |es| == |payloads| &&
    forall i :: 0 <= i < |es| ==> encode(es[i]) == Some(payloads[i]) && decode(payloads[i]) == Some(es[i])
  }

  lemma ReadWhole<E>(decode: seq<Byte> -> Option<E>, payload: seq<Byte>, rest: seq<Byte>, ending: Ending)
    requires Sendable(payload)
    ensures ReadSpec(decode, Frame(payload) + rest, ending) ==
      (match decode(payload) case None => (Err(BadEnvelope), rest) case Some(e) => (Ok(e), rest))
  {
    var s := Frame(payload) + rest;
    LengthOfPrefix(|payload|);
    assert s[..4] == Prefix(|payload|) && s[4..] == payload + rest;
    assert (payload + rest)[..|payload|] == payload && (payload + rest)[|payload|..] == rest;
  }

  lemma ReadCut<E>(decode: seq<Byte> -> Option<E>, payload: seq<Byte>, c: nat, ending: Ending)
    requires Sendable(payload) && c < |Frame(payload)|
    ensures ReadSpec(decode, Frame(payload)[..c], ending) == (Err(CutError(c, ending)), [])
  {
    var s := Frame(payload)[..c];
    LengthOfPrefix(|payload|);
    if c >= 4 {
      assert s[..4] == Prefix(|payload|) && s[4..] == payload[..c - 4];
    }
  }

  lemma TakeOne<E>(es: seq<E>, k: nat)
    requires 0 < k <= |es|
    ensures es[..k] == [es[0]] + es[1..][..k - 1]
  {
  }

  lemma CutOf<T>(f: seq<T>, rest: seq<T>, c: nat)
    requires c <= |f| + |rest|
    ensures (f + rest)[..c] == if c < |f| then f[..c] else f + rest[..c - |f|]
  {
  }

  /** A stream of frames that ends at any byte c, closed or broken, yields exactly the
      envelopes of the frames wholly before c, in order, and then the error that the bytes
      left over and the ending call for. */
  lemma {:induction false} CutStream<E>(encode: E -> Option<seq<Byte>>, decode: seq<Byte> -> Option<E>, es: seq<E>, payloads: seq<seq<Byte>>, c: nat, ending: Ending)
    requires AllSendable(payloads) && Encoded(encode, decode, es, payloads)
    requires c <= |Frames(payloads)|
    ensures ReadAll(decode, Frames(payloads)[..c], ending) == (es[..Whole(payloads, c)], CutError(Spare(payloads, c), ending))
    decreases |es|
  {
    if payloads == [] {
      assert Frames(payloads)[..c] == [];
    } else {
      var f := Frame(payloads[0]);
      CutOf(f, Frames(payloads[1..]), c);
      if c < |f| {
        ReadCut(decode, payloads[0], c, ending);
      } else {
        var rest := Frames(payloads[1..])[..c - |f|];
        CutStream(encode, decode, es[1..], payloads[1..], c - |f|, ending);
        ReadOn(decode, payloads[0], es[0], rest, ending);
        TakeOne(es, Whole(payloads, c));
      }
    }
  }

  lemma ReadOn<E>(decode: seq<Byte> -> Option<E>, payload: seq<Byte>, e: E, rest: seq<Byte>, ending: Ending)
    requires Sendable(payload) && decode(payload) == Some(e)
    ensures ReadAll(decode, Frame(payload) + rest, ending) == ([e] + ReadAll(decode, rest, ending).0, ReadAll(decode, rest, ending).1)
  {
    ReadWhole(decode, payload, rest, ending);
  }

  /** The reader sees a clean close exactly when the stream was closed, not broken, and on a
      frame boundary. */
  lemma CleanCloseIff<E>(encode: E -> Option<seq<Byte>>, decode: seq<Byte> -> Option<E>, es: seq<E>, payloads: seq<seq<Byte>>, c: nat, ending: Ending)
    requires AllSendable(payloads) && Encoded(encode, decode, es, payloads)
    requires c <= |Frames(payloads)|
    ensures ReadAll(decode, Frames(payloads)[..c], ending).1 == Closed <==>
      ending == Eof && exists j: nat :: j <= |payloads| && c == Boundary(payloads, j)
  {
    CutStream(encode, decode, es, payloads, c, ending);
    SpareAtBoundary(payloads, c);
  }

  /** In particular a stream that was not cut gives back every envelope, then a clean close. */
  lemma RoundTrip<E>(encode: E -> Option<seq<Byte>>, decode: seq<Byte> -> Option<E>, es: seq<E>, payloads: seq<seq<Byte>>)
    requires AllSendable(payloads) && Encoded(encode, decode, es, payloads)
    ensures ReadAll(decode, Frames(payloads), Eof) == (es, Closed)
  {
    var n := |Frames(payloads)|;
    assert Frames(payloads)[..n] == Frames(payloads);
    CutStream(encode, decode, es, payloads, n, Eof);
    assert payloads[..|payloads|] == payloads;
    NoSpare(payloads, |payloads|);
    assert es[..|es|] == es;
  }
}
