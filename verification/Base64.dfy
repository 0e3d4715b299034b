/** Standard base64 with padding (section 4 of RFC 4648), with the decoder's leniency:
    line breaks are skipped, and unused bits of the last digit are not checked. */
module Base64 {
  import opened Wrappers
  import opened Octets

  function Char(d: nat): (c: char)
    requires d < 64
    ensures c != '=' && c != '\n' && c != '\r' && DigitOf(c) == Some(d)
  {
    if d < 26 then ('A' as int + d) as char
    else if d < 52 then ('a' as int + (d - 26)) as char
    else if d < 62 then ('0' as int + (d - 52)) as char
    else if d == 62 then '+'
    else '/'
  }

  function DigitOf(c: char): (d: Option<nat>)
    ensures d.Some? ==> d.value < 64
  {
    if 'A' <= c <= 'Z' then Some(c as int - 'A' as int)
    else if 'a' <= c <= 'z' then Some(c as int - 'a' as int + 26)
    else if '0' <= c <= '9' then Some(c as int - '0' as int + 52)
    else if c == '+' then Some(62)
    else if c == '/' then Some(63)
    else None
  }

  function Encode(b: seq<Byte>): (r: string)
    ensures forall i :: 0 <= i < |r| ==> r[i] != '\n' && r[i] != '\r'
  {
    if |b| == 0 then []
    else if |b| == 1 then [Char(b[0] / 4), Char(b[0] % 4 * 16), '=', '=']
    else if |b| == 2 then [Char(b[0] / 4), Char(b[0] % 4 * 16 + b[1] / 16), Char(b[1] % 16 * 4), '=']
    else Quad(b[0], b[1], b[2]) + Encode(b[3..])
  }

  function Quad(b0: Byte, b1: Byte, b2: Byte): (r: string)
    ensures |r| == 4 && forall i :: 0 <= i < |r| ==> r[i] != '\n' && r[i] != '\r'
  {
    [Char(b0 / 4), Char(b0 % 4 * 16 + b1 / 16), Char(b1 % 16 * 4 + b2 / 64), Char(b2 % 64)]
  }

  function WithoutBreaks(s: string): string {
    if s == [] then []
    else (if s[0] == '\n' || s[0] == '\r' then [] else [s[0]]) + WithoutBreaks(s[1..])
  }

  function Decode(s: string): Option<seq<Byte>> {
    Quads(WithoutBreaks(s))
  }

  function Quads(s: string): Option<seq<Byte>> {
    if s == [] then Some([])
    else if |s| < 4 || DigitOf(s[0]).None? || DigitOf(s[1]).None? then None
    else
      var d0, d1 := DigitOf(s[0]).value, DigitOf(s[1]).value;
      var b0: Byte := d0 * 4 + d1 / 16;
      if s[2] == '=' then (if s[3] == '=' && |s| == 4 then Some([b0]) else None)
      else if DigitOf(s[2]).None? then None
      else
        var d2 := DigitOf(s[2]).value;
        var b1: Byte := d1 % 16 * 16 + d2 / 4;
        if s[3] == '=' then (if |s| == 4 then Some([b0, b1]) else None)
        else if DigitOf(s[3]).None? then None
        else
          var b2: Byte := d2 % 4 * 64 + DigitOf(s[3]).value;
          var rest := Quads(s[4..]);
          if rest.None? then None else Some([b0, b1, b2] + rest.value)
  }

  lemma {:induction false} NoBreaks(s: string)
    requires forall i :: 0 <= i < |s| ==> s[i] != '\n' && s[i] != '\r'
    ensures WithoutBreaks(s) == s
  {
    if s != [] {
      NoBreaks(s[1..]);
    }
  }

  function Bytes(d0: nat, d1: nat, d2: nat, d3: nat): seq<Byte>
    requires d0 < 64 && d1 < 64 && d2 < 64 && d3 < 64
  {
    [d0 * 4 + d1 / 16, d1 % 16 * 16 + d2 / 4, d2 % 4 * 64 + d3]
  }

  /** Three bytes survive being cut into four digits. */
  lemma Regroup(b0: Byte, b1: Byte, b2: Byte)
    ensures Bytes(b0 / 4, b0 % 4 * 16 + b1 / 16, b1 % 16 * 4 + b2 / 64, b2 % 64) == [b0, b1, b2]
  {
  }

  lemma FourDigits(d0: nat, d1: nat, d2: nat, d3: nat, s: string)
    requires d0 < 64 && d1 < 64 && d2 < 64 && d3 < 64
    ensures Quads([Char(d0), Char(d1), Char(d2), Char(d3)] + s) ==
      if Quads(s).None? then None else Some(Bytes(d0, d1, d2, d3) + Quads(s).value)
  {
    assert ([Char(d0), Char(d1), Char(d2), Char(d3)] + s)[4..] == s;
  }

  lemma TwoDigits(d0: nat, d1: nat)
    requires d0 < 64 && d1 < 64
    ensures Quads([Char(d0), Char(d1), '=', '=']) == Some([Bytes(d0, d1, 0, 0)[0]])
  {
  }

  lemma ThreeDigits(d0: nat, d1: nat, d2: nat)
    requires d0 < 64 && d1 < 64 && d2 < 64
    ensures Quads([Char(d0), Char(d1), Char(d2), '=']) == Some([Bytes(d0, d1, d2, 0)[0], Bytes(d0, d1, d2, 0)[1]])
  {
  }

  lemma {:induction false} QuadsOfEncode(b: seq<Byte>)
    ensures Quads(Encode(b)) == Some(b)
  {
    if |b| == 1 {
      Regroup(b[0], 0, 0);
      assert b == [b[0]];
      TwoDigits(b[0] / 4, b[0] % 4 * 16);
    } else if |b| == 2 {
      Regroup(b[0], b[1], 0);
      assert b == [b[0], b[1]];
      ThreeDigits(b[0] / 4, b[0] % 4 * 16 + b[1] / 16, b[1] % 16 * 4);
    } else if |b| >= 3 {
      QuadsOfEncode(b[3..]);
      QuadBytes(b[0], b[1], b[2], Encode(b[3..]));
      FirstThree(b);
    }
  }

  lemma FirstThree<T>(b: seq<T>)
    requires |b| >= 3
    ensures b == [b[0], b[1], b[2]] + b[3..]
  {
  }

  lemma QuadBytes(b0: Byte, b1: Byte, b2: Byte, s: string)
    ensures Quads(Quad(b0, b1, b2) + s) == if Quads(s).None? then None else Some([b0, b1, b2] + Quads(s).value)
  {
    Regroup(b0, b1, b2);
    FourDigits(b0 / 4, b0 % 4 * 16 + b1 / 16, b1 % 16 * 4 + b2 / 64, b2 % 64, s);
  }

  /** Decoding undoes encoding, for every byte string. */
  lemma RoundTrip(b: seq<Byte>)
    ensures Decode(Encode(b)) == Some(b)
  {
    NoBreaks(Encode(b));
    QuadsOfEncode(b);
  }

  /** The alphabet: four runs of consecutive characters, and two more. */
  lemma Alphabet()
    ensures Char(0) == 'A' && Char(25) == 'Z' && Char(26) == 'a' && Char(51) == 'z'
    ensures Char(52) == '0' && Char(61) == '9' && Char(62) == '+' && Char(63) == '/'
    ensures forall d: nat :: d < 61 && d != 25 && d != 51 ==> Char(d + 1) as int == Char(d) as int + 1
  {
  }

  /** Examples of section 10 of RFC 4648. */
  lemma Vectors()
    ensures Encode([102]) == "Zg==" && Encode([102, 111]) == "Zm8=" && Encode([102, 111, 111]) == "Zm9v"
  {
    assert Char(102 / 4) == 'Z' && Char(102 % 4 * 16) == 'g';
    assert Char(102 % 4 * 16 + 111 / 16) == 'm' && Char(111 % 16 * 4) == '8';
    ThreeBytes();
  }

  lemma ThreeBytes()
    ensures Encode([102, 111, 111]) == "Zm9v"
  {
    assert Quad(102, 111, 111) == "Zm9v";
    assert [102, 111, 111][3..] == [];
    assert Quad(102, 111, 111) + [] == Quad(102, 111, 111);
  }

  /** Digits, with at most two signs of padding in the last group of four. */
  ghost predicate Padded(s: string, pad: nat) {
    && |s| % 4 == 0 && pad <= 2 && pad <= |s|
    && (forall i :: 0 <= i < |s| - pad ==> DigitOf(s[i]).Some?)
    && (forall i :: |s| - pad <= i < |s| ==> s[i] == '=')
  }

  ghost predicate WellPadded(s: string) { exists pad: nat :: Padded(s, pad) }

  /** Decoding takes exactly such texts, line breaks aside. */
  lemma DecodesIff(s: string)
    ensures Decode(s).Some? <==> WellPadded(WithoutBreaks(s))
  {
    QuadsIff(WithoutBreaks(s));
  }

  lemma {:induction false} QuadsIff(s: string)
    ensures Quads(s).Some? <==> WellPadded(s)
  {
    if s == [] {
      assert Padded(s, 0);
    } else if |s| > 4 {
      QuadsIff(s[4..]);
      MoreQuads(s);
    } else {
      LastQuad(s);
    }
  }

  lemma LastQuad(s: string)
    requires 1 <= |s| <= 4
    ensures Quads(s).Some? <==> WellPadded(s)
  {
    if Quads(s).Some? {
      assert Quads(s[4..]).Some? ==> s[4..] == [];
      assert Padded(s, if s[3] != '=' then 0 else if s[2] != '=' then 1 else 2);
    }
    forall pad: nat | Padded(s, pad) ensures Quads(s).Some? {
      assert |s| == 4 && s[4..] == [];
    }
  }

  lemma MoreQuads(s: string)
    requires |s| > 4 && (Quads(s[4..]).Some? <==> WellPadded(s[4..]))
    ensures Quads(s).Some? <==> WellPadded(s)
  {
    FirstQuad(s);
    if WellPadded(s[4..]) && FourDigitsFirst(s) {
      var pad: nat :| Padded(s[4..], pad);
      PaddedRest(s, pad);
    }
    if WellPadded(s) {
      var pad: nat :| Padded(s, pad);
      PaddedRest(s, pad);
    }
  }

  predicate FourDigitsFirst(s: string)
    requires |s| >= 4
  {
    DigitOf(s[0]).Some? && DigitOf(s[1]).Some? && DigitOf(s[2]).Some? && DigitOf(s[3]).Some?
  }

  lemma FirstQuad(s: string)
    requires |s| > 4
    ensures Quads(s).Some? <==> FourDigitsFirst(s) && Quads(s[4..]).Some?
  {
  }

  lemma PaddedRest(s: string, pad: nat)
    requires |s| > 4
    ensures Padded(s, pad) <==> FourDigitsFirst(s) && Padded(s[4..], pad)
  {
    var rest := s[4..];
    if Padded(s, pad) {
      assert |rest| >= 4 && forall i :: 0 <= i < |rest| ==> rest[i] == s[i + 4];
    }
    if FourDigitsFirst(s) && Padded(rest, pad) {
      assert forall i :: 4 <= i < |s| ==> s[i] == rest[i - 4];
    }
  }
}
