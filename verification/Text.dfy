/** Substring search and cutting, as in Go's strings package. */
module Text {
  import opened Wrappers

  /** The first place sep occurs in s, or -1. */
  function IndexOf(s: string, sep: string): (i: int)
    ensures -1 <= i && (i >= 0 ==> i + |sep| <= |s| && sep <= s[i..])
    ensures forall j :: 0 <= j <= |s| && (i < 0 || j < i) ==> !(sep <= s[j..])
  {
    if sep <= s then (assert s[0..] == s; 0)
    else if s == [] then -1
    else
      var r := IndexOf(s[1..], sep);
      assert forall j :: 1 <= j <= |s| ==> s[j..] == s[1..][j - 1..];
      if r < 0 then -1 else r + 1
  }

  predicate Contains(s: string, sep: string) { IndexOf(s, sep) >= 0 }

  /** strings.Cut: what precedes and follows the first sep. */
  function Cut(s: string, sep: string): Option<(string, string)> {
    var i := IndexOf(s, sep);
    if i < 0 then None else Some((s[..i], s[i + |sep|..]))
  }

  function CutPrefix(s: string, prefix: string): Option<string> {
    if prefix <= s then Some(s[|prefix|..]) else None
  }

  /** A place where sep occurs and before which it does not is its index. */
  lemma IndexIs(s: string, sep: string, i: nat)
    requires i <= |s| && sep <= s[i..]
    requires forall j :: 0 <= j < i ==> !(sep <= s[j..])
    ensures IndexOf(s, sep) == i
  {
  }

  /** A separator whose first character occurs nowhere else in it cannot straddle the
      end of a text that does not contain it. */
  lemma FirstAfter(before: string, sep: string, after: string)
    requires sep != [] && !Contains(before, sep)
    requires forall k :: 1 <= k < |sep| ==> sep[k] != sep[0]
    ensures Cut(before + sep + after, sep) == Some((before, after))
  {
    var s := before + sep + after;
    assert s[|before|..] == sep + after && s[..|before|] == before && s[|before| + |sep|..] == after;
    forall j | 0 <= j < |before| ensures !(sep <= s[j..]) {
      if j + |sep| <= |before| {
        assert s[j..][..|sep|] == before[j..][..|sep|];
      } else {
        assert s[j..][|before| - j] == sep[0];
      }
    }
    IndexIs(s, sep, |before|);
  }
}
