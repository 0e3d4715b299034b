/** Reassembly of streamed tool-call deltas (llm/toolcall.go). */
module ToolCalls {
  import opened Sorting
  import Decimal
  import Wrappers

  /** The `arguments` of one delta: missing, a string, another JSON value (as its
      rendering), or a value that cannot be rendered. */
  datatype Args = Absent | Text(text: string) | Json(rendered: string) | Unrenderable

  /** Go's 64-bit int. */
  type Index = i: int | -0x8000_0000_0000_0000 <= i < 0x8000_0000_0000_0000

  predicate Less(i: Index, j: Index) { i < j }

  ghost function Order(s: set<Index>): (r: seq<Index>)
    ensures StrictlySorted(Less, r) && forall i :: i in r <==> i in s
    ensures forall j, k :: 0 <= j < k < |r| ==> r[j] as int < r[k] as int
  {
    Ascending(Less, s)
  }

  /** The keys of Go's map, collected in any order and sorted. */
  method SortIndices(keys: set<Index>) returns (r: seq<Index>)
    ensures r == Order(keys)
  {
    var idxs := Enumerate(keys);
    r := Sort(Less, idxs);
    SortedKeys(Less, keys, idxs, r);
  }

  datatype Delta = Delta(index: Index, id: string, name: string, args: Args)

  /** A tool call; its type is always "function". */
  datatype Call = Call(id: string, name: string, args: string)

  type Calls = map<Index, Call>

  function ArgsText(a: Args): string {
    match a case Absent => "" case Text(s) => s case Json(s) => s case Unrenderable => ""
  }

  function At(m: Calls, i: Index): Call {
    if i in m then m[i] else Call("", "", "")
  }

  /** One delta applied; false when its arguments cannot be rendered. */
  function MergeOne(m: Calls, d: Delta): (Calls, bool) {
    var c := At(m, d.index);
    (m[d.index := Call(if d.id != "" then d.id else c.id, c.name + d.name, c.args + ArgsText(d.args))],
     !d.args.Unrenderable?)
  }

  /** A chunk of deltas applied, up to the first failure. */
  function MergeAll(m: Calls, ds: seq<Delta>): (Calls, bool)
    decreases |ds|
  {
    if ds == [] then (m, true) else
      var (m', ok) := MergeOne(m, ds[0]);
      if ok then MergeAll(m', ds[1..]) else (m', false)
  }

  function SynthId(index: Index): string { "call_" + Decimal.Render(index) }

  function Completed(c: Call, index: Index): Call {
    if c.id == "" then c.(id := SynthId(index)) else c
  }

  /** The named calls at the given indices, each with an id. */
  function Listed(m: Calls, idxs: seq<Index>): seq<Call>
    requires forall i :: i in idxs ==> i in m
  {
    if idxs == [] then []
    else
      (if m[idxs[0]].name == "" then [] else [Completed(m[idxs[0]], idxs[0])]) + Listed(m, idxs[1..])
  }

  ghost function FinalList(m: Calls): seq<Call> {
    Listed(m, Order(m.Keys))
  }

  /** m with an id written back to every named call listed so far. */
  ghost function FilledIn(m: Calls, idxs: seq<Index>): Calls {
    map i | i in m :: if i in idxs && m[i].name != "" then Completed(m[i], i) else m[i]
  }

  /** The map Finalize leaves: every named call has an id. */
  ghost function WithIds(m: Calls): Calls {
    map i | i in m :: if m[i].name != "" then Completed(m[i], i) else m[i]
  }

  class ToolCallAccumulator {
    var calls: Calls

    constructor ()
      ensures calls == map[]
    { calls := map[]; }

    method Merge(deltas: seq<Delta>) returns (ok: bool)
      modifies this
      ensures (calls, ok) == MergeAll(old(calls), deltas)
    {
      var n := 0;
      while n < |deltas|
        invariant 0 <= n <= |deltas|
        invariant MergeAll(old(calls), deltas) == MergeAll(calls, deltas[n..])
      {
        assert deltas[n..][0] == deltas[n] && deltas[n..][1..] == deltas[n + 1..];
        ok := MergeDelta(deltas[n]);
        if !ok {
          return false;
        }
        n := n + 1;
      }
      return true;
    }

    /** The entry is there, with the id and name taken in, even when the arguments fail. */
    method MergeDelta(d: Delta) returns (ok: bool)
      modifies this
      ensures (calls, ok) == MergeOne(old(calls), d)
    {
      var call := if d.index in calls then calls[d.index] else Call("", "", "");
      if d.id != "" {
        call := call.(id := d.id);
      }
      if d.name != "" {
        call := call.(name := call.name + d.name);
      }
      Wrappers.Trailing(At(calls, d.index).name);
      Wrappers.Trailing(call.args);
      if d.args.Unrenderable? {
        calls := calls[d.index := call];
        return false;
      }
      if !d.args.Absent? {
        call := call.(args := call.args + (match d.args case Text(s) => s case Json(s) => s));
      }
      calls := calls[d.index := call];
      return true;
    }

    method Finalize() returns (result: seq<Call>)
      modifies this
      ensures result == FinalList(old(calls)) && calls == WithIds(old(calls))
    {
      var sorted := SortIndices(calls.Keys);
      ghost var was := calls;
      result := [];
      FilledNone(was);
      for n := 0 to |sorted|
        invariant calls == FilledIn(was, sorted[..n])
        invariant result == Listed(was, sorted[..n])
      {
        var idx := sorted[n];
        FinalizeStep(was, sorted, n);
        var call := calls[idx];
        if call.name == "" {
          continue;
        }
        if call.id == "" {
          call := call.(id := SynthId(idx));
          calls := calls[idx := call];
        }
        assert call == Completed(FilledIn(was, sorted[..n])[idx], idx);
        result := result + [call];
      }
      assert sorted[..|sorted|] == sorted;
      FilledAll(was, sorted);
    }
  }

  lemma FilledNone(m: Calls)
    ensures FilledIn(m, []) == m
  {
  }

  lemma FilledAll(m: Calls, idxs: seq<Index>)
    requires forall i :: i in m ==> i in idxs
    ensures FilledIn(m, idxs) == WithIds(m)
  {
  }

  /** What handling the n-th index does to the map and to the list. */
  lemma FinalizeStep(m: Calls, idxs: seq<Index>, n: nat)
    requires n < |idxs| && forall i :: i in idxs ==> i in m
    ensures var i := idxs[n];
      var c := FilledIn(m, idxs[..n])[i];
      if c.name == "" then
        FilledIn(m, idxs[..n + 1]) == FilledIn(m, idxs[..n]) && Listed(m, idxs[..n + 1]) == Listed(m, idxs[..n])
      else
        && FilledIn(m, idxs[..n + 1]) == FilledIn(m, idxs[..n])[i := Completed(c, i)]
        && Listed(m, idxs[..n + 1]) == Listed(m, idxs[..n]) + [Completed(c, i)]
        && (c.id != "" ==> FilledIn(m, idxs[..n + 1]) == FilledIn(m, idxs[..n]))
  {
    assert idxs[..n + 1] == idxs[..n] + [idxs[n]] && idxs[n] in idxs;
    ListedOne(m, idxs[..n], idxs[n]);
  }

  lemma {:induction false} ListedOne(m: Calls, idxs: seq<Index>, i: Index)
    requires i in m && forall j :: j in idxs ==> j in m
    ensures forall j :: j in idxs + [i] ==> j in m
    ensures Listed(m, idxs + [i]) == Listed(m, idxs) + (if m[i].name == "" then [] else [Completed(m[i], i)])
  {
    if idxs == [] {
      assert idxs + [i] == [i] && [i][1..] == [] && Listed(m, []) == [];
    } else {
      assert (idxs + [i])[1..] == idxs[1..] + [i] && (idxs + [i])[0] == idxs[0] && idxs[0] in idxs;
      ListedOne(m, idxs[1..], i);
      var head := if m[idxs[0]].name == "" then [] else [Completed(m[idxs[0]], idxs[0])];
      assert head + (Listed(m, idxs[1..]) + (if m[i].name == "" then [] else [Completed(m[i], i)]))
          == (head + Listed(m, idxs[1..])) + (if m[i].name == "" then [] else [Completed(m[i], i)]);
    }
  }

  // ---- What a stream of deltas means, index by index ----------------------------------

  function NameAt(ds: seq<Delta>, i: Index): string {
    if ds == [] then "" else (if ds[0].index == i then ds[0].name else "") + NameAt(ds[1..], i)
  }

  function ArgsAt(ds: seq<Delta>, i: Index): string {
    if ds == [] then "" else
      (if ds[0].index != i then ""
       else match ds[0].args case Text(text) => text case Json(rendered) => rendered case _ => "") + ArgsAt(ds[1..], i)
  }

  /** The last non-empty id streamed for index i, or the empty string. */
  function IdAt(ds: seq<Delta>, i: Index): string {
    if ds == [] then ""
    else
      var later := IdAt(ds[1..], i);
      if later == "" && ds[0].index == i then ds[0].id else later
  }

  predicate Renderable(ds: seq<Delta>) { forall d :: d in ds ==> !d.args.Unrenderable? }

  lemma {:induction false} MergeKeys(m: Calls, ds: seq<Delta>, i: Index)
    requires Renderable(ds)
    ensures MergeAll(m, ds).1
    ensures i in MergeAll(m, ds).0 <==> i in m || exists d :: d in ds && d.index == i
    decreases |ds|
  {
    if ds != [] {
      assert ds[0] in ds && forall d :: d in ds <==> d == ds[0] || d in ds[1..];
      MergeKeys(MergeOne(m, ds[0]).0, ds[1..], i);
    }
  }

  /** Merging is index by index: concatenated names and arguments, last non-empty id. */
  lemma {:induction false} MergeMeans(m: Calls, ds: seq<Delta>, i: Index)
    requires Renderable(ds)
    ensures var (c, r) := (At(m, i), At(MergeAll(m, ds).0, i));
      && r.id == (if IdAt(ds, i) != "" then IdAt(ds, i) else c.id)
      && r.name == c.name + NameAt(ds, i)
      && r.args == c.args + ArgsAt(ds, i)
    decreases |ds|
  {
    if ds == [] {
      assert forall t: string :: t + "" == t;
    } else {
      var (m', ok) := MergeOne(m, ds[0]);
      assert ds[0] in ds && ok && forall d :: d in ds[1..] ==> d in ds;
      MergeMeans(m', ds[1..], i);
      MergeHead(m, ds, i);
    }
  }

  /** How the first delta changes what is already there for index i. */
  lemma MergeHead(m: Calls, ds: seq<Delta>, i: Index)
    requires ds != []
    ensures var (c, c') := (At(m, i), At(MergeOne(m, ds[0]).0, i));
      && c'.name + NameAt(ds[1..], i) == c.name + NameAt(ds, i)
      && c'.args + ArgsAt(ds[1..], i) == c.args + ArgsAt(ds, i)
      && (if IdAt(ds[1..], i) != "" then IdAt(ds[1..], i) else c'.id) == (if IdAt(ds, i) != "" then IdAt(ds, i) else c.id)
  {
    var c, n, a := At(m, i), NameAt(ds[1..], i), ArgsAt(ds[1..], i);
    if ds[0].index == i {
      Assoc(c.name, ds[0].name, n);
      Assoc(c.args, ArgsText(ds[0].args), a);
    } else {
      assert At(MergeOne(m, ds[0]).0, i) == c && "" + n == n && "" + a == a;
    }
  }

  lemma Assoc(s: string, t: string, u: string)
    ensures (s + t) + u == s + (t + u)
  {
  }

  // ---- The simple form ------------------------------------------------------------------

  ghost function Named(ds: seq<Delta>): set<Index> {
    set d | d in ds && NameAt(ds, d.index) != "" :: d.index
  }

  /** The calls of a stream described without an accumulator: ascending by index, each
      with its concatenated name and arguments and its last id or a synthesised one. */
  ghost function Reassembled(ds: seq<Delta>): seq<Call> {
    CallsAt(ds, Order(Named(ds)))
  }

  function CallAt(ds: seq<Delta>, i: Index): Call {
    Call(if IdAt(ds, i) != "" then IdAt(ds, i) else "call_" + Decimal.Render(i), NameAt(ds, i), ArgsAt(ds, i))
  }

  function CallsAt(ds: seq<Delta>, idxs: seq<Index>): seq<Call> {
    seq(|idxs|, k requires 0 <= k < |idxs| => CallAt(ds, idxs[k]))
  }

  /** Finalize after merging any renderable stream is exactly the simple form. */
  lemma FinalizeMeans(ds: seq<Delta>)
    requires Renderable(ds)
    ensures MergeAll(map[], ds).1 && FinalList(MergeAll(map[], ds).0) == Reassembled(ds)
  {
    var m: Calls := MergeAll(map[], ds).0;
    MergeKeys(map[], ds, 0);
    forall i: Index
      ensures i in m ==> m[i] == Call(IdAt(ds, i), NameAt(ds, i), ArgsAt(ds, i))
      ensures i in Named(ds) <==> i in m && m[i].name != ""
    {
      MergeKeys(map[], ds, i);
      MergeMeans(map[], ds, i);
      assert "" + NameAt(ds, i) == NameAt(ds, i) && "" + ArgsAt(ds, i) == ArgsAt(ds, i);
    }
    ListsNamed(m, ds);
  }

  /** A call streamed in one delta comes back as it was sent, its arguments a string or the
      rendering of a value. */
  lemma OneDelta(i: Index, id: string, name: string, args: Args)
    requires id != "" && name != "" && (args.Text? || args.Json?)
    ensures FinalList(MergeAll(map[], [Delta(i, id, name, args)]).0)
         == [Call(id, name, if args.Text? then args.text else args.rendered)]
  {
    var d := Delta(i, id, name, args);
    SingleAt(d);
    assert d in [d];
    FinalizeMeans([d]);
    assert Named([d]) == {i};
    OnlyIndex(i);
  }

  lemma SingleAt(d: Delta)
    ensures IdAt([d], d.index) == d.id && NameAt([d], d.index) == d.name
    ensures ArgsAt([d], d.index) == match d.args case Text(text) => text case Json(rendered) => rendered case _ => ""
  {
    var i := d.index;
    assert [d][1..] == [] && NameAt([], i) == "" && ArgsAt([], i) == "" && IdAt([], i) == "";
    Wrappers.Trailing(d.name);
    Wrappers.Trailing(match d.args case Text(text) => text case Json(rendered) => rendered case _ => "");
  }

  lemma OnlyIndex(i: Index)
    ensures Order({i}) == [i]
  {
    UniqueByElements(Less, Order({i}), [i]);
  }

  lemma ListsNamed(m: Calls, ds: seq<Delta>)
    requires Streamed(m, ds)
    requires forall i: Index :: i in Named(ds) <==> i in m && m[i].name != ""
    ensures FinalList(m) == Reassembled(ds)
  {
    ListedIsKept(m, Order(m.Keys));
    KeptAreNamed(m, ds);
    MatchesAt(m, ds, Keep(m, Order(m.Keys)), FinalList(m));
  }

  /** m holds at each index what was streamed for it. */
  ghost predicate Streamed(m: Calls, ds: seq<Delta>) {
    forall i: Index :: i in m ==> m[i] == Call(IdAt(ds, i), NameAt(ds, i), ArgsAt(ds, i))
  }

  lemma CompletedIs(m: Calls, ds: seq<Delta>, i: Index)
    requires Streamed(m, ds) && i in m
    ensures Completed(m[i], i) == CallAt(ds, i)
  {
  }

  lemma MatchesAt(m: Calls, ds: seq<Delta>, idxs: seq<Index>, cs: seq<Call>)
    requires Streamed(m, ds) && Matches(m, idxs, cs)
    ensures cs == CallsAt(ds, idxs)
  {
    forall k | 0 <= k < |idxs| ensures cs[k] == CallAt(ds, idxs[k]) {
      assert IsAt(m, idxs[k], cs[k]);
      CompletedIs(m, ds, idxs[k]);
    }
  }

  lemma KeptAreNamed(m: Calls, ds: seq<Delta>)
    requires forall i: Index :: i in Named(ds) <==> i in m && m[i].name != ""
    ensures Keep(m, Order(m.Keys)) == Order(Named(ds))
  {
    KeepSorted(m, Order(m.Keys));
    UniqueByElements(Less, Keep(m, Order(m.Keys)), Order(Named(ds)));
  }

  /** The indices of named calls. */
  function Keep(m: Calls, idxs: seq<Index>): (r: seq<Index>)
    requires forall i :: i in idxs ==> i in m
    ensures forall i :: i in r <==> i in idxs && m[i].name != ""
  {
    if idxs == [] then []
    else (if m[idxs[0]].name == "" then [] else [idxs[0]]) + Keep(m, idxs[1..])
  }

  lemma {:induction false} KeepSorted(m: Calls, idxs: seq<Index>)
    requires (forall i :: i in idxs ==> i in m) && StrictlySorted(Less, idxs)
    ensures StrictlySorted(Less, Keep(m, idxs))
  {
    if idxs != [] {
      KeepSorted(m, idxs[1..]);
      assert forall i :: i in Keep(m, idxs[1..]) ==> Less(idxs[0], i);
    }
  }

  lemma {:induction false} ListedIsKept(m: Calls, idxs: seq<Index>)
    requires forall i :: i in idxs ==> i in m
    ensures Matches(m, Keep(m, idxs), Listed(m, idxs))
  {
    if idxs != [] {
      var i, kept, listed := idxs[0], Keep(m, idxs[1..]), Listed(m, idxs[1..]);
      assert i in idxs;
      ListedIsKept(m, idxs[1..]);
      if m[i].name == "" {
        assert [] + kept == kept && [] + listed == listed;
      } else {
        MatchesCons(m, i, kept, listed);
      }
    }
  }

  /** cs are the calls of m at idxs. */
  ghost predicate Matches(m: Calls, idxs: seq<Index>, cs: seq<Call>) {
    |cs| == |idxs| && forall k :: 0 <= k < |idxs| ==> IsAt(m, idxs[k], cs[k])
  }

  lemma MatchesCons(m: Calls, i: Index, idxs: seq<Index>, cs: seq<Call>)
    requires i in m && Matches(m, idxs, cs)
    ensures Matches(m, [i] + idxs, [Completed(m[i], i)] + cs)
  {
  }

  predicate IsAt(m: Calls, i: Index, c: Call) { i in m && c == Completed(m[i], i) }

  /** Two streams that agree index by index complete to the same calls: so splitting a
      delta's text into pieces, or moving deltas of different indices past each other,
      changes nothing. */
  lemma SameByIndex(ds: seq<Delta>, es: seq<Delta>)
    requires Renderable(ds) && Renderable(es)
    requires forall i: Index :: IdAt(ds, i) == IdAt(es, i) && NameAt(ds, i) == NameAt(es, i) && ArgsAt(ds, i) == ArgsAt(es, i)
    ensures FinalList(MergeAll(map[], ds).0) == FinalList(MergeAll(map[], es).0)
  {
    FinalizeMeans(ds);
    FinalizeMeans(es);
    forall i: Index ensures i in Named(ds) <==> i in Named(es) {
      NamedIff(ds, i);
      NamedIff(es, i);
    }
    assert Named(ds) == Named(es);
    SameCalls(ds, es, Order(Named(ds)));
  }

  lemma SameCalls(ds: seq<Delta>, es: seq<Delta>, idxs: seq<Index>)
    requires forall i: Index :: IdAt(ds, i) == IdAt(es, i) && NameAt(ds, i) == NameAt(es, i) && ArgsAt(ds, i) == ArgsAt(es, i)
    ensures CallsAt(ds, idxs) == CallsAt(es, idxs)
  {
    forall k | 0 <= k < |idxs| ensures CallAt(ds, idxs[k]) == CallAt(es, idxs[k]) {}
  }

  lemma {:induction false} NamedIff(ds: seq<Delta>, i: Index)
    ensures i in Named(ds) <==> NameAt(ds, i) != ""
  {
    if NameAt(ds, i) != "" { NameHasDelta(ds, i); }
  }

  lemma {:induction false} NameHasDelta(ds: seq<Delta>, i: Index)
    requires NameAt(ds, i) != ""
    ensures exists d :: d in ds && d.index == i
  {
    if ds[0].index == i {
      assert ds[0] in ds;
    } else {
      NameHasDelta(ds[1..], i);
      var d :| d in ds[1..] && d.index == i;
      assert d in ds;
    }
  }

  lemma {:induction false} ByIndexOfConcat(ds: seq<Delta>, es: seq<Delta>, i: Index)
    ensures NameAt(ds + es, i) == NameAt(ds, i) + NameAt(es, i)
    ensures ArgsAt(ds + es, i) == ArgsAt(ds, i) + ArgsAt(es, i)
    ensures IdAt(ds + es, i) == if IdAt(es, i) != "" then IdAt(es, i) else IdAt(ds, i)
  {
    if ds == [] {
      assert ds + es == es;
      assert "" + NameAt(es, i) == NameAt(es, i) && "" + ArgsAt(es, i) == ArgsAt(es, i);
    } else {
      ByIndexOfConcat(ds[1..], es, i);
      assert (ds + es)[1..] == ds[1..] + es && (ds + es)[0] == ds[0];
      Assoc(if ds[0].index == i then ds[0].name else "", NameAt(ds[1..], i), NameAt(es, i));
      Assoc(if ds[0].index == i then ArgsText(ds[0].args) else "", ArgsAt(ds[1..], i), ArgsAt(es, i));
    }
  }

  /** A delta cut in two anywhere in its name and its arguments reassembles the same. */
  lemma Rechunk(before: seq<Delta>, after: seq<Delta>, i: Index, id: string, n1: string, n2: string, a1: string, a2: string)
    requires Renderable(before) && Renderable(after)
    ensures FinalList(MergeAll(map[], before + [Delta(i, id, n1 + n2, Text(a1 + a2))] + after).0)
         == FinalList(MergeAll(map[], before + [Delta(i, id, n1, Text(a1)), Delta(i, "", n2, Text(a2))] + after).0)
  {
    var one, two := [Delta(i, id, n1 + n2, Text(a1 + a2))], [Delta(i, id, n1, Text(a1)), Delta(i, "", n2, Text(a2))];
    forall j: Index
      ensures NameAt(one, j) == NameAt(two, j) && ArgsAt(one, j) == ArgsAt(two, j) && IdAt(one, j) == IdAt(two, j)
    {
      assert one[1..] == [] && two[1..] == [two[1]] && two[1..][1..] == [];
      assert forall t: string :: t + "" == t;
    }
    Replace(before, one, two, after);
  }

  lemma PairAt(d: Delta, e: Delta, i: Index)
    requires d.index != e.index
    ensures NameAt([d, e], i) == if d.index == i then d.name else if e.index == i then e.name else ""
    ensures ArgsAt([d, e], i) == if d.index == i then ArgsText(d.args) else if e.index == i then ArgsText(e.args) else ""
    ensures IdAt([d, e], i) == if e.index == i then e.id else if d.index == i then d.id else ""
  {
    assert [d, e][1..] == [e] && [e][1..] == [];
    assert NameAt([e], i) == if e.index == i then e.name else "";
    assert ArgsAt([e], i) == if e.index == i then ArgsText(e.args) else "";
    assert IdAt([e], i) == if e.index == i then e.id else "";
  }

  /** Deltas of different indices commute. */
  lemma Commute(before: seq<Delta>, after: seq<Delta>, d: Delta, e: Delta)
    requires Renderable(before) && Renderable(after) && Renderable([d, e]) && d.index != e.index
    ensures FinalList(MergeAll(map[], before + [d, e] + after).0) == FinalList(MergeAll(map[], before + [e, d] + after).0)
  {
    assert d in [d, e] && e in [d, e];
    forall i: Index
      ensures NameAt([d, e], i) == NameAt([e, d], i) && ArgsAt([d, e], i) == ArgsAt([e, d], i) && IdAt([d, e], i) == IdAt([e, d], i)
    {
      PairAt(d, e, i);
      PairAt(e, d, i);
    }
    Replace(before, [d, e], [e, d], after);
  }

  lemma Replace(before: seq<Delta>, ds: seq<Delta>, es: seq<Delta>, after: seq<Delta>)
    requires Renderable(before) && Renderable(after) && Renderable(ds) && Renderable(es)
    requires forall i: Index :: IdAt(ds, i) == IdAt(es, i) && NameAt(ds, i) == NameAt(es, i) && ArgsAt(ds, i) == ArgsAt(es, i)
    ensures FinalList(MergeAll(map[], before + ds + after).0) == FinalList(MergeAll(map[], before + es + after).0)
  {
    forall i: Index
      ensures IdAt(before + ds + after, i) == IdAt(before + es + after, i)
      ensures NameAt(before + ds + after, i) == NameAt(before + es + after, i)
      ensures ArgsAt(before + ds + after, i) == ArgsAt(before + es + after, i)
    {
      ByIndexOfConcat(before, ds, i);
      ByIndexOfConcat(before, es, i);
      ByIndexOfConcat(before + ds, after, i);
      ByIndexOfConcat(before + es, after, i);
    }
    SameByIndex(before + ds + after, before + es + after);
  }

  /** Finalize is idempotent: the ids it wrote back are the ids it lists again. */
  lemma FinalizeTwice(m: Calls)
    ensures FinalList(WithIds(m)) == FinalList(m) && WithIds(WithIds(m)) == WithIds(m)
  {
    assert WithIds(m).Keys == m.Keys;
    ListedSame(m, Order(m.Keys));
    FilledTwice(m);
  }

  lemma FilledTwice(m: Calls)
    ensures WithIds(WithIds(m)) == WithIds(m)
  {
    forall i | i in m ensures WithIds(WithIds(m))[i] == WithIds(m)[i] {
      CompletedTwice(m[i], i);
    }
  }

  lemma CompletedTwice(c: Call, i: Index)
    ensures Completed(c, i).id != "" && Completed(Completed(c, i), i) == Completed(c, i)
  {
    assert SynthId(i)[0] == 'c';
  }

  lemma {:induction false} ListedSame(m: Calls, idxs: seq<Index>)
    requires forall i :: i in idxs ==> i in m
    ensures Listed(WithIds(m), idxs) == Listed(m, idxs)
  {
    if idxs != [] {
      assert idxs[0] in idxs;
      CompletedTwice(m[idxs[0]], idxs[0]);
      ListedSame(m, idxs[1..]);
    }
  }

  /** Calls that streamed no id get ids that differ. */
  lemma SynthIdsDiffer(i: Index, j: Index)
    requires i != j
    ensures SynthId(i) != SynthId(j)
  {
    if SynthId(i) == SynthId(j) {
      assert SynthId(i)[5..] == Decimal.Render(i) && SynthId(j)[5..] == Decimal.Render(j);
      Decimal.RenderInjective(i, j);
    }
  }
}
