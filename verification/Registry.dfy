/** The tool registry: a map guarded by a lock, and the memoised listing it offers a model. */
module Registry {
  import opened Wrappers
  import opened Sorting

  datatype Tool = Tool(name: string, description: string, parameters: string)
  datatype ToolDef = ToolDef(kind: string, name: string, description: string, parameters: string)

  function DefOf(t: Tool): ToolDef { ToolDef("function", t.name, t.description, t.parameters) }

  // ---- String order ----------------------------------------------------------------------------

  predicate Before(a: string, b: string) {
    b != [] && (a == [] || a[0] < b[0] || (a[0] == b[0] && Before(a[1..], b[1..])))
  }

  lemma BeforeIsStrictTotal()
    ensures StrictOrder(Before) && Total(Before)
  {
    forall x: string ensures !Before(x, x) { Irreflexive(x); }
    forall x: string, y: string, z: string | Before(x, y) && Before(y, z) ensures Before(x, z) { Transitive(x, y, z); }
    forall x: string, y: string, z: string | Before(x, z) ensures Before(x, y) || Before(y, z) { Splits(x, y, z); }
    forall x: string, y: string ensures Before(x, y) || x == y || Before(y, x) { Comparable(x, y); }
  }

  lemma {:induction false} Irreflexive(x: string)
    ensures !Before(x, x)
  {
    if x != [] { Irreflexive(x[1..]); }
  }

  lemma {:induction false} Transitive(x: string, y: string, z: string)
    requires Before(x, y) && Before(y, z)
    ensures Before(x, z)
  {
    if x != [] && x[0] == y[0] == z[0] { Transitive(x[1..], y[1..], z[1..]); }
  }

  lemma {:induction false} Splits(x: string, y: string, z: string)
    requires Before(x, z)
    ensures Before(x, y) || Before(y, z)
  {
    if x != [] && y != [] && x[0] == y[0] == z[0] { Splits(x[1..], y[1..], z[1..]); }
  }

  lemma {:induction false} Comparable(x: string, y: string)
    ensures Before(x, y) || x == y || Before(y, x)
  {
    if x != [] && y != [] && x[0] == y[0] {
      Comparable(x[1..], y[1..]);
      assert x == [x[0]] + x[1..] && y == [y[0]] + y[1..];
    }
  }

  /** The order is that of a dictionary: the first difference decides, and a prefix comes
      first. */
  ghost predicate FirstDiffers(a: string, b: string, k: nat) {
    k <= |a| && k < |b| && a[..k] == b[..k] && (k < |a| ==> a[k] < b[k])
  }

  lemma {:induction false} BeforeIsDictionary(a: string, b: string)
    ensures Before(a, b) <==> exists k: nat :: FirstDiffers(a, b, k)
  {
    if a != [] && b != [] && a[0] == b[0] {
      BeforeIsDictionary(a[1..], b[1..]);
      Shift(a, b);
    } else if b != [] && (a == [] || a[0] < b[0]) {
      assert FirstDiffers(a, b, 0);
    } else {
      forall k: nat ensures !FirstDiffers(a, b, k) {
        if FirstDiffers(a, b, k) { Heads(a, b, k); }
      }
    }
  }

  lemma Heads(a: string, b: string, k: nat)
    requires FirstDiffers(a, b, k)
    ensures b != [] && (a == [] || a[0] <= b[0])
  {
    if k > 0 { assert a[0] == a[..k][0] && b[0] == b[..k][0]; }
  }

  lemma Shift(a: string, b: string)
    requires a != [] && b != [] && a[0] == b[0]
    ensures (exists k: nat :: FirstDiffers(a, b, k)) <==> exists k: nat :: FirstDiffers(a[1..], b[1..], k)
  {
    forall k: nat | FirstDiffers(a, b, k) ensures exists j: nat :: FirstDiffers(a[1..], b[1..], j) {
      assert k > 0 && a[..k][1..] == a[1..][..k - 1] && b[..k][1..] == b[1..][..k - 1];
      assert FirstDiffers(a[1..], b[1..], k - 1);
    }
    forall k: nat | FirstDiffers(a[1..], b[1..], k) ensures exists j: nat :: FirstDiffers(a, b, j) {
      assert a[..k + 1] == [a[0]] + a[1..][..k] && b[..k + 1] == [b[0]] + b[1..][..k];
      assert FirstDiffers(a, b, k + 1);
    }
  }

  // ---- What a listing is -----------------------------------------------------------------------

  /** The names of a tool map in ascending order. */
  ghost function Names(m: map<string, Tool>): (r: seq<string>)
    ensures StrictlySorted(Before, r) && forall n :: n in r <==> n in m
  {
    BeforeIsStrictTotal();
    Ascending(Before, m.Keys)
  }

  /** The simple form of the listing: recomputed from the map every time. */
  ghost function Defs(m: map<string, Tool>): (r: seq<ToolDef>)
    ensures |r| == |Names(m)|
    ensures forall i :: 0 <= i < |r| ==> r[i] == DefOf(m[Names(m)[i]])
  {
    var names := Names(m);
    seq(|names|, i requires 0 <= i < |names| => (assert names[i] in names; DefOf(m[names[i]])))
  }

  ghost predicate KeyedByName(m: map<string, Tool>) {
    forall n :: n in m ==> m[n].name == n
  }

  /** d is the function definition of the tool registered as n. */
  ghost predicate Offers(m: map<string, Tool>, n: string, d: ToolDef) {
    n in m && d.kind == "function" && d.name == n && d.description == m[n].description && d.parameters == m[n].parameters
  }

  /** A listing offers exactly the registered tools, once each, in ascending name order. */
  lemma ListingIsExact(m: map<string, Tool>)
    requires KeyedByName(m)
    ensures forall i, j :: 0 <= i < j < |Defs(m)| ==> Before(Defs(m)[i].name, Defs(m)[j].name)
    ensures forall d :: d in Defs(m) <==> exists n :: Offers(m, n, d)
  {
    var names := Names(m);
    assert forall i :: 0 <= i < |names| ==> names[i] in names && Defs(m)[i].name == names[i];
    forall n, d | Offers(m, n, d) ensures d in Defs(m) {
      assert n in names;
      var i :| 0 <= i < |names| && names[i] == n;
      assert Defs(m)[i] == d;
    }
    forall d | d in Defs(m) ensures exists n :: Offers(m, n, d) {
      var i :| 0 <= i < |Defs(m)| && Defs(m)[i] == d;
      assert Offers(m, names[i], d);
    }
  }

  function Removed(m: map<string, Tool>, names: seq<string>): map<string, Tool> {
    map n | n in m && n !in names :: m[n]
  }

  function Restricted(m: map<string, Tool>, names: seq<string>): map<string, Tool> {
    map n | n in m && n in names :: m[n]
  }

  // ---- The registry ------------------------------------------------------------------------------

  class Registry {
    var tools: map<string, Tool>
    var defsCache: Option<seq<ToolDef>>

    ghost predicate Valid()
      reads this
    {
      KeyedByName(tools) && (defsCache.None? || defsCache.value == Defs(tools))
    }

    constructor ()
      ensures Valid() && tools == map[] && defsCache == None
    {
      tools, defsCache := map[], None;
    }

    method Register(t: Tool)
      requires Valid()
      modifies this
      ensures Valid() && tools == old(tools)[t.name := t] && defsCache == None
    {
      tools := tools[t.name := t];
      defsCache := None;
    }

    method Unregister(names: seq<string>)
      requires Valid()
      modifies this
      ensures Valid() && tools == Removed(old(tools), names) && defsCache == None
      ensures forall n :: n in tools <==> n in old(tools) && n !in names
      ensures forall n :: n in tools ==> tools[n] == old(tools)[n]
    {
      var i := 0;
      assert tools == Removed(old(tools), names[..0]);
      while i < |names|
        invariant 0 <= i <= |names|
        invariant tools == Removed(old(tools), names[..i])
      {
        tools := tools - {names[i]};
        assert forall n :: n in names[..i + 1] <==> n in names[..i] || n == names[i];
        i := i + 1;
      }
      assert names[..i] == names;
      defsCache := None;
    }

    method Get(name: string) returns (t: Option<Tool>)
      ensures t == if name in tools then Some(tools[name]) else None
    {
      if name in tools { t := Some(tools[name]); } else { t := None; }
    }

    /** Every registered tool, in no particular order. */
    method List() returns (out: seq<Tool>)
      requires Valid()
      ensures |out| == |tools| && forall t :: t in out <==> t.name in tools && tools[t.name] == t
    {
      var keys := Enumerate(tools.Keys);
      out := [];
      for i := 0 to |keys|
        invariant |out| == i
        invariant forall j :: 0 <= j < i ==> out[j] == tools[keys[j]]
      {
        assert keys[i] in keys;
        out := out + [tools[keys[i]]];
      }
      forall t: Tool | t.name in tools && tools[t.name] == t ensures t in out {
        assert t.name in keys;
        var j :| 0 <= j < |keys| && keys[j] == t.name;
        assert out[j] == t;
      }
      assert forall j :: 0 <= j < |keys| ==> keys[j] in keys;
      Cardinality(tools.Keys, keys);
    }

    method Filter(names: seq<string>) returns (child: Registry)
      requires Valid()
      ensures fresh(child) && child.Valid() && child.tools == Restricted(tools, names)
      ensures forall n :: n in child.tools <==> n in tools && n in names
      ensures forall n :: n in child.tools ==> child.tools[n] == tools[n]
    {
      child := new Registry();
      var i := 0;
      assert child.tools == Restricted(tools, names[..0]);
      while i < |names|
        invariant 0 <= i <= |names|
        invariant fresh(child) && child.Valid() && child.defsCache == None
        invariant child.tools == Restricted(tools, names[..i])
      {
        assert forall n :: n in names[..i + 1] <==> n in names[..i] || n == names[i];
        if names[i] in tools {
          child.tools := child.tools[names[i] := tools[names[i]]];
        }
        assert child.tools == Restricted(tools, names[..i + 1]);
        i := i + 1;
      }
      assert names[..i] == names;
    }

    method Without(names: seq<string>) returns (child: Registry)
      requires Valid()
      ensures fresh(child) && child.Valid() && child.tools == Removed(tools, names)
      ensures forall n :: n in child.tools <==> n in tools && n !in names
      ensures forall n :: n in child.tools ==> child.tools[n] == tools[n]
    {
      child := new Registry();
      var keys := Enumerate(tools.Keys);
      var i := 0;
      while i < |keys|
        invariant 0 <= i <= |keys|
        invariant fresh(child) && child.Valid() && child.defsCache == None
        invariant forall n :: n in child.tools <==> n in keys[..i] && n !in names
        invariant forall n :: n in child.tools ==> n in tools && child.tools[n] == tools[n]
      {
        assert keys[i] in keys;
        assert forall n :: n in keys[..i + 1] <==> n in keys[..i] || n == keys[i];
        if keys[i] !in names {
          child.tools := child.tools[keys[i] := tools[keys[i]]];
        }
        i := i + 1;
      }
      assert keys[..i] == keys;
    }

    /** The fast path: one look under the read lock. */
    method Peek() returns (cached: Option<seq<ToolDef>>)
      requires Valid()
      ensures cached == defsCache
    {
      cached := defsCache;
    }

    /** The slow path, under the write lock: look again, then recompute. */
    method Fill() returns (defs: seq<ToolDef>)
      requires Valid()
      modifies this
      ensures Valid() && tools == old(tools)
      ensures defs == Defs(tools) && defsCache == Some(defs)
    {
      if defsCache.Some? {
        return defsCache.value;
      }
      defs := Computed(tools);
      defsCache := Some(defs);
    }

    method ToolDefs() returns (defs: seq<ToolDef>)
      requires Valid()
      modifies this
      ensures Valid() && tools == old(tools)
      ensures defs == Defs(tools) && defsCache == Some(defs)
    {
      var cached := Peek();
      if cached.Some? {
        return cached.value;
      }
      defs := Fill();
    }
  }

  /** The names sorted, then a definition for each. */
  method Computed(m: map<string, Tool>) returns (defs: seq<ToolDef>)
    ensures defs == Defs(m)
  {
    var names := SortedNames(m);
    defs := [];
    for i := 0 to |names|
      invariant defs == Defs(m)[..i]
    {
      DefAt(m, i);
      defs := defs + [DefOf(m[names[i]])];
    }
  }

  lemma DefAt(m: map<string, Tool>, i: nat)
    requires i < |Names(m)|
    ensures Names(m)[i] in m && Defs(m)[..i + 1] == Defs(m)[..i] + [DefOf(m[Names(m)[i]])]
  {
    assert Names(m)[i] in Names(m);
    TakeMore(Defs(m), i);
  }

  lemma TakeMore<T>(s: seq<T>, i: nat)
    requires i < |s|
    ensures s[..i + 1] == s[..i] + [s[i]]
  {
  }

  /** Go's map iteration, then sort.Strings. */
  method SortedNames(m: map<string, Tool>) returns (names: seq<string>)
    ensures names == Names(m)
  {
    var keys := Enumerate(m.Keys);
    BeforeIsStrictTotal();
    names := Sort(Before, keys);
    SortedKeys(Before, m.Keys, keys, names);
  }

  lemma {:induction false} Cardinality<T>(s: set<T>, xs: seq<T>)
    requires forall x :: x in s <==> x in xs
    requires forall x :: x in xs ==> multiset(xs)[x] == 1
    ensures |xs| == |s|
  {
    if xs != [] {
      var n := |xs| - 1;
      assert xs == xs[..n] + [xs[n]];
      forall x | x in xs[..n] ensures multiset(xs[..n])[x] == 1 && x != xs[n] {
        assert x in multiset(xs[..n]) && x in xs;
        assert multiset(xs)[x] == multiset(xs[..n])[x] + multiset([xs[n]])[x];
      }
      assert xs[n] in xs;
      Cardinality(s - {xs[n]}, xs[..n]);
    }
  }

  // ---- Registration order does not matter ----------------------------------------------------------

  function Registered(ts: seq<Tool>): (m: map<string, Tool>)
    ensures KeyedByName(m)
  {
    if ts == [] then map[] else var n := |ts| - 1; Registered(ts[..n])[ts[n].name := ts[n]]
  }

  /** The latest tool of a name is the one kept. */
  ghost predicate Latest(ts: seq<Tool>, i: int) {
    0 <= i < |ts| && forall j :: i < j < |ts| ==> ts[j].name != ts[i].name
  }

  ghost predicate IsLatest(ts: seq<Tool>, t: Tool) { exists i :: Latest(ts, i) && ts[i] == t }

  lemma {:induction false} LatestIsKept(ts: seq<Tool>, t: Tool)
    ensures (t.name in Registered(ts) && Registered(ts)[t.name] == t) <==> IsLatest(ts, t)
  {
    if ts != [] {
      var n := |ts| - 1;
      LatestIsKept(ts[..n], t);
      assert Latest(ts, n);
      if ts[n].name == t.name {
        assert forall i :: Latest(ts, i) && ts[i] == t ==> i == n;
      } else {
        OthersKept(ts, t);
      }
    }
  }

  lemma OthersKept(ts: seq<Tool>, t: Tool)
    requires ts != [] && ts[|ts| - 1].name != t.name
    ensures IsLatest(ts, t) <==> IsLatest(ts[..|ts| - 1], t)
  {
    var us := ts[..|ts| - 1];
    if IsLatest(ts, t) {
      var i :| Latest(ts, i) && ts[i] == t;
      assert us[i] == t;
      assert Latest(us, i);
    }
    if IsLatest(us, t) {
      var i :| Latest(us, i) && us[i] == t;
      StaysLatest(ts, i);
      assert ts[i] == t;
    }
  }

  lemma StaysLatest(ts: seq<Tool>, i: int)
    requires ts != [] && Latest(ts[..|ts| - 1], i) && ts[|ts| - 1].name != ts[i].name
    ensures Latest(ts, i)
  {
    var us := ts[..|ts| - 1];
    forall j | i < j < |us| ensures ts[j].name != ts[i].name {
      assert us[j] == ts[j] && us[i] == ts[i];
    }
  }

  /** Two registration histories that end with the same tool for every name, in whatever
      order the names came, give the same listing. */
  lemma RegistrationOrderIrrelevant(ts: seq<Tool>, us: seq<Tool>)
    requires forall t :: IsLatest(ts, t) <==> IsLatest(us, t)
    ensures Registered(ts) == Registered(us) && Defs(Registered(ts)) == Defs(Registered(us))
  {
    var m, w := Registered(ts), Registered(us);
    forall n | n in m ensures n in w && w[n] == m[n] {
      LatestIsKept(ts, m[n]);
      LatestIsKept(us, m[n]);
    }
    forall n | n in w ensures n in m {
      LatestIsKept(ts, w[n]);
      LatestIsKept(us, w[n]);
    }
    assert m == w;
  }

  /** In particular, distinct tools may be registered in any order. */
  lemma AnyOrderOfDistinctNames(ts: seq<Tool>, us: seq<Tool>)
    requires forall i, j :: 0 <= i < j < |ts| ==> ts[i].name != ts[j].name
    requires forall i, j :: 0 <= i < j < |us| ==> us[i].name != us[j].name
    requires forall t :: t in ts <==> t in us
    ensures Defs(Registered(ts)) == Defs(Registered(us))
  {
    forall t ensures IsLatest(ts, t) <==> IsLatest(us, t) {
      assert forall i :: 0 <= i < |ts| ==> Latest(ts, i);
      assert forall j :: 0 <= j < |us| ==> Latest(us, j);
      assert t in ts <==> exists i :: 0 <= i < |ts| && ts[i] == t;
      assert t in us <==> exists j :: 0 <= j < |us| && us[j] == t;
    }
    RegistrationOrderIrrelevant(ts, us);
  }

  // ---- ToolDefs under concurrent writers -----------------------------------------------------------

  /** One ToolDefs call; an instant is how many times the map had been written. */
  datatype Call =
    | Entered(from: nat)
    | Slow(from: nat)                              // saw no memo under the read lock
    | Has(from: nat, defs: seq<ToolDef>)           // released its lock, not yet returned
    | Returned(from: nat, to: nat, defs: seq<ToolDef>)

  datatype State = State(
    tools: map<string, Tool>,
    cache: Option<seq<ToolDef>>,
    calls: seq<Call>,
    history: seq<map<string, Tool>>)    // the map after each write, the latest last

  datatype Step =
    | Register(t: Tool)
    | Unregister(names: seq<string>)
    | Enter
    | PeekAt(k: nat)
    | FillAt(k: nat)
    | Return(k: nat)

  predicate Enabled(s: State, step: Step) {
    match step
    case Register(_) => true
    case Unregister(_) => true
    case Enter => true
    case PeekAt(k) => k < |s.calls| && s.calls[k].Entered?
    case FillAt(k) => k < |s.calls| && s.calls[k].Slow?
    case Return(k) => k < |s.calls| && s.calls[k].Has?
  }

  function Now(s: State): int { |s.history| - 1 }

  function Written(s: State, m: map<string, Tool>): State {
    s.(tools := m, cache := None, history := s.history + [m])
  }

  ghost function Next(s: State, step: Step): State
    requires s.history != [] && Enabled(s, step)
  {
    match step
    case Register(t) => Written(s, s.tools[t.name := t])
    case Unregister(names) => Written(s, Removed(s.tools, names))
    case Enter => s.(calls := s.calls + [Entered(Now(s))])
    case PeekAt(k) =>
      var from := s.calls[k].from;
      s.(calls := s.calls[k := if s.cache.Some? then Has(from, s.cache.value) else Slow(from)])
    case FillAt(k) =>
      var defs := if s.cache.Some? then s.cache.value else Defs(s.tools);
      s.(cache := Some(defs), calls := s.calls[k := Has(s.calls[k].from, defs)])
    case Return(k) =>
      var c := s.calls[k];
      s.(calls := s.calls[k := Returned(c.from, Now(s), c.defs)])
  }

  const INIT := State(map[], None, [], [map[]])

  ghost predicate Legal(s: State, steps: seq<Step>)
    requires s.history != []
    decreases |steps|
  {
    steps == [] || (Enabled(s, steps[0]) && Legal(Next(s, steps[0]), steps[1..]))
  }

  ghost function Exec(s: State, steps: seq<Step>): State
    requires s.history != [] && Legal(s, steps)
    decreases |steps|
  {
    if steps == [] then s else Exec(Next(s, steps[0]), steps[1..])
  }

  /** defs was the listing of the map at some instant between from and to. */
  ghost predicate ListedBetween(s: State, from: int, to: int, defs: seq<ToolDef>) {
    exists i :: from <= i <= to && ListedAt(s, i, defs)
  }

  ghost predicate ListedAt(s: State, i: int, defs: seq<ToolDef>) {
    0 <= i < |s.history| && defs == Defs(s.history[i])
  }

  ghost predicate CallOk(s: State, c: Call) {
    && c.from <= Now(s)
    && (c.Has? ==> ListedBetween(s, c.from, Now(s), c.defs))
    && (c.Returned? ==> c.to <= Now(s) && ListedBetween(s, c.from, c.to, c.defs))
  }

  ghost predicate Inv(s: State) {
    && s.history != [] && s.history[Now(s)] == s.tools
    && KeyedByName(s.tools)
    && (s.cache.Some? ==> s.cache.value == Defs(s.tools))
    && forall k :: 0 <= k < |s.calls| ==> CallOk(s, s.calls[k])
  }

  lemma StillOk(s: State, t: State, c: Call)
    requires s.history <= t.history && CallOk(s, c)
    ensures CallOk(t, c)
  {
    assert forall i, defs :: ListedAt(s, i, defs) ==> ListedAt(t, i, defs);
  }

  lemma NextInv(s: State, step: Step)
    requires Inv(s) && Enabled(s, step)
    ensures Inv(Next(s, step))
  {
    var t := Next(s, step);
    forall k | 0 <= k < |t.calls| ensures CallOk(t, t.calls[k]) {
      if k < |s.calls| {
        StillOk(s, t, s.calls[k]);
        if step.FillAt? || step.PeekAt? { assert ListedAt(t, Now(t), Defs(t.tools)); }
      }
    }
  }

  lemma {:induction false} ReachableInv(s: State, steps: seq<Step>)
    requires Inv(s) && Legal(s, steps)
    ensures Inv(Exec(s, steps))
    decreases |steps|
  {
    if steps != [] {
      NextInv(s, steps[0]);
      ReachableInv(Next(s, steps[0]), steps[1..]);
    }
  }

  /** In every reachable state the memo is absent or is what would be computed afresh, and
      every finished call returned the listing of the map at an instant during that call. */
  lemma MemoCoherent(steps: seq<Step>, k: nat)
    requires Legal(INIT, steps)
    ensures var s := Exec(INIT, steps);
      && (s.cache == None || s.cache == Some(Defs(s.tools)))
      && (k < |s.calls| && s.calls[k].Returned? ==> ListedBetween(s, s.calls[k].from, s.calls[k].to, s.calls[k].defs))
  {
    ReachableInv(INIT, steps);
  }
}
