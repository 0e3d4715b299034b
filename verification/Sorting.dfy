/** Sorting by a strict order, and the facts that make the result unique. */
module Sorting {
  ghost predicate StrictOrder<T(!new)>(less: (T, T) -> bool) {
    && (forall x :: !less(x, x))
    && (forall x, y, z :: less(x, y) && less(y, z) ==> less(x, z))
    && (forall x, y, z :: less(x, z) ==> less(x, y) || less(y, z))
  }

  ghost predicate Total<T(!new)>(less: (T, T) -> bool) {
    forall x, y :: less(x, y) || x == y || less(y, x)
  }

  predicate Sorted<T>(less: (T, T) -> bool, xs: seq<T>) {
    forall i, j :: 0 <= i < j < |xs| ==> !less(xs[j], xs[i])
  }

  predicate StrictlySorted<T>(less: (T, T) -> bool, xs: seq<T>) {
    forall i, j :: 0 <= i < j < |xs| ==> less(xs[i], xs[j])
  }

  /** A sorted permutation of xs. */
  method Sort<T(!new)>(less: (T, T) -> bool, xs: seq<T>) returns (r: seq<T>)
    requires StrictOrder(less)
    ensures Sorted(less, r) && multiset(r) == multiset(xs)
  {
    r := [];
    var i := 0;
    while i < |xs|
      invariant 0 <= i <= |xs| && Sorted(less, r) && multiset(r) == multiset(xs[..i])
    {
      r := Insert(less, r, xs[i]);
      assert xs[..i + 1] == xs[..i] + [xs[i]];
      i := i + 1;
    }
    assert xs[..i] == xs;
  }

  method Insert<T(!new)>(less: (T, T) -> bool, xs: seq<T>, x: T) returns (r: seq<T>)
    requires StrictOrder(less) && Sorted(less, xs)
    ensures Sorted(less, r) && multiset(r) == multiset(xs) + multiset{x}
  {
    var k := |xs|;
    while k > 0 && less(x, xs[k - 1])
      invariant 0 <= k <= |xs|
      invariant forall i :: k <= i < |xs| ==> less(x, xs[i])
    {
      k := k - 1;
    }
    r := xs[..k] + [x] + xs[k..];
    assert xs == xs[..k] + xs[k..];
    InsertSorted(less, xs, x, k);
  }

  lemma InsertSorted<T(!new)>(less: (T, T) -> bool, xs: seq<T>, x: T, k: nat)
    requires StrictOrder(less) && Sorted(less, xs) && k <= |xs|
    requires k > 0 ==> !less(x, xs[k - 1])
    requires forall i :: k <= i < |xs| ==> less(x, xs[i])
    ensures Sorted(less, xs[..k] + [x] + xs[k..])
  {
    forall i | 0 <= i < k ensures !less(x, xs[i]) {
      if i < k - 1 { assert !less(xs[k - 1], xs[i]); }
    }
    forall i | k <= i < |xs| ensures !less(xs[i], x) {
      assert less(x, xs[i]) && !less(x, x);
    }
  }

  /** A strictly sorted sequence is determined by its elements. */
  lemma {:induction false} UniqueByElements<T(!new)>(less: (T, T) -> bool, xs: seq<T>, ys: seq<T>)
    requires StrictOrder(less)
    requires StrictlySorted(less, xs) && StrictlySorted(less, ys)
    requires forall x :: x in xs <==> x in ys
    ensures xs == ys
  {
    assert ys != [] ==> ys[0] in ys;
    if xs != [] {
      assert xs[0] in ys && ys != [] && ys[0] in xs;
      var i :| 0 <= i < |xs| && xs[i] == ys[0];
      var j :| 0 <= j < |ys| && ys[j] == xs[0];
      assert i == 0;
      forall x | x in xs[1..] ensures x in ys[1..] { assert x in xs; }
      forall y | y in ys[1..] ensures y in xs[1..] { assert y in ys; }
      UniqueByElements(less, xs[1..], ys[1..]);
    }
  }

  /** Sorting distinct elements under a total order sorts them strictly. */
  lemma DistinctSorted<T(!new)>(less: (T, T) -> bool, xs: seq<T>)
    requires StrictOrder(less) && Total(less) && Sorted(less, xs)
    requires forall x :: x in xs ==> multiset(xs)[x] == 1
    ensures StrictlySorted(less, xs)
  {
    forall i, j | 0 <= i < j < |xs|
      ensures less(xs[i], xs[j])
    {
      assert xs[i] in xs;
      if xs[i] == xs[j] { CountedTwice(xs, i, j); }
    }
  }

  lemma CountedTwice<T>(xs: seq<T>, i: nat, j: nat)
    requires i < j < |xs| && xs[i] == xs[j]
    ensures multiset(xs)[xs[i]] >= 2
  {
    assert xs == xs[..j] + xs[j..];
    assert xs[i] == xs[..j][i] && xs[j] == xs[j..][0];
    assert xs[i] in multiset(xs[..j]) && xs[j] in multiset(xs[j..]);
  }

  /** The elements of a finite set in ascending order. */
  ghost function Ascending<T(!new)>(less: (T, T) -> bool, s: set<T>): (r: seq<T>)
    requires StrictOrder(less) && Total(less)
    ensures StrictlySorted(less, r)
    ensures forall x :: x in r <==> x in s
    decreases |s|
  {
    if s == {} then [] else
      var m := Least(less, s);
      var r := Ascending(less, s - {m});
      assert forall x :: x in r ==> less(m, x);
      assert forall x :: x in [m] + r <==> x == m || x in r;
      [m] + r
  }

  ghost function Least<T(!new)>(less: (T, T) -> bool, s: set<T>): (m: T)
    requires StrictOrder(less) && Total(less) && s != {}
    ensures m in s && forall x :: x in s && x != m ==> less(m, x)
    decreases |s|
  {
    var x :| x in s;
    var rest := s - {x};
    assert forall y :: y in s <==> y == x || y in rest;
    if rest == {} then x else
      var m := Least(less, rest);
      if less(x, m) then x else m
  }

  /** Enumerating a set in any order and sorting gives its ascending order. */
  lemma SortedKeys<T(!new)>(less: (T, T) -> bool, keys: set<T>, xs: seq<T>, sorted: seq<T>)
    requires StrictOrder(less) && Total(less)
    requires forall i :: i in keys <==> i in xs
    requires forall i :: i in xs ==> multiset(xs)[i] == 1
    requires Sorted(less, sorted) && multiset(sorted) == multiset(xs)
    ensures sorted == Ascending(less, keys)
  {
    forall x ensures x in sorted <==> x in xs {
      assert x in sorted <==> x in multiset(sorted);
      assert x in xs <==> x in multiset(xs);
    }
    DistinctSorted(less, sorted);
    UniqueByElements(less, sorted, Ascending(less, keys));
  }

  /** The elements of a set, in any order (Go's map iteration). */
  method Enumerate<T(!new)>(keys: set<T>) returns (xs: seq<T>)
    ensures forall i :: i in keys <==> i in xs
    ensures forall i :: i in xs ==> multiset(xs)[i] == 1
  {
    var rest := keys;
    xs := [];
    while rest != {}
      invariant forall i :: i in keys <==> i in rest || i in xs
      invariant forall i :: i in rest ==> i !in xs
      invariant forall i :: i in xs ==> multiset(xs)[i] == 1
      decreases rest
    {
      var k :| k in rest;
      rest := rest - {k};
      xs := xs + [k];
    }
  }
}
