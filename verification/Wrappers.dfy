/** Option and Result, shared by the modules that model a failing call, and a failing
    function applied along a sequence. */
module Wrappers {
  datatype Option<+T> = None | Some(value: T)

  datatype Result<+T, +E> = Ok(value: T) | Err(error: E)

  /** The results of f in order, or its first error. */
  function Each<M, T, E>(f: M -> Result<T, E>, ms: seq<M>): (r: Result<seq<T>, E>)
    ensures r.Ok? ==> |r.value| == |ms|
  {
    if ms == [] then Ok([]) else
      match Each(f, ms[..|ms| - 1])
      case Err(e) => Err(e)
      case Ok(front) =>
        match f(ms[|ms| - 1])
        case Err(e) => Err(e)
        case Ok(t) => Ok(front + [t])
  }

  lemma {:induction false} EachStops<M, T, E>(f: M -> Result<T, E>, ms: seq<M>, i: nat)
    requires i <= |ms| && Each(f, ms[..i]).Err?
    ensures Each(f, ms) == Each(f, ms[..i])
  {
    if i == |ms| {
      assert ms[..i] == ms;
    } else {
      assert ms[..|ms| - 1][..i] == ms[..i];
      EachStops(f, ms[..|ms| - 1], i);
    }
  }

  lemma {:induction false} EachIff<M, T, E>(f: M -> Result<T, E>, ms: seq<M>)
    ensures Each(f, ms).Ok? <==> forall i :: 0 <= i < |ms| ==> f(ms[i]).Ok?
  {
    if ms != [] {
      var n := |ms| - 1;
      EachIff(f, ms[..n]);
      assert forall i :: 0 <= i < n ==> ms[..n][i] == ms[i];
    }
  }

  lemma EachSnoc<M, T, E>(f: M -> Result<T, E>, ms: seq<M>, m: M)
    requires Each(f, ms).Ok? && f(m).Ok?
    ensures Each(f, ms + [m]) == Ok(Each(f, ms).value + [f(m).value])
  {
    assert (ms + [m])[..|ms|] == ms;
  }

  lemma {:induction false} EachAt<M, T, E>(f: M -> Result<T, E>, ms: seq<M>, i: nat)
    requires i < |ms| && Each(f, ms).Ok?
    ensures f(ms[i]) == Ok(Each(f, ms).value[i])
  {
    if i < |ms| - 1 {
      EachAt(f, ms[..|ms| - 1], i);
    }
  }

  lemma Trailing<T>(s: seq<T>)
    ensures s + [] == s
  {
  }
}
