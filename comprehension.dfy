/**
 * The list comprehension `[r for r in resources if test(r)]` with which
 * both filters end, when `test` may raise: the outcome of the test on
 * `xs[i]` is `vs[i]`, and the first exception ends the comprehension.
 */
module Comprehension {
  import opened Outcomes

  /** The kept elements, in input order, or the first exception. */
  function Keep<T>(xs: seq<T>, vs: seq<Result<bool>>): Result<seq<T>>
    requires |xs| == |vs|
    decreases |xs|
  {
    if |xs| == 0 then Ok([])
    else
      var n := |xs| - 1;
      match Keep(xs[..n], vs[..n])
      case Err(e) => Err(e)
      case Ok(kept) =>
        match vs[n]
        case Err(e) => Err(e)
        case Ok(b) => Ok(if b then kept + [xs[n]] else kept)
  }

  /** The position of the first test that raises, or |vs| when none does. */
  function FirstFailure(vs: seq<Result<bool>>): (k: nat)
    ensures k <= |vs|
    ensures forall i :: 0 <= i < k ==> vs[i].Ok?
    ensures k < |vs| ==> vs[k].Err?
    decreases |vs|
  {
    if |vs| == 0 then 0
    else
      var n := |vs| - 1;
      var k := FirstFailure(vs[..n]);
      if k < n then k else if vs[n].Err? then n else |vs|
  }

  /** The positions whose test returned true, ascending. */
  function Passing(vs: seq<Result<bool>>): (ps: seq<nat>)
    ensures forall t :: 0 <= t < |ps| ==> ps[t] < |vs| && vs[ps[t]] == Ok(true)
    ensures forall t, u :: 0 <= t < u < |ps| ==> ps[t] < ps[u]
    ensures forall i :: 0 <= i < |vs| && vs[i] == Ok(true) ==> i in ps
    decreases |vs|
  {
    if |vs| == 0 then []
    else
      var n := |vs| - 1;
      Passing(vs[..n]) + (if vs[n] == Ok(true) then [n] else [])
  }

  /** One more element through the comprehension. */
  lemma KeepStep<T>(xs: seq<T>, vs: seq<Result<bool>>, i: nat, kept: seq<T>)
    requires |xs| == |vs| && i < |xs|
    requires Keep(xs[..i], vs[..i]) == Ok(kept) && vs[i].Ok?
    ensures Keep(xs[..i + 1], vs[..i + 1]) == Ok(if vs[i].value then kept + [xs[i]] else kept)
  {
    assert xs[..i + 1][..i] == xs[..i];
    assert vs[..i + 1][..i] == vs[..i];
  }

  /** A test that raises after a successful prefix ends the comprehension with its exception. */
  lemma KeepFailsAt<T>(xs: seq<T>, vs: seq<Result<bool>>, i: nat, kept: seq<T>)
    requires |xs| == |vs| && i < |xs|
    requires Keep(xs[..i], vs[..i]) == Ok(kept) && vs[i].Err?
    ensures FirstFailure(vs) == i
    ensures Keep(xs, vs) == Err(vs[i].error)
  {
    KeepRaisesFirst(xs[..i], vs[..i]);
    assert forall j :: 0 <= j < i ==> vs[..i][j] == vs[j];
    KeepRaisesFirst(xs, vs);
  }

  /** A comprehension that got through every element succeeds. */
  lemma KeepAll<T>(xs: seq<T>, vs: seq<Result<bool>>, kept: seq<T>)
    requires |xs| == |vs|
    requires Keep(xs[..|xs|], vs[..|vs|]) == Ok(kept)
    ensures Keep(xs, vs) == Ok(kept) && FirstFailure(vs) == |vs|
  {
    assert xs[..|xs|] == xs;
    assert vs[..|vs|] == vs;
    KeepRaisesFirst(xs, vs);
  }

  /** The comprehension succeeds exactly when no test raises, and otherwise raises the first exception. */
  lemma {:induction false} KeepRaisesFirst<T>(xs: seq<T>, vs: seq<Result<bool>>)
    requires |xs| == |vs|
    ensures Keep(xs, vs).Ok? <==> FirstFailure(vs) == |vs|
    ensures Keep(xs, vs).Err? ==> Keep(xs, vs).error == vs[FirstFailure(vs)].error
    decreases |xs|
  {
    if |xs| > 0 {
      var n := |xs| - 1;
      KeepRaisesFirst(xs[..n], vs[..n]);
    }
  }

  /**
   * A successful comprehension is the order-preserving subsequence of the
   * input at the positions whose test returned true.
   */
  lemma {:induction false} KeepSelects<T>(xs: seq<T>, vs: seq<Result<bool>>)
    requires |xs| == |vs|
    requires Keep(xs, vs).Ok?
    ensures |Keep(xs, vs).value| == |Passing(vs)|
    ensures forall t :: 0 <= t < |Passing(vs)| ==> Keep(xs, vs).value[t] == xs[Passing(vs)[t]]
    decreases |xs|
  {
    if |xs| > 0 {
      var n := |xs| - 1;
      KeepSelects(xs[..n], vs[..n]);
    }
  }
}
