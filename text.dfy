/**
 * The string operations the two filters use to build their query filters
 * and to read resource names: joining with a separator, Python's
 * `s.rsplit(sep, 1)[0]`, `''.join(parts)` and `s.split('/')[-1]`.
 */
module Text {
  import opened Outcomes

  /** The separator both filters put between the clauses of a query filter. */
  const Separator := " OR "

  /** `sep.join(xs)`: the items in order with `sep` between neighbours and nowhere else. */
  function Join(xs: seq<string>, sep: string): string
    decreases |xs|
  {
    if |xs| == 0 then ""
    else if |xs| == 1 then xs[0]
    else Join(xs[..|xs| - 1], sep) + sep + xs[|xs| - 1]
  }

  /** A join starts with the first item and ends with the last one: there is no leading or trailing separator. */
  lemma {:induction false} JoinEnds(xs: seq<string>, sep: string)
    requires |xs| > 0
    ensures |Join(xs, sep)| >= |xs[0]| && Join(xs, sep)[..|xs[0]|] == xs[0]
    ensures |Join(xs, sep)| >= |xs[|xs| - 1]| && Join(xs, sep)[|Join(xs, sep)| - |xs[|xs| - 1]|..] == xs[|xs| - 1]
    decreases |xs|
  {
    if |xs| > 1 {
      var init := xs[..|xs| - 1];
      JoinEnds(init, sep);
      assert init[0] == xs[0];
      var j := Join(init, sep);
      assert Join(xs, sep) == j + sep + xs[|xs| - 1];
      assert (j + sep + xs[|xs| - 1])[..|xs[0]|] == j[..|xs[0]|];
    }
  }

  /** Every item followed by `sep`: what a loop of `s += item + sep` appends. */
  function Terminated(xs: seq<string>, sep: string): string
    decreases |xs|
  {
    if |xs| == 0 then "" else Terminated(xs[..|xs| - 1], sep) + xs[|xs| - 1] + sep
  }

  /** The list `[x1, sep, x2, sep, ...]` that a loop of `append(x); append(sep)` builds. */
  function Separated(xs: seq<string>, sep: string): seq<string>
    decreases |xs|
  {
    if |xs| == 0 then [] else Separated(xs[..|xs| - 1], sep) + [xs[|xs| - 1], sep]
  }

  /** `''.join(parts)`. */
  function Concat(parts: seq<string>): string
    decreases |parts|
  {
    if |parts| == 0 then "" else Concat(parts[..|parts| - 1]) + parts[|parts| - 1]
  }

  lemma {:induction false} TerminatedIsJoined(xs: seq<string>, sep: string)
    requires |xs| > 0
    ensures Terminated(xs, sep) == Join(xs, sep) + sep
    decreases |xs|
  {
    var init := xs[..|xs| - 1];
    if |xs| == 1 {
      assert init == [];
    } else {
      TerminatedIsJoined(init, sep);
    }
  }

  lemma {:induction false} ConcatSeparated(xs: seq<string>, sep: string)
    ensures |Separated(xs, sep)| == 2 * |xs|
    ensures Concat(Separated(xs, sep)) == Terminated(xs, sep)
    decreases |xs|
  {
    if |xs| > 0 {
      var init, last := xs[..|xs| - 1], xs[|xs| - 1];
      ConcatSeparated(init, sep);
      var p := Separated(init, sep);
      assert (p + [last, sep])[..|p| + 1] == p + [last];
      assert (p + [last])[..|p|] == p;
    }
  }

  /** Dropping the trailing separator of the separated list and concatenating gives the join. */
  lemma PoppedSeparatedIsJoined(xs: seq<string>, sep: string)
    requires |xs| > 0
    ensures |Separated(xs, sep)| == 2 * |xs|
    ensures Concat(Separated(xs, sep)[..2 * |xs| - 1]) == Join(xs, sep)
  {
    var init, last := xs[..|xs| - 1], xs[|xs| - 1];
    ConcatSeparated(init, sep);
    var p := Separated(init, sep);
    assert Separated(xs, sep) == p + [last, sep];
    assert Separated(xs, sep)[..2 * |xs| - 1] == p + [last];
    assert (p + [last])[..|p|] == p;
    assert Concat(p + [last]) == Concat(p) + last;
    if |init| > 0 {
      TerminatedIsJoined(init, sep);
      assert Join(xs, sep) == Join(init, sep) + sep + last;
    } else {
      assert Concat(p) == "";
    }
  }

  /** `sep` occurs in `s` starting at position `j`. */
  predicate OccursAt(s: string, sep: string, j: int) {
    0 <= j && j + |sep| <= |s| && s[j..j + |sep|] == sep
  }

  predicate Contains(s: string, sep: string) {
    exists j :: 0 <= j <= |s| && OccursAt(s, sep, j)
  }

  /** An occurrence that lies within the middle part of `a + m + b` is an occurrence in `m`. */
  lemma OccursInside(a: string, m: string, b: string, sep: string, j: int)
    requires |a| <= j && j + |sep| <= |a| + |m|
    ensures OccursAt(a + m + b, sep, j) <==> OccursAt(m, sep, j - |a|)
  {
    var p := a + m + b;
    forall t | j <= t < j + |sep|
      ensures p[t] == m[t - |a|]
    {
    }
    assert p[j..j + |sep|] == m[j - |a|..j - |a| + |sep|];
  }

  /** The right-most start of `sep` in `s` at or before position `i`. */
  function LastOccurrence(s: string, sep: string, i: int): (r: Option<nat>)
    requires i <= |s| - |sep|
    ensures r.Some? ==> r.value <= i && OccursAt(s, sep, r.value)
    ensures forall j :: (if r.Some? then r.value else -1) < j <= i ==> !OccursAt(s, sep, j)
    decreases i + 1
  {
    if i < 0 then None
    else if OccursAt(s, sep, i) then Some(i)
    else LastOccurrence(s, sep, i - 1)
  }

  /** `s.rsplit(sep, 1)[0]`: the text before the right-most `sep`, or all of `s` when there is none. */
  function RSplitHead(s: string, sep: string): string {
    match LastOccurrence(s, sep, |s| - |sep|)
    case None => s
    case Some(i) => s[..i]
  }

  /** A trailing separator is exactly what `rsplit` removes, whatever `s` holds. */
  lemma RSplitDropsTrailing(s: string, sep: string)
    ensures RSplitHead(s + sep, sep) == s
  {
    var t := s + sep;
    assert t[|s|..|s| + |sep|] == sep;
    assert OccursAt(t, sep, |s|);
    assert t[..|s|] == s;
  }

  /** Without a separator in it, `rsplit` leaves the text whole. */
  lemma RSplitWithoutSeparator(s: string, sep: string)
    requires !Contains(s, sep)
    ensures RSplitHead(s, sep) == s
  {
  }

  /** `s.split('/')[-1]`: what follows the last '/' of `s` (all of `s` when it has none). */
  function LastSegment(s: string): string
    decreases |s|
  {
    if |s| == 0 then ""
    else if s[|s| - 1] == '/' then ""
    else LastSegment(s[..|s| - 1]) + [s[|s| - 1]]
  }

  /** The last segment is the longest suffix without a '/': a '/' precedes it unless it is all of `s`. */
  lemma {:induction false} LastSegmentIsSuffix(s: string)
    ensures '/' !in LastSegment(s)
    ensures |LastSegment(s)| <= |s| && LastSegment(s) == s[|s| - |LastSegment(s)|..]
    ensures |LastSegment(s)| < |s| ==> s[|s| - |LastSegment(s)| - 1] == '/'
    decreases |s|
  {
    if |s| > 0 && s[|s| - 1] != '/' {
      var init, last := s[..|s| - 1], s[|s| - 1];
      LastSegmentIsSuffix(init);
      var r0 := LastSegment(init);
      var k := |init| - |r0|;
      assert LastSegment(s) == r0 + [last];
      assert s == init + [last];
      assert s[k..] == init[k..] + [last] by {
        forall i | 0 <= i < |s| - k
          ensures s[k..][i] == (init[k..] + [last])[i]
        {
          if i < |init| - k {
            assert s[k + i] == init[k + i];
          }
        }
      }
      if k > 0 {
        assert s[k - 1] == init[k - 1];
      }
    }
  }
}
