/**
 Sequence helpers mirroring the JavaScript array methods the store uses:
 `findIndex` (first match, or -1), `filter` and `filter(...).length`.
 */
module SeqUtil {

  /** Some/None in place of a JavaScript value that may be `undefined` or `null`. */
  datatype Option<T> = None | Some(value: T)

  /** `xs.findIndex(p)`: the index of the first element satisfying `p`; None stands for -1. */
  function FirstIndex<T>(xs: seq<T>, p: T -> bool): (r: Option<nat>)
    ensures r.Some? ==> r.value < |xs| && p(xs[r.value])
    ensures r.Some? ==> forall j :: 0 <= j < r.value ==> !p(xs[j])
    ensures r.None? ==> forall j :: 0 <= j < |xs| ==> !p(xs[j])
  {
    if |xs| == 0 then None
    else if p(xs[0]) then Some(0)
    else
      match FirstIndex(xs[1..], p)
      case None => None
      case Some(k) => Some(k + 1)
  }

  /** `r` can be obtained from `xs` by deleting elements, keeping the order of the rest. */
  ghost predicate IsSubsequence<T>(r: seq<T>, xs: seq<T>)
    decreases |xs|
  {
    if r == [] then true
    else if xs == [] then false
    else (r[0] == xs[0] && IsSubsequence(r[1..], xs[1..])) || IsSubsequence(r, xs[1..])
  }

  /** A subsequence takes each element at most as often as it occurs. */
  lemma {:induction false} SubsequenceMultiset<T>(r: seq<T>, xs: seq<T>)
    requires IsSubsequence(r, xs)
    ensures multiset(r) <= multiset(xs)
    decreases |xs|
  {
    if r != [] {
      assert xs == [xs[0]] + xs[1..];
      if r[0] == xs[0] && IsSubsequence(r[1..], xs[1..]) {
        assert r == [r[0]] + r[1..];
        SubsequenceMultiset(r[1..], xs[1..]);
      } else {
        SubsequenceMultiset(r, xs[1..]);
      }
    }
  }

  /** The positions of `xs` whose element satisfies `p`. */
  function MatchIndices<T>(xs: seq<T>, p: T -> bool): set<nat> {
    set i: nat | i < |xs| && p(xs[i])
  }

  /** `xs.filter(p)`: the elements satisfying `p`, in their original order,
      each as often as it occurs in `xs`. */
  function Filter<T>(xs: seq<T>, p: T -> bool): (r: seq<T>)
    ensures |r| <= |xs|
    ensures forall i :: 0 <= i < |r| ==> r[i] in xs && p(r[i])
    ensures forall i :: 0 <= i < |xs| && p(xs[i]) ==> xs[i] in r
    ensures IsSubsequence(r, xs)
  {
    if |xs| == 0 then []
    else
      var rest := Filter(xs[1..], p);
      assert forall i :: 1 <= i < |xs| ==> xs[i] == xs[1..][i - 1];
      if p(xs[0]) then
        var r := [xs[0]] + rest;
        assert r[1..] == rest;
        r
      else rest
  }

  /** Replacing one element changes the filtered length by at most one,
      exactly as the replaced and the new element's membership say. */
  lemma {:induction false} FilterLengthUpdate<T>(xs: seq<T>, k: nat, y: T, p: T -> bool)
    requires k < |xs|
    ensures |Filter(xs[k := y], p)| ==
            |Filter(xs, p)| - (if p(xs[k]) then 1 else 0) + (if p(y) then 1 else 0)
  {
    if k == 0 {
      assert xs[k := y][1..] == xs[1..];
    } else {
      assert xs[k := y][1..] == xs[1..][k - 1 := y];
      FilterLengthUpdate(xs[1..], k - 1, y, p);
    }
  }

  /** Filtering a sequence with one more element in front. */
  lemma FilterCons<T>(x: T, xs: seq<T>, p: T -> bool)
    ensures Filter([x] + xs, p) == (if p(x) then [x] else []) + Filter(xs, p)
  {
    assert ([x] + xs)[1..] == xs;
  }

  /** Filtering distributes over concatenation. */
  lemma {:induction false} FilterConcat<T>(a: seq<T>, b: seq<T>, p: T -> bool)
    ensures Filter(a + b, p) == Filter(a, p) + Filter(b, p)
  {
    if |a| > 0 {
      assert (a + b)[1..] == a[1..] + b;
      FilterConcat(a[1..], b, p);
    } else {
      assert a + b == b;
    }
  }

  /** Appending one element adds its position to the matches exactly when it matches. */
  lemma MatchIndicesSnoc<T>(ys: seq<T>, x: T, p: T -> bool)
    ensures |MatchIndices(ys + [x], p)| == |MatchIndices(ys, p)| + (if p(x) then 1 else 0)
  {
    var xs := ys + [x];
    assert forall i :: 0 <= i < |ys| ==> xs[i] == ys[i];
    assert xs[|ys|] == x;
    assert MatchIndices(xs, p) == MatchIndices(ys, p) + (if p(x) then {|ys|} else {});
    if p(x) {
      assert |ys| !in MatchIndices(ys, p);
    }
  }

  /** A filter keeps one element per matching position. */
  lemma {:induction false} FilterCount<T>(xs: seq<T>, p: T -> bool)
    ensures |Filter(xs, p)| == |MatchIndices(xs, p)|
    decreases |xs|
  {
    if |xs| > 0 {
      var ys, x := xs[..|xs| - 1], xs[|xs| - 1];
      assert xs == ys + [x];
      FilterConcat(ys, [x], p);
      FilterCount(ys, p);
      MatchIndicesSnoc(ys, x, p);
      assert [x][1..] == [];
    } else {
      assert MatchIndices(xs, p) == {};
    }
  }
}
