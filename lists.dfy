/**
 * Array helpers the source takes from JavaScript: `filter`, `find`/`findIndex`
 * and `filter(...).length`, stated once for every list the model keeps.
 */
module Lists {
  import opened Wrappers

  /** `xs.filter(p)`: the elements satisfying `p`, in their original order. */
  function Filter<T>(xs: seq<T>, p: T -> bool): (r: seq<T>)
    ensures |r| <= |xs|
    ensures forall i :: 0 <= i < |r| ==> r[i] in xs && p(r[i])
    ensures forall i :: 0 <= i < |xs| && p(xs[i]) ==> xs[i] in r
    decreases |xs|
  {
    if xs == [] then [] else (if p(xs[0]) then [xs[0]] else []) + Filter(xs[1..], p)
  }

  /** `filter` keeps the order: filtering a concatenation filters each part. */
  lemma {:induction false} FilterAppend<T>(a: seq<T>, b: seq<T>, p: T -> bool)
    ensures Filter(a + b, p) == Filter(a, p) + Filter(b, p)
    decreases |a|
  {
    if a == [] {
      assert a + b == b;
    } else {
      assert (a + b)[0] == a[0] && (a + b)[1..] == a[1..] + b;
      FilterAppend(a[1..], b, p);
    }
  }

  /** Filtering a one-element list keeps that element exactly when it passes. */
  lemma FilterSingleton<T>(x: T, p: T -> bool)
    ensures Filter([x], p) == if p(x) then [x] else []
  {
    assert [x][1..] == [];
  }

  /** Filtering around one element: what comes before it, then it if it passes, then what comes after. */
  lemma FilterAround<T>(a: seq<T>, x: T, b: seq<T>, p: T -> bool)
    ensures Filter(a + [x] + b, p) == Filter(a, p) + (if p(x) then [x] else []) + Filter(b, p)
  {
    FilterAppend(a + [x], b, p);
    FilterAppend(a, [x], p);
    FilterSingleton(x, p);
  }

  /** `filter` keeps everything exactly when every element passes. */
  lemma {:induction false} FilterAll<T>(xs: seq<T>, p: T -> bool)
    ensures |Filter(xs, p)| == |xs| <==> forall i :: 0 <= i < |xs| ==> p(xs[i])
    ensures (forall i :: 0 <= i < |xs| ==> p(xs[i])) ==> Filter(xs, p) == xs
    decreases |xs|
  {
    if xs != [] {
      FilterAll(xs[1..], p);
      assert forall i :: 1 <= i < |xs| ==> xs[1..][i - 1] == xs[i];
    }
  }

  /** Filtering by `p` and by its negation splits the list: the two parts together are the whole. */
  lemma {:induction false} FilterSplit<T>(xs: seq<T>, p: T -> bool, q: T -> bool)
    requires forall x :: q(x) == !p(x)
    ensures |Filter(xs, p)| + |Filter(xs, q)| == |xs|
    ensures multiset(Filter(xs, p)) + multiset(Filter(xs, q)) == multiset(xs)
    decreases |xs|
  {
    if xs != [] {
      FilterSplit(xs[1..], p, q);
      assert xs == [xs[0]] + xs[1..];
    }
  }

  /** `xs.findIndex(p)` (as an option): the first position whose element satisfies `p`. */
  function FindIndex<T>(xs: seq<T>, p: T -> bool): (r: Option<nat>)
    ensures r.Some? ==> r.value < |xs| && p(xs[r.value])
    ensures r.Some? ==> forall j :: 0 <= j < r.value ==> !p(xs[j])
    ensures r.None? <==> forall j :: 0 <= j < |xs| ==> !p(xs[j])
    decreases |xs|
  {
    if xs == [] then None
    else if p(xs[0]) then Some(0)
    else match FindIndex(xs[1..], p)
      case None => None
      case Some(k) => Some(k + 1)
  }

  /** `findIndex` after a push: the old answer if there was one, else the new last position if it passes. */
  lemma {:induction false} FindIndexSnoc<T>(xs: seq<T>, x: T, p: T -> bool)
    ensures FindIndex(xs + [x], p) ==
      if FindIndex(xs, p).Some? then FindIndex(xs, p) else if p(x) then Some(|xs|) else None
    decreases |xs|
  {
    if xs == [] {
      assert xs + [x] == [x];
      assert [x][1..] == [];
    } else {
      assert (xs + [x])[0] == xs[0] && (xs + [x])[1..] == xs[1..] + [x];
      FindIndexSnoc(xs[1..], x, p);
    }
  }

  /** Every element satisfies `p` exactly when no element fails `p`. */
  lemma FindNoneIffAll<T>(xs: seq<T>, p: T -> bool, q: T -> bool)
    requires forall x :: q(x) == !p(x)
    ensures FindIndex(xs, q).None? <==> forall j :: 0 <= j < |xs| ==> p(xs[j])
  {
  }

  /** The list with position `k` removed (`xs.filter((_, i) => i !== k)`). */
  function RemoveAt<T>(xs: seq<T>, k: nat): (r: seq<T>)
    ensures k < |xs| ==> |r| == |xs| - 1
    ensures k >= |xs| ==> r == xs
    ensures forall i :: 0 <= i < |r| ==> r[i] == (if i < k then xs[i] else xs[i + 1])
  {
    if k < |xs| then xs[..k] + xs[k + 1..] else xs
  }
}
