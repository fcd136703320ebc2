/**
 * `Array.prototype.filter` with a side-effect-free callback: a new array of
 * the elements the callback accepts, in their original order; the source
 * array is left as it is.
 */
module ArrayFilter {

  /** `xs.filter(p)`. */
  function Filter<T>(xs: seq<T>, p: T -> bool): (kept: seq<T>)
    ensures |kept| <= |xs|
    ensures forall i :: 0 <= i < |kept| ==> p(kept[i])
    decreases |xs|
  {
    if xs == [] then []
    else (if p(xs[0]) then [xs[0]] else []) + Filter(xs[1..], p)
  }

  /** The kept elements are exactly the elements of the array the callback accepts. */
  lemma {:induction false} FilterMembers<T>(xs: seq<T>, p: T -> bool)
    ensures forall i :: 0 <= i < |Filter(xs, p)| ==> Filter(xs, p)[i] in xs && p(Filter(xs, p)[i])
    ensures forall i :: 0 <= i < |xs| && p(xs[i]) ==> xs[i] in Filter(xs, p)
    decreases |xs|
  {
    if xs != [] {
      FilterMembers(xs[1..], p);
      var head := if p(xs[0]) then [xs[0]] else [];
      var kept := Filter(xs, p);
      assert kept == head + Filter(xs[1..], p);
      forall i | 0 <= i < |xs| && p(xs[i])
        ensures xs[i] in kept
      {
        if i > 0 {
          assert xs[i] == xs[1..][i - 1];
        }
      }
    }
  }

  /** `a` is `b` with some elements left out, the rest in their original order. */
  ghost predicate SubsequenceOf<T>(a: seq<T>, b: seq<T>)
    decreases |b|
  {
    if a == [] then true
    else if b == [] then false
    else (a[0] == b[0] && SubsequenceOf(a[1..], b[1..])) || SubsequenceOf(a, b[1..])
  }

  /** Dropping the head of `b` keeps `a` a subsequence when `a` already was one of the tail. */
  lemma SubsequenceSkip<T>(a: seq<T>, b: seq<T>)
    requires b != [] && SubsequenceOf(a, b[1..])
    ensures SubsequenceOf(a, b)
  {
  }

  /** The kept elements keep the order of the source array. */
  lemma {:induction false} FilterIsSubsequence<T>(xs: seq<T>, p: T -> bool)
    ensures SubsequenceOf(Filter(xs, p), xs)
    decreases |xs|
  {
    if xs != [] {
      FilterIsSubsequence(xs[1..], p);
      var kept := Filter(xs, p);
      if p(xs[0]) {
        assert kept[0] == xs[0] && kept[1..] == Filter(xs[1..], p);
      } else {
        assert kept == Filter(xs[1..], p);
        SubsequenceSkip(kept, xs);
      }
    }
  }

  /** Every accepted element is kept as often as it occurs, every other one is dropped. */
  lemma {:induction false} FilterCounts<T>(xs: seq<T>, p: T -> bool, x: T)
    ensures multiset(Filter(xs, p))[x] == if p(x) then multiset(xs)[x] else 0
    decreases |xs|
  {
    if xs != [] {
      FilterCounts(xs[1..], p, x);
      assert xs == [xs[0]] + xs[1..];
    }
  }

  /** One step of the filter. */
  lemma FilterCons<T>(xs: seq<T>, p: T -> bool)
    requires xs != []
    ensures Filter(xs, p) == (if p(xs[0]) then [xs[0]] else []) + Filter(xs[1..], p)
  {
  }

  /** Filtering distributes over concatenation. */
  lemma {:induction false} FilterConcat<T>(a: seq<T>, b: seq<T>, p: T -> bool)
    ensures Filter(a + b, p) == Filter(a, p) + Filter(b, p)
    decreases |a|
  {
    if a == [] {
      assert a + b == b;
    } else {
      FilterConcat(a[1..], b, p);
      assert (a + b)[0] == a[0] && (a + b)[1..] == a[1..] + b;
      FilterCons(a + b, p);
      FilterCons(a, p);
    }
  }

  /** Filtering again with the same callback changes nothing. */
  lemma {:induction false} FilterIdempotent<T>(xs: seq<T>, p: T -> bool)
    ensures Filter(Filter(xs, p), p) == Filter(xs, p)
    decreases |xs|
  {
    if xs != [] {
      FilterIdempotent(xs[1..], p);
      FilterConcat(if p(xs[0]) then [xs[0]] else [], Filter(xs[1..], p), p);
    }
  }

  /** Two callbacks that agree on every element of the array keep the same elements. */
  lemma {:induction false} FilterAgrees<T>(xs: seq<T>, p: T -> bool, q: T -> bool)
    requires forall i :: 0 <= i < |xs| ==> p(xs[i]) == q(xs[i])
    ensures Filter(xs, p) == Filter(xs, q)
    decreases |xs|
  {
    if xs != [] {
      FilterAgrees(xs[1..], p, q);
    }
  }

  /** A callback that accepts every element keeps the whole array. */
  lemma {:induction false} FilterKeepsAll<T>(xs: seq<T>, p: T -> bool)
    requires forall i :: 0 <= i < |xs| ==> p(xs[i])
    ensures Filter(xs, p) == xs
    decreases |xs|
  {
    if xs != [] {
      FilterKeepsAll(xs[1..], p);
    }
  }

  /** A callback that accepts no element keeps nothing. */
  lemma {:induction false} FilterKeepsNone<T>(xs: seq<T>, p: T -> bool)
    requires forall i :: 0 <= i < |xs| ==> !p(xs[i])
    ensures Filter(xs, p) == []
    decreases |xs|
  {
    if xs != [] {
      FilterKeepsNone(xs[1..], p);
    }
  }

  /** A callback that accepts exactly the element at `k` keeps that element alone. */
  lemma {:induction false} FilterKeepsOne<T>(xs: seq<T>, p: T -> bool, k: nat)
    requires k < |xs| && p(xs[k])
    requires forall i :: 0 <= i < |xs| && i != k ==> !p(xs[i])
    ensures Filter(xs, p) == [xs[k]]
    decreases |xs|
  {
    if k == 0 {
      FilterKeepsNone(xs[1..], p);
    } else {
      FilterKeepsOne(xs[1..], p, k - 1);
    }
  }

  /** A callback that accepts a prefix of the array and nothing after it keeps that prefix. */
  lemma {:induction false} FilterKeepsPrefix<T>(xs: seq<T>, p: T -> bool, m: nat)
    requires m <= |xs|
    requires forall i :: 0 <= i < m ==> p(xs[i])
    requires forall i :: m <= i < |xs| ==> !p(xs[i])
    ensures Filter(xs, p) == xs[..m]
    decreases |xs|
  {
    if m == 0 {
      FilterKeepsNone(xs, p);
    } else {
      FilterKeepsPrefix(xs[1..], p, m - 1);
      assert xs[..m] == [xs[0]] + xs[1..][..m - 1];
    }
  }

  /** The result is empty exactly when the callback accepts no element. */
  lemma FilterEmptyIffNoneAccepted<T>(xs: seq<T>, p: T -> bool)
    ensures Filter(xs, p) == [] <==> forall i :: 0 <= i < |xs| ==> !p(xs[i])
  {
    FilterMembers(xs, p);
    var kept := Filter(xs, p);
    if kept != [] {
      var j :| 0 <= j < |xs| && xs[j] == kept[0];
      assert p(xs[j]);
    }
  }
}
