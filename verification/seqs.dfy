/** Order-preserving selection over sequences, the model of JavaScript's `Array.prototype.filter`. */
module Seqs {

  /** The elements of `xs` that satisfy `p`, in their original order. */
  function Filter<T>(xs: seq<T>, p: T -> bool): (r: seq<T>)
    ensures |r| <= |xs|
    ensures forall i :: 0 <= i < |r| ==> p(r[i])
  {
    if |xs| == 0 then []
    else (if p(xs[0]) then [xs[0]] else []) + Filter(xs[1..], p)
  }

  /** When every element passes, nothing is dropped; when none does, nothing is kept. */
  lemma {:induction false} FilterAllOrNone<T>(xs: seq<T>, p: T -> bool)
    ensures (forall i :: 0 <= i < |xs| ==> p(xs[i])) ==> Filter(xs, p) == xs
    ensures (forall i :: 0 <= i < |xs| ==> !p(xs[i])) ==> Filter(xs, p) == []
  {
    if |xs| > 0 {
      FilterAllOrNone(xs[1..], p);
    }
  }

  /** What is kept comes from `xs`, and every element of `xs` that passes the test is kept. */
  lemma {:induction false} FilterMembers<T>(xs: seq<T>, p: T -> bool)
    ensures forall i :: 0 <= i < |Filter(xs, p)| ==> Filter(xs, p)[i] in xs
    ensures forall i :: 0 <= i < |xs| && p(xs[i]) ==> xs[i] in Filter(xs, p)
  {
    if |xs| > 0 {
      FilterMembers(xs[1..], p);
      var r := Filter(xs, p);
      var h := if p(xs[0]) then [xs[0]] else [];
      assert r == h + Filter(xs[1..], p);
      forall i | 0 <= i < |xs| && p(xs[i])
        ensures xs[i] in r
      {
        if i > 0 {
          assert xs[i] == xs[1..][i - 1];
        }
      }
    }
  }

  /** Both tests at once. */
  function Both<T>(p: T -> bool, q: T -> bool): T -> bool {
    x => p(x) && q(x)
  }

  /** Filtering distributes over concatenation: selection is element-by-element. */
  lemma {:induction false} FilterConcat<T>(xs: seq<T>, ys: seq<T>, p: T -> bool)
    ensures Filter(xs + ys, p) == Filter(xs, p) + Filter(ys, p)
  {
    if |xs| == 0 {
      assert xs + ys == ys;
    } else {
      assert (xs + ys)[1..] == xs[1..] + ys;
      FilterConcat(xs[1..], ys, p);
    }
  }

  /** Selecting twice is selecting once by the conjunction of both tests. */
  lemma {:induction false} FilterFilter<T>(xs: seq<T>, p: T -> bool, q: T -> bool)
    ensures Filter(Filter(xs, p), q) == Filter(xs, Both(p, q))
  {
    if |xs| > 0 {
      var rest := Filter(xs[1..], p);
      FilterFilter(xs[1..], p, q);
      if p(xs[0]) {
        var ys := [xs[0]] + rest;
        assert Filter(xs, p) == ys;
        assert ys[1..] == rest;
        assert Filter(ys, q) == (if q(xs[0]) then [xs[0]] else []) + Filter(rest, q);
      } else {
        assert Filter(xs, p) == rest;
      }
    }
  }

  /** Two tests that agree on every element of `xs` select the same elements. */
  lemma {:induction false} FilterAgree<T>(xs: seq<T>, p: T -> bool, q: T -> bool)
    requires forall i :: 0 <= i < |xs| ==> p(xs[i]) == q(xs[i])
    ensures Filter(xs, p) == Filter(xs, q)
  {
    if |xs| > 0 {
      FilterAgree(xs[1..], p, q);
    }
  }

  /** A relation that holds between every earlier and later element of `xs` still holds after
      filtering, since filtering keeps the order. */
  lemma {:induction false} FilterPairwise<T>(xs: seq<T>, p: T -> bool, rel: (T, T) -> bool)
    requires forall i, j :: 0 <= i < j < |xs| ==> rel(xs[i], xs[j])
    ensures forall i, j :: 0 <= i < j < |Filter(xs, p)| ==> rel(Filter(xs, p)[i], Filter(xs, p)[j])
  {
    if |xs| > 0 {
      var rest := Filter(xs[1..], p);
      FilterPairwise(xs[1..], p, rel);
      FilterMembers(xs[1..], p);
      if p(xs[0]) {
        var r := [xs[0]] + rest;
        assert Filter(xs, p) == r;
        forall i, j | 0 <= i < j < |r|
          ensures rel(r[i], r[j])
        {
          if i == 0 {
            assert r[j] == rest[j - 1];
            assert rest[j - 1] in xs[1..];
            var k :| 0 <= k < |xs[1..]| && xs[1..][k] == rest[j - 1];
            assert xs[k + 1] == r[j];
          } else {
            assert r[i] == rest[i - 1] && r[j] == rest[j - 1];
          }
        }
      } else {
        assert Filter(xs, p) == rest;
      }
    }
  }

  /** Two sequences that differ only at elements the test drops, and that the test judges alike
      position by position, select the same elements. */
  lemma {:induction false} FilterIgnoresDropped<T>(xs: seq<T>, ys: seq<T>, p: T -> bool)
    requires |xs| == |ys|
    requires forall i :: 0 <= i < |xs| ==> p(xs[i]) == p(ys[i])
    requires forall i :: 0 <= i < |xs| && p(xs[i]) ==> xs[i] == ys[i]
    ensures Filter(xs, p) == Filter(ys, p)
  {
    if |xs| > 0 {
      FilterIgnoresDropped(xs[1..], ys[1..], p);
    }
  }
}

