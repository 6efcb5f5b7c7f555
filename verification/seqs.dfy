/** Order-preserving filtering of sequences, used for the "triggered"
    sub-lists of the runner and for the matched patterns of the panic score. */
module Seqs {

  /** `a` is `b` with some elements dropped and the rest kept in order. */
  ghost predicate SubsequenceOf<T>(a: seq<T>, b: seq<T>)
    decreases |b|
  {
    if |a| == 0 then true
    else if |b| == 0 then false
    else if a[0] == b[0] then SubsequenceOf(a[1..], b[1..])
    else SubsequenceOf(a, b[1..])
  }

  /** Number of elements of `s` satisfying `p`. */
  function Count<T>(s: seq<T>, p: T -> bool): nat
  {
    if |s| == 0 then 0
    else (if p(s[0]) then 1 else 0) + Count(s[1..], p)
  }

  /** The elements of `s` that satisfy `p`, in their original order. */
  function Filter<T>(s: seq<T>, p: T -> bool): (r: seq<T>)
    ensures |r| <= |s|
    ensures forall i :: 0 <= i < |r| ==> r[i] in s && p(r[i])
    ensures forall i :: 0 <= i < |s| && p(s[i]) ==> s[i] in r
    ensures SubsequenceOf(r, s)
    ensures |r| == Count(s, p)
  {
    if |s| == 0 then []
    else if p(s[0]) then [s[0]] + Filter(s[1..], p)
    else Filter(s[1..], p)
  }

  /** A filter is empty exactly when no element satisfies the predicate. */
  lemma FilterEmptyIff<T>(s: seq<T>, p: T -> bool)
    ensures |Filter(s, p)| == 0 <==> forall i :: 0 <= i < |s| ==> !p(s[i])
  {
    if |Filter(s, p)| > 0 {
      var x := Filter(s, p)[0];
      assert p(x);
      var i :| 0 <= i < |s| && s[i] == x;
    } else {
      forall i | 0 <= i < |s|
        ensures !p(s[i])
      {
        assert s[i] in s;
      }
    }
  }

  /** Filtering a filtered sequence keeps nothing exactly when no element
      passes both predicates. */
  lemma {:induction false} FilterTwiceEmptyIff<T>(s: seq<T>, q: T -> bool, p: T -> bool)
    ensures |Filter(Filter(s, q), p)| == 0 <==> forall i :: 0 <= i < |s| ==> !(q(s[i]) && p(s[i]))
    decreases |s|
  {
    if |s| > 0 {
      var rest := s[1..];
      FilterTwiceEmptyIff(rest, q, p);
      assert forall i :: 1 <= i < |s| ==> s[i] == rest[i - 1];
      if q(s[0]) {
        var f := [s[0]] + Filter(rest, q);
        assert Filter(s, q) == f;
        assert f[1..] == Filter(rest, q);
      }
    }
  }

  /** `f` applied to every element, in order. */
  function Map<T, U>(s: seq<T>, f: T -> U): (r: seq<U>)
    ensures |r| == |s|
    ensures forall i :: 0 <= i < |s| ==> r[i] == f(s[i])
  {
    if |s| == 0 then [] else [f(s[0])] + Map(s[1..], f)
  }
}
