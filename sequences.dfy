/** Sequence helpers shared by the model: the `Where` filter of LINQ and
    the absence of duplicates. */
module Sequences {

  /** `Enumerable.Where`: the elements of `s` that satisfy `p`, in order. */
  function Where<T(!new)>(s: seq<T>, p: T -> bool): (r: seq<T>)
    ensures |r| <= |s|
    ensures forall x :: x in r <==> x in s && p(x)
  {
    if s == [] then []
    else if p(s[0]) then [s[0]] + Where(s[1..], p)
    else Where(s[1..], p)
  }

  /** Filtering a list of one element keeps it exactly when it satisfies
      the predicate, and filtering the empty list gives the empty list. */
  lemma WhereOfOne<T(!new)>(x: T, p: T -> bool)
    ensures Where([], p) == []
    ensures Where([x], p) == if p(x) then [x] else []
  {
  }

  /** Filtering a concatenation filters each part and keeps them in their
      order. With `WhereOfOne` this fixes `Where` on every list: the kept
      elements keep their order and their multiplicity. */
  lemma {:induction false} WhereAppend<T(!new)>(a: seq<T>, b: seq<T>, p: T -> bool)
    ensures Where(a + b, p) == Where(a, p) + Where(b, p)
  {
    if a == [] {
      assert a + b == b;
    } else {
      assert (a + b)[0] == a[0] && (a + b)[1..] == a[1..] + b;
      WhereAppend(a[1..], b, p);
    }
  }

  /** Filtering with two predicates that agree on every element gives the same result. */
  lemma {:induction false} WhereCongruent<T(!new)>(s: seq<T>, p: T -> bool, q: T -> bool)
    requires forall i :: 0 <= i < |s| ==> p(s[i]) == q(s[i])
    ensures Where(s, p) == Where(s, q)
  {
    if s != [] {
      assert p(s[0]) == q(s[0]);
      WhereCongruent(s[1..], p, q);
    }
  }

  ghost predicate NoDuplicates<T>(s: seq<T>) {
    forall i, j :: 0 <= i < j < |s| ==> s[i] != s[j]
  }
}
