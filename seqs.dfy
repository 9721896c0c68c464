/** Order-preserving deletion on sequences: the meaning of `Array.prototype.filter`
    and of a global regular-expression replace by the empty string. */
module Seqs {

  /** The elements of `s` that satisfy `keep`, in their original order. */
  function Filter<T>(s: seq<T>, keep: T -> bool): (r: seq<T>)
    ensures |r| <= |s|
    ensures forall i :: 0 <= i < |r| ==> keep(r[i])
  {
    if s == [] then []
    else if keep(s[0]) then [s[0]] + Filter(s[1..], keep)
    else Filter(s[1..], keep)
  }

  /** `a` can be obtained from `b` by deleting elements. */
  predicate IsSubsequence<T(==)>(a: seq<T>, b: seq<T>)
    decreases |b|
  {
    a == [] || (b != [] && ((a[0] == b[0] && IsSubsequence(a[1..], b[1..])) || IsSubsequence(a, b[1..])))
  }

  lemma {:induction false} FilterIsSubsequence<T>(s: seq<T>, keep: T -> bool)
    ensures IsSubsequence(Filter(s, keep), s)
  {
    if s != [] {
      FilterIsSubsequence(s[1..], keep);
    }
  }

  /** Every element is kept exactly as often as it occurs when `keep` holds of it,
      and dropped entirely otherwise. */
  lemma {:induction false} FilterCount<T>(s: seq<T>, keep: T -> bool, x: T)
    ensures multiset(Filter(s, keep))[x] == if keep(x) then multiset(s)[x] else 0
  {
    if s != [] {
      FilterCount(s[1..], keep, x);
      assert s == [s[0]] + s[1..];
    }
  }

  lemma FilterMembership<T>(s: seq<T>, keep: T -> bool, x: T)
    ensures x in Filter(s, keep) <==> x in s && keep(x)
  {
    FilterCount(s, keep, x);
    assert x in Filter(s, keep) <==> multiset(Filter(s, keep))[x] > 0;
    assert x in s <==> multiset(s)[x] > 0;
  }

  lemma {:induction false} FilterAppend<T>(a: seq<T>, b: seq<T>, keep: T -> bool)
    ensures Filter(a + b, keep) == Filter(a, keep) + Filter(b, keep)
  {
    if a == [] {
      assert a + b == b;
    } else {
      assert (a + b)[0] == a[0];
      assert (a + b)[1..] == a[1..] + b;
      FilterAppend(a[1..], b, keep);
    }
  }

  /** A sequence all of whose elements are kept is its own filter. */
  lemma {:induction false} FilterAllKept<T>(s: seq<T>, keep: T -> bool)
    requires forall i :: 0 <= i < |s| ==> keep(s[i])
    ensures Filter(s, keep) == s
  {
    if s != [] {
      FilterAllKept(s[1..], keep);
    }
  }

  /** A sequence none of whose elements is kept filters to nothing. */
  lemma {:induction false} FilterNoneKept<T>(s: seq<T>, keep: T -> bool)
    requires forall i :: 0 <= i < |s| ==> !keep(s[i])
    ensures Filter(s, keep) == []
  {
    if s != [] {
      FilterNoneKept(s[1..], keep);
    }
  }

  lemma FilterIdempotent<T>(s: seq<T>, keep: T -> bool)
    ensures Filter(Filter(s, keep), keep) == Filter(s, keep)
  {
    FilterAllKept(Filter(s, keep), keep);
  }

  /** No element occurs twice. */
  ghost predicate Distinct<T>(s: seq<T>) {
    forall i, j :: 0 <= i < j < |s| ==> s[i] != s[j]
  }

  /** Filtering a sequence without repetitions gives one without repetitions. */
  lemma {:induction false} FilterDistinct<T>(s: seq<T>, keep: T -> bool)
    requires Distinct(s)
    ensures Distinct(Filter(s, keep))
  {
    if s != [] {
      FilterDistinct(s[1..], keep);
      if keep(s[0]) {
        var rest := Filter(s[1..], keep);
        forall k | 0 <= k < |rest|
          ensures rest[k] != s[0]
        {
          FilterMembership(s[1..], keep, rest[k]);
        }
      }
    }
  }

  /** The length of the leading run of elements satisfying `p`. */
  function Leading<T>(s: seq<T>, p: T -> bool): (n: nat)
    ensures n <= |s|
    ensures forall k :: 0 <= k < n ==> p(s[k])
    ensures n < |s| ==> !p(s[n])
  {
    if s != [] && p(s[0]) then 1 + Leading(s[1..], p) else 0
  }
  /** The length of the trailing run of elements satisfying `p`. */
  function Trailing<T>(s: seq<T>, p: T -> bool): (n: nat)
    ensures n <= |s|
    ensures forall k :: |s| - n <= k < |s| ==> p(s[k])
    ensures n < |s| ==> !p(s[|s| - n - 1])
  {
    if s != [] && p(s[|s| - 1]) then 1 + Trailing(s[..|s| - 1], p) else 0
  }
  /** `s` without its leading and trailing runs of elements satisfying `p`. */
  function Strip<T>(s: seq<T>, p: T -> bool): seq<T> {
    var rest := s[Leading(s, p)..];
    rest[..|rest| - Trailing(rest, p)]
  }
  /** Stripping leaves an infix, surrounded only by stripped elements, that
      neither starts nor ends with one. */
  lemma StripShape<T>(s: seq<T>, p: T -> bool)
    ensures var t, i := Strip(s, p), Leading(s, p);
      && i + |t| <= |s| && s[i..i + |t|] == t
      && (forall k :: 0 <= k < i ==> p(s[k]))
      && (forall k :: i + |t| <= k < |s| ==> p(s[k]))
      && (t != [] ==> !p(t[0]) && !p(t[|t| - 1]))
  {
    var i := Leading(s, p);
    var rest := s[i..];
    var t := Strip(s, p);
    forall k | i + |t| <= k < |s|
      ensures p(s[k])
    {
      assert s[k] == rest[k - i];
    }
  }
  /** Stripping leaves nothing exactly when every element is stripped. */
  lemma StripEmptyIff<T>(s: seq<T>, p: T -> bool)
    ensures Strip(s, p) == [] <==> forall k :: 0 <= k < |s| ==> p(s[k])
  {
    StripShape(s, p);
  }
  lemma StripIdempotent<T>(s: seq<T>, p: T -> bool)
    ensures Strip(Strip(s, p), p) == Strip(s, p)
  {
    var t := Strip(s, p);
    StripShape(s, p);
    if t != [] {
      assert Leading(t, p) == 0;
      assert Trailing(t, p) == 0;
    }
  }
}
