/** Sequence helpers shared by the service loops and the frontend filters. */
module Lists {

  /** The elements of `s` that satisfy `p`, in their original order (JavaScript's
      `Array.filter`, and every `for` loop that appends the matching elements to a list). */
  function Filter<T>(s: seq<T>, p: T -> bool): (r: seq<T>)
    ensures |r| <= |s|
    ensures forall x :: x in r ==> x in s
  {
    if s == [] then [] else Filter(s[..|s| - 1], p) + (if p(s[|s| - 1]) then [s[|s| - 1]] else [])
  }

  /** `t` is obtained from `s` by deleting elements: it keeps their relative order. */
  ghost predicate IsSubsequence<T>(t: seq<T>, s: seq<T>)
  {
    || t == []
    || (&& s != []
        && ((t[|t| - 1] == s[|s| - 1] && IsSubsequence(t[..|t| - 1], s[..|s| - 1]))
            || IsSubsequence(t, s[..|s| - 1])))
  }

  /** The table entries with keys 1..n, in key order: how the ledger hands its
      id-keyed tables out as lists. */
  function Ordered<T>(m: map<nat, T>, n: nat): (r: seq<T>)
    requires forall i: nat :: 1 <= i <= n ==> i in m
    ensures |r| == n
  {
    if n == 0 then [] else Ordered(m, n - 1) + [m[n]]
  }

  lemma {:induction false} OrderedAt<T>(m: map<nat, T>, n: nat, k: nat)
    requires forall i: nat :: 1 <= i <= n ==> i in m
    requires k < n
    ensures Ordered(m, n)[k] == m[k + 1]
  {
    if k < n - 1 {
      OrderedAt(m, n - 1, k);
    }
  }

  /** Appending one element extends the filter by that element exactly when it matches. */
  lemma FilterSnoc<T>(s: seq<T>, x: T, p: T -> bool)
    ensures Filter(s + [x], p) == Filter(s, p) + (if p(x) then [x] else [])
  {
    assert (s + [x])[..|s + [x]| - 1] == s;
  }

  /** An element is kept if and only if it occurs in the input and satisfies the predicate. */
  lemma {:induction false} FilterMembership<T>(s: seq<T>, p: T -> bool, x: T)
    ensures x in Filter(s, p) <==> x in s && p(x)
  {
    if s != [] {
      var s' := s[..|s| - 1];
      assert s == s' + [s[|s| - 1]];
      FilterMembership(s', p, x);
    }
  }

  /** Every kept element satisfies the predicate. */
  lemma {:induction false} FilterAll<T>(s: seq<T>, p: T -> bool)
    ensures forall k :: 0 <= k < |Filter(s, p)| ==> p(Filter(s, p)[k])
  {
    if s != [] {
      FilterAll(s[..|s| - 1], p);
    }
  }

  /** The filter result is a subsequence of the input: ledger order is preserved. */
  lemma {:induction false} FilterIsSubsequence<T>(s: seq<T>, p: T -> bool)
    ensures IsSubsequence(Filter(s, p), s)
  {
    if s != [] {
      var s' := s[..|s| - 1];
      FilterIsSubsequence(s', p);
      if p(s[|s| - 1]) {
        var f := Filter(s, p);
        assert f[..|f| - 1] == Filter(s', p);
      } else {
        assert Filter(s, p) == Filter(s', p);
      }
    }
  }
}
