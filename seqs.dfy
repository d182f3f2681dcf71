/** Sequence helpers shared by the assistant pages and the export script:
    the boolean-mask filter, Python's `xs[:n]` slice, and "duplicate-free". */
module Seqs {

  /** The elements of `s` for which `p` holds, in their original order
      (pandas' `df[mask]`, or a list comprehension with an `if`). */
  function Filter<T>(s: seq<T>, p: T -> bool): (r: seq<T>)
    ensures |r| <= |s|
    ensures forall k :: 0 <= k < |r| ==> r[k] in s && p(r[k])
    ensures forall k :: 0 <= k < |s| && p(s[k]) ==> s[k] in r
  {
    if s == [] then []
    else Filter(s[..|s| - 1], p) + (if p(s[|s| - 1]) then [s[|s| - 1]] else [])
  }

  /** The filter keeps every copy: an element satisfying `p` occurs in the
      result as often as in the input, any other element not at all. */
  lemma {:induction false} FilterCount<T>(s: seq<T>, p: T -> bool)
    ensures forall k :: 0 <= k < |s| ==>
      multiset(Filter(s, p))[s[k]] == if p(s[k]) then multiset(s)[s[k]] else 0
  {
    if s != [] {
      var init, last := s[..|s| - 1], s[|s| - 1];
      FilterCount(init, p);
      assert s == init + [last];
      assert multiset(s) == multiset(init) + multiset{last};
      var r := Filter(s, p);
      assert multiset(r) == multiset(Filter(init, p)) + (if p(last) then multiset{last} else multiset{});
      forall k | 0 <= k < |s|
        ensures multiset(r)[s[k]] == if p(s[k]) then multiset(s)[s[k]] else 0
      {
        var x := s[k];
        if x !in init {
          assert multiset(init)[x] == 0;
          assert x !in Filter(init, p);
        } else {
          var j :| 0 <= j < |init| && init[j] == x;
        }
      }
    }
  }

  /** `a` can be obtained from `b` by deleting elements: order is kept. */
  predicate IsSubseq<T(==)>(a: seq<T>, b: seq<T>)
  {
    if a == [] then true
    else if b == [] then false
    else if a[|a| - 1] == b[|b| - 1] then IsSubseq(a[..|a| - 1], b[..|b| - 1])
    else IsSubseq(a, b[..|b| - 1])
  }

  lemma {:induction false} FilterIsSubseq<T>(s: seq<T>, p: T -> bool)
    ensures IsSubseq(Filter(s, p), s)
  {
    if s != [] {
      var init := s[..|s| - 1];
      FilterIsSubseq(init, p);
      if p(s[|s| - 1]) {
        assert Filter(s, p)[..|Filter(s, p)| - 1] == Filter(init, p);
      } else {
        assert Filter(s, p) == Filter(init, p);
        SubseqOfInit(Filter(init, p), init, s[|s| - 1]);
      }
    }
  }

  /** A subsequence of `b` is also a subsequence of `b` with one more element. */
  lemma {:induction false} SubseqOfInit<T>(a: seq<T>, b: seq<T>, x: T)
    requires IsSubseq(a, b)
    ensures IsSubseq(a, b + [x])
    decreases |a| + |b|, 1
  {
    if a != [] {
      var bx := b + [x];
      assert bx[..|bx| - 1] == b;
      if a[|a| - 1] == x {
        // matching the new last element leaves a[..|a| - 1] against b
        SubseqDropLast(a, b);
      }
    }
  }

  /** Dropping the last element of a subsequence keeps it a subsequence. */
  lemma {:induction false} SubseqDropLast<T>(a: seq<T>, b: seq<T>)
    requires a != [] && IsSubseq(a, b)
    ensures IsSubseq(a[..|a| - 1], b)
    decreases |a| + |b|, 0
  {
    var init := a[..|a| - 1];
    if b != [] {
      var binit := b[..|b| - 1];
      if a[|a| - 1] == b[|b| - 1] {
        assert IsSubseq(init, binit);
        SubseqOfInit(init, binit, b[|b| - 1]);
        assert binit + [b[|b| - 1]] == b;
      } else {
        SubseqDropLast(a, binit);
        SubseqOfInit(init, binit, b[|b| - 1]);
        assert binit + [b[|b| - 1]] == b;
      }
    }
  }

  /** Filtering a concatenation filters each part. */
  lemma {:induction false} FilterAppend<T>(a: seq<T>, b: seq<T>, p: T -> bool)
    ensures Filter(a + b, p) == Filter(a, p) + Filter(b, p)
  {
    if b != [] {
      var ab := a + b;
      assert ab[..|ab| - 1] == a + b[..|b| - 1];
      assert ab[|ab| - 1] == b[|b| - 1];
      FilterAppend(a, b[..|b| - 1], p);
    } else {
      assert a + b == a;
    }
  }

  /** Python's `s[:n]` for a non-negative `n`: the longest prefix of length at most `n`. */
  function Take<T>(s: seq<T>, n: nat): (r: seq<T>)
    ensures r <= s
    ensures |r| == if |s| < n then |s| else n
  {
    if |s| <= n then s else s[..n]
  }

  /** No element occurs twice. */
  predicate Distinct<T(==)>(s: seq<T>)
  {
    forall i, j :: 0 <= i < j < |s| ==> s[i] != s[j]
  }
}
