/**
 * The array methods of JavaScript that the scripts use, on sequences:
 * `slice`, `filter`, `indexOf`, and the relations used to state what they
 * return (order-preserving subsequence, absence of duplicates).
 */
module JsArrays {

  function Min(a: int, b: int): int { if a <= b then a else b }
  function Max(a: int, b: int): int { if a >= b then a else b }

  /**
   * `s.slice(start, end)`: a negative bound counts from the end, and both
   * bounds are clamped to `[0, |s|]`.
   */
  function Slice<T>(s: seq<T>, start: int, end: int): (r: seq<T>)
    ensures |r| <= |s|
  {
    var from := if start < 0 then Max(|s| + start, 0) else Min(start, |s|);
    var to := if end < 0 then Max(|s| + end, 0) else Min(end, |s|);
    if from < to then s[from..to] else []
  }

  /** With non-negative bounds, `slice` is the clamped subrange `[start, end)`. */
  lemma SliceNonNegative<T>(s: seq<T>, start: int, end: int)
    requires 0 <= start <= end
    ensures Slice(s, start, end) == s[Min(start, |s|)..Min(end, |s|)]
    ensures |Slice(s, start, end)| == Max(0, Min(end, |s|) - start)
  {
  }

  /** With non-negative bounds, element `j` of the slice is element `start + j` of the array. */
  lemma SliceElements<T>(s: seq<T>, start: int, end: int)
    requires 0 <= start <= end
    ensures |Slice(s, start, end)| == Max(0, Min(end, |s|) - start)
    ensures forall j :: 0 <= j < |Slice(s, start, end)| ==> Slice(s, start, end)[j] == s[start + j]
  {
  }

  /** `s.filter(keep)`. */
  function Filter<T>(s: seq<T>, keep: T -> bool): (r: seq<T>)
    ensures |r| <= |s|
  {
    if s == [] then [] else (if keep(s[0]) then [s[0]] else []) + Filter(s[1..], keep)
  }

  /** Everything `filter` returns comes from the array and passes the test. */
  lemma {:induction false} FilterMembers<T>(s: seq<T>, keep: T -> bool)
    ensures forall x :: x in Filter(s, keep) ==> x in s && keep(x)
  {
    if s != [] {
      FilterMembers(s[1..], keep);
    }
  }

  /** `r` is `s` with some elements removed, the rest kept in their order. */
  ghost predicate IsSubsequence<T>(r: seq<T>, s: seq<T>)
    decreases |s|
  {
    if r == [] then true
    else if s == [] then false
    else (r[0] == s[0] && IsSubsequence(r[1..], s[1..])) || IsSubsequence(r, s[1..])
  }

  lemma {:induction false} SubsequenceOfItself<T>(s: seq<T>)
    ensures IsSubsequence(s, s)
  {
    if s != [] {
      SubsequenceOfItself(s[1..]);
    }
  }

  lemma {:induction false} SubsequenceLength<T>(r: seq<T>, s: seq<T>)
    requires IsSubsequence(r, s)
    ensures |r| <= |s|
  {
    if r != [] {
      if r[0] == s[0] && IsSubsequence(r[1..], s[1..]) {
        SubsequenceLength(r[1..], s[1..]);
      } else {
        SubsequenceLength(r, s[1..]);
      }
    }
  }

  /** `filter` keeps the order of what it keeps. */
  lemma {:induction false} FilterIsSubsequence<T>(s: seq<T>, keep: T -> bool)
    ensures IsSubsequence(Filter(s, keep), s)
  {
    if s != [] {
      FilterIsSubsequence(s[1..], keep);
      var r := Filter(s, keep);
      if keep(s[0]) {
        assert r[0] == s[0] && r[1..] == Filter(s[1..], keep);
      } else {
        assert r == Filter(s[1..], keep);
      }
    }
  }

  /**
   * `filter` keeps every element that passes, as often as it occurs, and
   * nothing else: together with `FilterIsSubsequence` this pins the result.
   */
  lemma {:induction false} FilterCounts<T>(s: seq<T>, keep: T -> bool, x: T)
    ensures multiset(Filter(s, keep))[x] == if keep(x) then multiset(s)[x] else 0
  {
    if s != [] {
      FilterCounts(s[1..], keep, x);
      assert s == [s[0]] + s[1..];
      assert multiset(s) == multiset{s[0]} + multiset(s[1..]);
    }
  }

  /** When every element passes, `filter` returns a copy of the whole array. */
  lemma {:induction false} FilterKeepsAll<T>(s: seq<T>, keep: T -> bool)
    requires forall i :: 0 <= i < |s| ==> keep(s[i])
    ensures Filter(s, keep) == s
  {
    if s != [] {
      FilterKeepsAll(s[1..], keep);
      assert [s[0]] + s[1..] == s;
    }
  }

  /** A prefix one element longer is the prefix with that element appended. */
  lemma PrefixSnoc<T>(s: seq<T>, i: nat)
    requires i < |s|
    ensures s[..i + 1] == s[..i] + [s[i]]
  {
  }

  lemma TakeAll<T>(s: seq<T>)
    ensures s[..|s|] == s
  {
  }

  /** Two predicates that agree on the elements give the same filtered array. */
  lemma {:induction false} FilterAgrees<T>(s: seq<T>, p: T -> bool, q: T -> bool)
    requires forall i :: 0 <= i < |s| ==> p(s[i]) == q(s[i])
    ensures Filter(s, p) == Filter(s, q)
  {
    if s != [] {
      FilterAgrees(s[1..], p, q);
    }
  }

  /** Filtering twice is filtering once by the conjunction. */
  lemma {:induction false} FilterTwice<T>(s: seq<T>, p: T -> bool, q: T -> bool, both: T -> bool)
    requires forall i :: 0 <= i < |s| ==> both(s[i]) == (p(s[i]) && q(s[i]))
    ensures Filter(Filter(s, p), q) == Filter(s, both)
  {
    if s != [] {
      assert forall i :: 0 <= i < |s[1..]| ==> s[1..][i] == s[i + 1];
      FilterTwice(s[1..], p, q, both);
      if p(s[0]) {
        assert Filter(s, p) == [s[0]] + Filter(s[1..], p);
        assert Filter(s, p)[1..] == Filter(s[1..], p);
      } else {
        assert Filter(s, p) == Filter(s[1..], p);
      }
    }
  }

  ghost predicate NoDuplicates<T>(s: seq<T>)
  {
    forall i, j :: 0 <= i < j < |s| ==> s[i] != s[j]
  }

  /** A value occurs at most once in an array without duplicates. */
  lemma {:induction false} NoDuplicatesCount<T>(s: seq<T>, x: T)
    requires NoDuplicates(s)
    ensures multiset(s)[x] <= 1
  {
    if s != [] {
      assert s == [s[0]] + s[1..];
      NoDuplicatesCount(s[1..], x);
      if s[0] == x {
        assert x !in s[1..];
      }
    }
  }

  /** Reordering an array without duplicates (same multiset) leaves it without duplicates. */
  lemma PermutationKeepsNoDuplicates<T>(a: seq<T>, b: seq<T>)
    requires NoDuplicates(a) && multiset(a) == multiset(b)
    ensures NoDuplicates(b)
  {
    forall i, j | 0 <= i < j < |b|
      ensures b[i] != b[j]
    {
      if b[i] == b[j] {
        var x := b[i];
        assert b == b[..j] + b[j..];
        assert x in b[..j] && x in b[j..];
        assert multiset(b)[x] == multiset(b[..j])[x] + multiset(b[j..])[x];
        NoDuplicatesCount(a, x);
        assert false;
      }
    }
  }

  /** `s.indexOf(v)` with strict equality: the first index holding `v`, or -1. */
  function ArrayIndexOf<T(==)>(s: seq<T>, v: T): (r: int)
    ensures r == -1 <==> v !in s
    ensures r != -1 ==> 0 <= r < |s| && s[r] == v && v !in s[..r]
  {
    if s == [] then -1
    else if s[0] == v then 0
    else
      var k := ArrayIndexOf(s[1..], v);
      if k == -1 then -1
      else
        assert s[..k + 1] == [s[0]] + s[1..][..k];
        k + 1
  }

  /** `indexOf` finds a value no later than any position that holds it. */
  lemma {:induction false} IndexOfAtMost<T>(s: seq<T>, v: T, k: nat)
    requires k < |s| && s[k] == v
    ensures 0 <= ArrayIndexOf(s, v) <= k
  {
    if s[0] != v {
      IndexOfAtMost(s[1..], v, k - 1);
    }
  }
}
