/**
 * The string methods of JavaScript that the scripts use and that can be
 * stated exactly: `indexOf`, `split` on one character, and `padStart`.
 */
module JsStrings {

  /** `pat` occurs in `s` starting at position `k`. */
  predicate OccursAt(s: string, pat: string, k: int)
  {
    0 <= k && k + |pat| <= |s| && s[k..k + |pat|] == pat
  }

  ghost predicate IsSubstring(pat: string, s: string)
  {
    exists k :: OccursAt(s, pat, k)
  }

  /** `s.indexOf(pat, from)`: the first position at or after `from` where `pat` occurs, or -1. */
  function IndexOfFrom(s: string, pat: string, from: nat): (r: int)
    requires from <= |s|
    decreases |s| - from
    ensures r == -1 || (from <= r && OccursAt(s, pat, r))
    ensures r == -1 ==> forall k :: from <= k ==> !OccursAt(s, pat, k)
    ensures r != -1 ==> forall k :: from <= k < r ==> !OccursAt(s, pat, k)
  {
    if from + |pat| > |s| then -1
    else if s[from..from + |pat|] == pat then from
    else IndexOfFrom(s, pat, from + 1)
  }

  /** `s.indexOf(pat)`. */
  function IndexOf(s: string, pat: string): int
  {
    IndexOfFrom(s, pat, 0)
  }

  /** `s.indexOf(pat) != -1` holds exactly when `pat` is a substring of `s`; an empty pattern is found at 0. */
  lemma IndexOfFindsSubstring(s: string, pat: string)
    ensures IndexOf(s, pat) != -1 <==> IsSubstring(pat, s)
    ensures IndexOf(s, pat) != -1 ==> OccursAt(s, pat, IndexOf(s, pat))
    ensures pat == "" ==> IndexOf(s, pat) == 0
  {
    if pat == "" {
      assert OccursAt(s, pat, 0);
    }
  }

  /** Number of occurrences of `c` in `s`. */
  function Count(s: string, c: char): nat
  {
    if s == [] then 0 else (if s[0] == c then 1 else 0) + Count(s[1..], c)
  }

  /** `s.split(sep)` for a one-character separator. */
  function Split(s: string, sep: char): (parts: seq<string>)
    ensures |parts| == Count(s, sep) + 1
  {
    if s == [] then [""]
    else
      var rest := Split(s[1..], sep);
      if s[0] == sep then [""] + rest
      else [[s[0]] + rest[0]] + rest[1..]
  }

  /** A string without the separator splits into itself. */
  lemma {:induction false} SplitWithoutSeparator(s: string, sep: char)
    requires sep !in s
    ensures Split(s, sep) == [s]
  {
    if s != [] {
      assert sep !in s[1..];
      SplitWithoutSeparator(s[1..], sep);
      assert [s[0]] + s[1..] == s;
    }
  }

  /** Splitting at a separator splits the two sides independently. */
  lemma {:induction false} SplitAtSeparator(a: string, b: string, sep: char)
    ensures Split(a + [sep] + b, sep) == Split(a, sep) + Split(b, sep)
  {
    if a == [] {
      assert a + [sep] + b == [sep] + b;
      assert ([sep] + b)[1..] == b;
    } else {
      assert (a + [sep] + b)[1..] == a[1..] + [sep] + b;
      assert (a + [sep] + b)[0] == a[0];
      SplitAtSeparator(a[1..], b, sep);
    }
  }

  /** `s.padStart(n, c)` with a one-character pad string. */
  function PadStart(s: string, n: nat, c: char): (r: string)
    ensures |s| >= n ==> r == s
    ensures |s| < n ==> |r| == n && r[n - |s|..] == s && forall k :: 0 <= k < n - |s| ==> r[k] == c
  {
    if |s| >= n then s else Repeat(c, n - |s|) + s
  }

  function Repeat(c: char, n: nat): (r: string)
    ensures |r| == n && forall k :: 0 <= k < n ==> r[k] == c
  {
    if n == 0 then "" else [c] + Repeat(c, n - 1)
  }
}
