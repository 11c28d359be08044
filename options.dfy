/**
 * The option lists of the filter selects: the distinct values a field takes
 * across the loaded jobs (by a `Set`, by an `indexOf` test, or by a
 * `push`-if-absent loop), optionally sorted with `localeCompare`.
 */
module Options {
  import opened Js
  import opened JsArrays

  /**
   * `[...new Set(s)]`: every value once, at the place of its first
   * occurrence (a `Set` ignores a value it already holds).
   */
  function Distinct(s: seq<Value>): (d: seq<Value>)
    ensures NoDuplicates(d)
    ensures forall v :: v in d <==> v in s
  {
    if s == [] then []
    else
      var d := Distinct(s[..|s| - 1]);
      var x := s[|s| - 1];
      assert s == s[..|s| - 1] + [x];
      if x in d then d else d + [x]
  }

  /** Appending to an array does not move the first occurrence of a value already in it. */
  lemma FirstIndexAfterAppend(t: seq<Value>, x: Value, v: Value)
    ensures v in t ==> ArrayIndexOf(t + [x], v) == ArrayIndexOf(t, v)
    ensures v !in t && v == x ==> ArrayIndexOf(t + [x], v) == |t|
  {
    var s := t + [x];
    if v in t {
      var r, r' := ArrayIndexOf(s, v), ArrayIndexOf(t, v);
      assert s[..r'] == t[..r'];
      IndexOfAtMost(s, v, r');
    }
  }

  /** The distinct values are listed in the order of their first occurrences. */
  lemma {:induction false} DistinctKeepsFirstOccurrenceOrder(s: seq<Value>)
    ensures forall i, j :: 0 <= i < j < |Distinct(s)| ==>
      ArrayIndexOf(s, Distinct(s)[i]) < ArrayIndexOf(s, Distinct(s)[j])
  {
    if s != [] {
      var t, x := s[..|s| - 1], s[|s| - 1];
      assert s == t + [x];
      DistinctKeepsFirstOccurrenceOrder(t);
      var d := Distinct(t);
      forall v | v in d
        ensures ArrayIndexOf(s, v) == ArrayIndexOf(t, v) < |t|
      {
        FirstIndexAfterAppend(t, x, v);
      }
      if x !in d {
        FirstIndexAfterAppend(t, x, x);
        assert Distinct(s) == d + [x];
      }
    }
  }

  /** The elements among the first `n` that are the first occurrence of their value. */
  function FirstOccurrences(s: seq<Value>, n: nat): seq<Value>
    requires n <= |s|
  {
    if n == 0 then []
    else FirstOccurrences(s, n - 1) + (if ArrayIndexOf(s, s[n - 1]) == n - 1 then [s[n - 1]] else [])
  }

  /** `s.filter((value, index, self) => self.indexOf(value) === index)`. */
  function KeepFirstOccurrences(s: seq<Value>): seq<Value>
  {
    FirstOccurrences(s, |s|)
  }

  lemma {:induction false} FirstOccurrencesAreDistinct(s: seq<Value>, n: nat)
    requires n <= |s|
    ensures FirstOccurrences(s, n) == Distinct(s[..n])
  {
    if n > 0 {
      FirstOccurrencesAreDistinct(s, n - 1);
      var x := s[n - 1];
      assert s[..n][..n - 1] == s[..n - 1];
      assert s[..n][n - 1] == x;
      var r := ArrayIndexOf(s, x);
      IndexOfAtMost(s, x, n - 1);
      assert r == n - 1 <==> x !in s[..n - 1];
    }
  }

  /** The `indexOf` filter and the `Set` give the same list. */
  lemma KeepFirstOccurrencesIsDistinct(s: seq<Value>)
    ensures KeepFirstOccurrences(s) == Distinct(s)
  {
    FirstOccurrencesAreDistinct(s, |s|);
    assert s[..|s|] == s;
  }

  /**
   * The order `Array.prototype.sort` produces with the comparator
   * `(a, b) => a.localeCompare(b)`: `undefined` goes last without the
   * comparator being called, strings are ordered by `localeCompare`.
   */
  predicate Before(lib: Lib, a: Value, b: Value)
  {
    if b == Undefined then true
    else if a == Undefined then false
    else if a.Str? && b.Str? then LocaleLeq(lib, a.s, b.s)
    else true
  }

  ghost predicate StringsOrUndefined(s: seq<Value>)
  {
    forall v :: v in s ==> v.Str? || v == Undefined
  }

  ghost predicate SortedBy(lib: Lib, s: seq<Value>)
  {
    forall i, j :: 0 <= i < j < |s| ==> Before(lib, s[i], s[j])
  }

  function Insert(lib: Lib, x: Value, s: seq<Value>): (r: seq<Value>)
    ensures multiset(r) == multiset(s) + multiset{x}
  {
    if s == [] then [x]
    else if Before(lib, x, s[0]) then [x] + s
    else
      assert s == [s[0]] + s[1..];
      [s[0]] + Insert(lib, x, s[1..])
  }

  /** `values.sort((a, b) => a.localeCompare(b))`, a stable sort. */
  function Sort(lib: Lib, s: seq<Value>): (r: seq<Value>)
    ensures multiset(r) == multiset(s)
  {
    if s == [] then []
    else
      assert s == [s[0]] + s[1..];
      Insert(lib, s[0], Sort(lib, s[1..]))
  }

  lemma BeforeIsPreorder(lib: Lib, a: Value, b: Value, c: Value)
    requires LocaleCompareIsPreorder(lib)
    requires a.Str? || a == Undefined
    requires b.Str? || b == Undefined
    requires c.Str? || c == Undefined
    ensures Before(lib, a, b) || Before(lib, b, a)
    ensures Before(lib, a, b) && Before(lib, b, c) ==> Before(lib, a, c)
  {
  }

  /** A value that comes before every element of a sorted list can head it. */
  lemma ConsSorted(lib: Lib, a: Value, t: seq<Value>)
    requires SortedBy(lib, t)
    requires forall v :: v in t ==> Before(lib, a, v)
    ensures SortedBy(lib, [a] + t)
  {
    var r := [a] + t;
    forall i, j | 0 <= i < j < |r|
      ensures Before(lib, r[i], r[j])
    {
      assert r[j] == t[j - 1];
      if i > 0 {
        assert r[i] == t[i - 1];
      }
    }
  }

  /** Inserting into a sorted list of strings and `undefined` keeps it sorted. */
  lemma {:induction false} InsertKeepsSorted(lib: Lib, x: Value, s: seq<Value>)
    requires LocaleCompareIsPreorder(lib)
    requires StringsOrUndefined(s + [x])
    requires SortedBy(lib, s)
    ensures SortedBy(lib, Insert(lib, x, s))
  {
    assert x in s + [x];
    if s != [] {
      assert s[0] in s + [x];
      if Before(lib, x, s[0]) {
        forall v | v in s
          ensures Before(lib, x, v)
        {
          assert v in s + [x];
          BeforeIsPreorder(lib, x, s[0], v);
        }
        ConsSorted(lib, x, s);
      } else {
        BeforeIsPreorder(lib, x, s[0], s[0]);
        var rest := Insert(lib, x, s[1..]);
        assert StringsOrUndefined(s[1..] + [x]) by {
          forall v | v in s[1..] + [x] ensures v in s + [x] { }
        }
        assert SortedBy(lib, s[1..]) by {
          forall i, j | 0 <= i < j < |s[1..]| ensures Before(lib, s[1..][i], s[1..][j]) {
            assert s[1..][i] == s[i + 1] && s[1..][j] == s[j + 1];
          }
        }
        InsertKeepsSorted(lib, x, s[1..]);
        forall v | v in rest
          ensures Before(lib, s[0], v)
        {
          assert v in multiset(rest);
          if v != x {
            assert v in s[1..];
            var j :| 0 <= j < |s[1..]| && s[1..][j] == v;
            assert s[j + 1] == v;
          }
        }
        ConsSorted(lib, s[0], rest);
      }
    }
  }

  /** Sorting strings (and `undefined`) with a preorder comparator yields a sorted list, `undefined` last. */
  lemma {:induction false} SortSorts(lib: Lib, s: seq<Value>)
    requires LocaleCompareIsPreorder(lib)
    requires StringsOrUndefined(s)
    ensures SortedBy(lib, Sort(lib, s))
    ensures forall i, j :: 0 <= i < j < |Sort(lib, s)| && Sort(lib, s)[i] == Undefined ==> Sort(lib, s)[j] == Undefined
  {
    if s != [] {
      assert StringsOrUndefined(s[1..]) by {
        forall v | v in s[1..] ensures v in s { }
      }
      SortSorts(lib, s[1..]);
      var t := Sort(lib, s[1..]);
      assert StringsOrUndefined(t + [s[0]]) by {
        forall v | v in t + [s[0]]
          ensures v in s
        {
          if v != s[0] {
            assert v in multiset(t);
          }
        }
      }
      InsertKeepsSorted(lib, s[0], t);
    }
  }

  /** The comparator puts neither of `a` and `b` before the other: `localeCompare` returns 0, or both are `undefined`. */
  predicate Tied(lib: Lib, a: Value, b: Value)
  {
    Before(lib, a, b) && Before(lib, b, a)
  }

  /** The elements of `s` tied with `v`, in the order of `s`. */
  function TiedWith(lib: Lib, v: Value, s: seq<Value>): seq<Value>
  {
    if s == [] then []
    else (if Tied(lib, v, s[0]) then [s[0]] else []) + TiedWith(lib, v, s[1..])
  }

  lemma TiedWithCons(lib: Lib, v: Value, a: Value, s: seq<Value>)
    ensures TiedWith(lib, v, [a] + s) == (if Tied(lib, v, a) then [a] else []) + TiedWith(lib, v, s)
  {
    assert ([a] + s)[1..] == s;
  }

  /**
   * Inserting `x` passes only elements that must come before it; when none
   * of them is tied with `x` (the comparator would put `x` first), the
   * elements tied with `v` keep their order, `x` first among them when it is
   * one of them.
   */
  lemma {:induction false} InsertKeepsTiedOrder(lib: Lib, v: Value, x: Value, s: seq<Value>)
    requires Tied(lib, v, x) ==> forall y :: y in s && Tied(lib, v, y) ==> Before(lib, x, y)
    ensures TiedWith(lib, v, Insert(lib, x, s)) == (if Tied(lib, v, x) then [x] else []) + TiedWith(lib, v, s)
  {
    if s == [] {
      TiedWithCons(lib, v, x, []);
    } else if Before(lib, x, s[0]) {
      TiedWithCons(lib, v, x, s);
    } else {
      assert s[0] in s;
      InsertKeepsTiedOrder(lib, v, x, s[1..]);
      InsertPastUntied(lib, v, x, s);
    }
  }

  /** `Insert` passing `s[0]`, which is not tied with `v` when `x` is, keeps the elements tied with `v` in order. */
  lemma InsertPastUntied(lib: Lib, v: Value, x: Value, s: seq<Value>)
    requires s != [] && !Before(lib, x, s[0])
    requires Tied(lib, v, x) ==> !Tied(lib, v, s[0])
    requires TiedWith(lib, v, Insert(lib, x, s[1..])) == (if Tied(lib, v, x) then [x] else []) + TiedWith(lib, v, s[1..])
    ensures TiedWith(lib, v, Insert(lib, x, s)) == (if Tied(lib, v, x) then [x] else []) + TiedWith(lib, v, s)
  {
    var hx := if Tied(lib, v, x) then [x] else [];
    var h0 := if Tied(lib, v, s[0]) then [s[0]] else [];
    var r, rest := Insert(lib, x, s[1..]), TiedWith(lib, v, s[1..]);
    assert Insert(lib, x, s) == [s[0]] + r;
    TiedWithCons(lib, v, s[0], r);
    assert TiedWith(lib, v, Insert(lib, x, s)) == h0 + (hx + rest);
    assert s == [s[0]] + s[1..];
    TiedWithCons(lib, v, s[0], s[1..]);
    assert TiedWith(lib, v, s) == h0 + rest;
    SwapWithEmpty(h0, hx, rest);
  }

  lemma SwapWithEmpty(a: seq<Value>, b: seq<Value>, rest: seq<Value>)
    requires a == [] || b == []
    ensures a + (b + rest) == b + (a + rest)
  {
    if a == [] {
      assert a + (b + rest) == b + rest == b + (a + rest);
    } else {
      assert a + (b + rest) == a + rest == b + (a + rest);
    }
  }

  /**
   * `Array.prototype.sort` is stable: values the comparator ties appear in
   * the sorted list in the order they had before.
   */
  lemma {:induction false} SortIsStable(lib: Lib, v: Value, s: seq<Value>)
    requires LocaleCompareIsPreorder(lib)
    requires v.Str? || v == Undefined
    requires StringsOrUndefined(s)
    ensures TiedWith(lib, v, Sort(lib, s)) == TiedWith(lib, v, s)
  {
    if s != [] {
      assert StringsOrUndefined(s[1..]) by {
        forall w | w in s[1..] ensures w in s { }
      }
      SortIsStable(lib, v, s[1..]);
      var t := Sort(lib, s[1..]);
      if Tied(lib, v, s[0]) {
        forall y | y in t && Tied(lib, v, y)
          ensures Before(lib, s[0], y)
        {
          assert y in multiset(t);
          assert y in s[1..];
          assert y in s;
          BeforeIsPreorder(lib, s[0], v, y);
        }
      }
      InsertKeepsTiedOrder(lib, v, s[0], t);
    }
  }

  /** The option list of the select for `property`: the distinct values the jobs take for it, sorted with `localeCompare` (`[...new Set(values)].sort(...)`). */
  function FilterValues(lib: Lib, jobs: seq<Job>, property: string): seq<Value>
  {
    Sort(lib, Distinct(FieldValues(jobs, property)))
  }

  /** Each value the jobs take for the property is offered once, and nothing else is. */
  lemma FilterValuesDistinct(lib: Lib, jobs: seq<Job>, property: string)
    ensures NoDuplicates(FilterValues(lib, jobs, property))
    ensures forall v :: v in FilterValues(lib, jobs, property) <==> exists i :: 0 <= i < |jobs| && Get(jobs[i], property) == v
  {
    var d := Distinct(FieldValues(jobs, property));
    var r := Sort(lib, d);
    PermutationKeepsNoDuplicates(d, r);
    var vs := FieldValues(jobs, property);
    forall v
      ensures v in r <==> exists i :: 0 <= i < |jobs| && Get(jobs[i], property) == v
    {
      assert v in r <==> v in multiset(d);
      if v in vs {
        var i :| 0 <= i < |vs| && vs[i] == v;
        assert Get(jobs[i], property) == v;
      }
      if exists i :: 0 <= i < |jobs| && Get(jobs[i], property) == v {
        var i :| 0 <= i < |jobs| && Get(jobs[i], property) == v;
        assert vs[i] == v;
      }
    }
  }

  /** With a comparator that orders strings, the option list is sorted and a missing value (`undefined`) comes last. */
  lemma FilterValuesSorted(lib: Lib, jobs: seq<Job>, property: string)
    requires LocaleCompareIsPreorder(lib)
    requires forall i :: 0 <= i < |jobs| ==> Get(jobs[i], property).Str? || Get(jobs[i], property) == Undefined
    ensures SortedBy(lib, FilterValues(lib, jobs, property))
    ensures forall i, j :: 0 <= i < j < |FilterValues(lib, jobs, property)| && FilterValues(lib, jobs, property)[i] == Undefined ==>
      FilterValues(lib, jobs, property)[j] == Undefined
  {
    var d := Distinct(FieldValues(jobs, property));
    assert StringsOrUndefined(d) by {
      forall v | v in d ensures v.Str? || v == Undefined {
        assert v in FieldValues(jobs, property);
      }
    }
    SortSorts(lib, d);
  }

  /** The option list of each filter select, by property. */
  function OptionLists(lib: Lib, jobs: seq<Job>, properties: seq<string>): map<string, seq<Value>>
  {
    map p | p in properties :: FilterValues(lib, jobs, p)
  }

  lemma OptionListsStep(lib: Lib, jobs: seq<Job>, properties: seq<string>, i: nat)
    requires i < |properties|
    ensures OptionLists(lib, jobs, properties[..i + 1])
         == OptionLists(lib, jobs, properties[..i])[properties[i] := FilterValues(lib, jobs, properties[i])]
  {
    assert properties[..i + 1] == properties[..i] + [properties[i]];
  }

}
