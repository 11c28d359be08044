/**
 * Pages of a card list: page `p` (counted from 1) of size `size` is
 * `list.slice((p - 1) * size, (p - 1) * size + size)`, and the number of page
 * links is `Math.ceil(list.length / size)`.
 */
module Paging {
  import opened JsArrays

  /** `Math.ceil(n / d)` for a length `n` and a page size `d`. */
  function CeilDiv(n: nat, d: nat): (r: nat)
    requires d > 0
    ensures r * d >= n
    ensures r == 0 || (r - 1) * d < n
    ensures r == 0 <==> n == 0
  {
    var q := (n + d - 1) / d;
    assert n + d - 1 == q * d + (n + d - 1) % d;
    assert (q - 1) * d == q * d - d;
    q
  }

  /** The slice that page `p` shows. */
  function PageSlice<T>(s: seq<T>, size: nat, p: int): seq<T>
  {
    var start := (p - 1) * size;
    Slice(s, start, start + size)
  }

  lemma MulMonotonic(a: int, b: int, d: nat)
    requires a <= b
    ensures a * d <= b * d
  {
  }

  /** A page shows at most `size` cards: the list's elements `[(p-1)*size, p*size)`, clamped. */
  lemma PageSliceRange<T>(s: seq<T>, size: nat, p: int)
    requires p >= 1
    ensures (p - 1) * size >= 0
    ensures PageSlice(s, size, p) == s[Min((p - 1) * size, |s|)..Min(p * size, |s|)]
    ensures |PageSlice(s, size, p)| <= size
  {
    MulMonotonic(0, p - 1, size);
    assert p * size == (p - 1) * size + size;
  }

  /** Element `j` of page `p` is element `(p-1)*size + j` of the list, for as many elements as the list has from there. */
  lemma PageElements<T>(s: seq<T>, size: nat, p: int)
    requires p >= 1
    ensures (p - 1) * size >= 0
    ensures |PageSlice(s, size, p)| == Max(0, Min((p - 1) * size + size, |s|) - (p - 1) * size)
    ensures forall j :: 0 <= j < |PageSlice(s, size, p)| ==> PageSlice(s, size, p)[j] == s[(p - 1) * size + j]
  {
    MulMonotonic(0, p - 1, size);
    SliceNonNegative(s, (p - 1) * size, (p - 1) * size + size);
  }

  /** Page `p` is empty exactly when `p` is past the last page link. */
  lemma PageEmptyIffPastEnd<T>(s: seq<T>, size: nat, p: int)
    requires size > 0 && p >= 1
    ensures PageSlice(s, size, p) == [] <==> p > CeilDiv(|s|, size)
  {
    PageSliceRange(s, size, p);
    var r := CeilDiv(|s|, size);
    if p > r {
      MulMonotonic(r, p - 1, size);
    } else if r > 0 {
      MulMonotonic(p - 1, r - 1, size);
    }
  }

  /** The cards of pages 1 to `k`, one page after the other. */
  function Pages<T>(s: seq<T>, size: nat, k: nat): seq<T>
  {
    if k == 0 then [] else Pages(s, size, k - 1) + PageSlice(s, size, k)
  }

  /** Pages 1 to `k` together show the list's first `k * size` elements, each once, in order. */
  lemma {:induction false} PagesArePrefix<T>(s: seq<T>, size: nat, k: nat)
    ensures Pages(s, size, k) == s[..Min(k * size, |s|)]
  {
    if k > 0 {
      PagesArePrefix(s, size, k - 1);
      PageSliceRange(s, size, k);
      MulMonotonic(k - 1, k, size);
      assert s[..Min((k - 1) * size, |s|)] + s[Min((k - 1) * size, |s|)..Min(k * size, |s|)]
          == s[..Min(k * size, |s|)];
    }
  }

  /** The pages up to the last link show the whole list. */
  lemma AllPagesShowWholeList<T>(s: seq<T>, size: nat)
    requires size > 0
    ensures Pages(s, size, CeilDiv(|s|, size)) == s
  {
    PagesArePrefix(s, size, CeilDiv(|s|, size));
  }
}
