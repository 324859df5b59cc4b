/**
  Client-side pagination as the room grid and the tenants table do it:
  page `p` (counted from 1) of a list shows `list.slice((p - 1) * size, p * size)`.
*/
module Paging {

  function Min(a: int, b: int): int { if a <= b then a else b }
  function Max(a: int, b: int): int { if a >= b then a else b }

  /** `Math.ceil(n / size)` for a whole count n. */
  function CeilDiv(n: nat, size: nat): (r: nat)
    requires size > 0
    ensures (r - 1) * size < n <= r * size || (n == 0 && r == 0)
  {
    if n == 0 then 0 else 1 + CeilDiv(n - Min(n, size), size)
  }

  /** `list.slice((page - 1) * size, page * size)` for a page counted from 1. */
  function PageSlice<T>(s: seq<T>, size: nat, page: nat): (r: seq<T>)
    requires size > 0 && page >= 1
    ensures |r| <= size
    ensures (page - 1) * size >= |s| ==> r == []
    ensures (page - 1) * size < |s| ==>
      r == s[(page - 1) * size .. Min(page * size, |s|)]
  {
    var start := (page - 1) * size;
    if start >= |s| then [] else s[start .. Min(start + size, |s|)]
  }

  /** Pages 1..k laid end to end. */
  function Pages<T>(s: seq<T>, size: nat, k: nat): seq<T>
    requires size > 0
  {
    if k == 0 then [] else Pages(s, size, k - 1) + PageSlice(s, size, k)
  }

  /** The first k pages are the first k * size items. */
  lemma {:induction false} PagesPrefix<T>(s: seq<T>, size: nat, k: nat)
    requires size > 0
    ensures Pages(s, size, k) == s[..Min(k * size, |s|)]
  {
    if k > 0 {
      PagesPrefix(s, size, k - 1);
      var start := (k - 1) * size;
      MulSucc(k - 1, size);
      PrefixThenSlice(s, start, size);
    }
  }

  /** The items before `start` followed by the page starting there are the items before `start + size`. */
  lemma PrefixThenSlice<T>(s: seq<T>, start: nat, size: nat)
    ensures s[..Min(start, |s|)] + (if start >= |s| then [] else s[start .. Min(start + size, |s|)])
      == s[..Min(start + size, |s|)]
  {
    if start < |s| {
      assert s[..Min(start + size, |s|)] == s[..start] + s[start .. Min(start + size, |s|)];
    }
  }

  /** Walking through every page, 1 up to the page count, shows each item exactly once and in order. */
  lemma PagesCoverAll<T>(s: seq<T>, size: nat)
    requires size > 0
    ensures Pages(s, size, CeilDiv(|s|, size)) == s
  {
    PagesPrefix(s, size, CeilDiv(|s|, size));
  }

  /** Every page from 1 up to the page count shows at least one item. */
  lemma {:induction false} PageNotEmpty<T>(s: seq<T>, size: nat, page: nat)
    requires size > 0 && 1 <= page <= CeilDiv(|s|, size)
    ensures |PageSlice(s, size, page)| >= 1
  {
    var n := CeilDiv(|s|, size);
    var start := (page - 1) * size;
    assert start <= (n - 1) * size by {
      MulMonotone(page - 1, n - 1, size);
    }
    assert start < |s|;
    MulSucc(page - 1, size);
    assert page * size == start + size;
  }

  lemma MulSucc(a: nat, c: nat)
    ensures (a + 1) * c == a * c + c
  {
  }

  lemma {:induction false} MulMonotone(a: nat, b: nat, c: nat)
    requires a <= b
    ensures a * c <= b * c
  {
  }
}
