/** `WithPaging<T>`: the offset/limit stage of a query. */
module Paging {
  import opened Linq

  /** C#'s `int`. */
  type int32 = x: int | -0x8000_0000 <= x < 0x8000_0000

  /** Two's-complement wrap-around of unchecked 32-bit arithmetic. */
  function Wrap32(x: int): int32
  {
    (x + 0x8000_0000) % 0x1_0000_0000 - 0x8000_0000
  }

  /** `(pageNumber - 1) * pageSize` computed without wrapping. */
  predicate NoOverflow(pageNumber: int32, pageSize: int32)
  {
    -0x8000_0000 <= (pageNumber - 1) * pageSize < 0x8000_0000 && pageNumber - 1 >= -0x8000_0000
  }

  /** The constructor's defaults are page 1 of size 10. */
  datatype WithPaging = WithPaging(pageNumber: int32 := 1, pageSize: int32 := 10)
  {
    /** `(PageNumber - 1) * PageSize` in unchecked `int` arithmetic; wrapping
        the difference and then the product gives the same value as wrapping once. */
    function Offset(): int32
    {
      Wrap32((pageNumber - 1) * pageSize)
    }

    /** `GetPaged`: skip `Offset()` elements, then take `pageSize`. */
    function GetPaged<T>(s: seq<T>): seq<T>
    {
      Take(Skip(s, Offset()), pageSize)
    }
  }

  lemma OffsetWithoutOverflow(p: WithPaging)
    requires NoOverflow(p.pageNumber, p.pageSize)
    ensures p.Offset() == (p.pageNumber - 1) * p.pageSize
  {
  }

  /** For every input, a page is the contiguous slice of `s` that starts at the
      offset (clamped to `0..|s|`) and is at most `pageSize` long. */
  lemma PageIsSlice<T>(p: WithPaging, s: seq<T>)
    ensures var lo := Min(Max(0, p.Offset()), |s|);
            p.GetPaged(s) == s[lo .. lo + Min(Max(0, p.pageSize), |s| - lo)]
  {
    var lo := Min(Max(0, p.Offset()), |s|);
    assert Skip(s, p.Offset()) == s[lo..];
  }

  /** The page length is `min(pageSize, max(0, n - (pageNumber-1)*pageSize))`, never more than `pageSize`. */
  lemma PageLength<T>(p: WithPaging, s: seq<T>)
    requires p.pageNumber >= 1 && p.pageSize >= 0 && NoOverflow(p.pageNumber, p.pageSize)
    ensures |p.GetPaged(s)| == Min(p.pageSize, Max(0, |s| - (p.pageNumber - 1) * p.pageSize))
    ensures |p.GetPaged(s)| <= p.pageSize
  {
    PageIsSlice(p, s);
    OffsetWithoutOverflow(p);
    assert (p.pageNumber - 1) * p.pageSize >= 0;
  }

  /** For any page and size, the page holds at most `max(0, pageSize)` elements of `s`, each of them from `s`. */
  lemma PageBounded<T>(p: WithPaging, s: seq<T>)
    ensures |p.GetPaged(s)| <= Max(0, p.pageSize)
    ensures forall x | x in p.GetPaged(s) :: x in s
  {
    PageIsSlice(p, s);
  }

  /** A page that starts past the end of the data is empty, not an error. */
  lemma PagePastEndIsEmpty<T>(p: WithPaging, s: seq<T>)
    requires NoOverflow(p.pageNumber, p.pageSize)
    requires (p.pageNumber - 1) * p.pageSize >= |s|
    ensures p.GetPaged(s) == []
  {
    OffsetWithoutOverflow(p);
  }

  /** A page number of 1 or less starts at the beginning: it is the first page. */
  lemma NonPositivePageIsFirstPage<T>(p: WithPaging, s: seq<T>)
    requires p.pageNumber <= 1 && p.pageSize >= 0 && NoOverflow(p.pageNumber, p.pageSize)
    ensures p.GetPaged(s) == Take(s, p.pageSize)
  {
    OffsetWithoutOverflow(p);
    assert (p.pageNumber - 1) * p.pageSize <= 0 by {
      assert p.pageNumber - 1 <= 0;
    }
  }

  /** A non-positive page size gives an empty page. */
  lemma NonPositiveSizeIsEmpty<T>(p: WithPaging, s: seq<T>)
    requires p.pageSize <= 0
    ensures p.GetPaged(s) == []
  {
  }

  /** Pages `1..k` of size `size`, concatenated in order. */
  function Pages<T>(s: seq<T>, size: int32, k: nat): seq<T>
    requires k < 0x8000_0000
  {
    if k == 0 then [] else Pages(s, size, k - 1) + WithPaging(k, size).GetPaged(s)
  }

  /** With a fixed positive size, pages 1..k together are exactly the first
      `k * size` elements: no gaps and no overlaps. */
  lemma {:induction false} PagesTile<T>(s: seq<T>, size: int32, k: nat)
    requires 0 < size && k * size < 0x8000_0000
    ensures Pages(s, size, k) == s[..Min(k * size, |s|)]
  {
    if k > 0 {
      ProductSteps(k, size);
      PagesTile(s, size, k - 1);
      PageK(s, size, k);
      SliceJoin(s, Min((k - 1) * size, |s|), Min(k * size, |s|));
    }
  }

  /** Page `k` of a positive size is the slice between the ends of pages `k-1` and `k`. */
  lemma PageK<T>(s: seq<T>, size: int32, k: nat)
    requires 0 < size && 0 < k && k * size < 0x8000_0000
    ensures WithPaging(k, size).GetPaged(s) == s[Min((k - 1) * size, |s|) .. Min(k * size, |s|)]
  {
    ProductSteps(k, size);
    var p := WithPaging(k, size);
    OffsetWithoutOverflow(p);
    PageIsSlice(p, s);
  }

  lemma ProductSteps(k: nat, size: int)
    requires k > 0 && size > 0
    ensures (k - 1) * size == k * size - size && 0 <= (k - 1) * size && k <= k * size
  {
  }

  lemma SliceJoin<T>(s: seq<T>, a: int, b: int)
    requires 0 <= a <= b <= |s|
    ensures s[..a] + s[a..b] == s[..b]
  {
  }

  /** The paging scenario of the mood-type tests: 14 rows, page 2 of size 5, is rows 6 to 10. */
  lemma SecondPageOfFourteen<T>(s: seq<T>)
    requires |s| == 14
    ensures WithPaging(2, 5).GetPaged(s) == s[5..10]
    ensures |WithPaging(2, 5).GetPaged(s)| == 5
  {
    PageIsSlice(WithPaging(2, 5), s);
  }

  /** The offset wraps around like the source's `int`: page 2^30 + 1 of size 4
      has the offset 2^32, which wraps to 0, so it returns the first page. */
  lemma OffsetWrapsAround<T>(s: seq<T>)
    ensures WithPaging(0x4000_0001, 4).GetPaged(s) == WithPaging(1, 4).GetPaged(s)
  {
    assert WithPaging(0x4000_0001, 4).Offset() == 0;
  }

  /** The default pager returns the first ten elements. */
  lemma DefaultPageIsFirstTen<T>(s: seq<T>)
    ensures WithPaging().pageNumber == 1 && WithPaging().pageSize == 10
    ensures WithPaging().GetPaged(s) == s[..Min(10, |s|)]
  {
    PageIsSlice(WithPaging(), s);
  }

  /** A first page at least as large as the input is the whole input. */
  lemma FirstPageCoversAll<T>(size: int32, s: seq<T>)
    requires size >= |s|
    ensures WithPaging(1, size).GetPaged(s) == s
  {
    PageIsSlice(WithPaging(1, size), s);
  }
}
