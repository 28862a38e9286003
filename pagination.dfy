/** The pager shared by the vendor-ledger, expenses and vendors pages: the
    number of pages, the "Showing start-end of total" range, the Previous and
    Next buttons, the clamping of a stale page number and the slice of items
    a page shows. Page numbers start at 1. */
module Pagination {
  import opened Seqs

  function Min(a: int, b: int): int { if a <= b then a else b }
  function Max(a: int, b: int): int { if a >= b then a else b }

  /** `Math.max(1, Math.ceil(totalItems / pageSize))`: the fewest pages of
      `pageSize` items that hold every item, and at least one page. */
  function TotalPages(totalItems: nat, pageSize: nat): (r: nat)
    requires pageSize > 0
    ensures r >= 1
    ensures totalItems <= r * pageSize
    ensures r == 1 || (r - 1) * pageSize < totalItems
  {
    var q := (totalItems + pageSize - 1) / pageSize;
    assert q * pageSize + (totalItems + pageSize - 1) % pageSize == totalItems + pageSize - 1;
    assert (q - 1) * pageSize == q * pageSize - pageSize;
    Max(1, q)
  }

  /** The first item number on the page, 0 when there are no items. */
  function StartItem(currentPage: int, totalItems: nat, pageSize: nat): int {
    if totalItems == 0 then 0 else (currentPage - 1) * pageSize + 1
  }

  /** The last item number on the page. */
  function EndItem(currentPage: int, totalItems: nat, pageSize: nat): int {
    Min(currentPage * pageSize, totalItems)
  }

  /** On any existing page the range is a non-empty window of at most one
      page inside 1..totalItems. */
  lemma RangeWithinItems(currentPage: int, totalItems: nat, pageSize: nat)
    requires pageSize > 0 && totalItems > 0
    requires 1 <= currentPage <= TotalPages(totalItems, pageSize)
    ensures var s := StartItem(currentPage, totalItems, pageSize);
      var e := EndItem(currentPage, totalItems, pageSize);
      1 <= s <= e <= totalItems && e - s + 1 <= pageSize
  {
    var t := TotalPages(totalItems, pageSize);
    assert (currentPage - 1) * pageSize <= (t - 1) * pageSize by {
      MulMonotone(currentPage - 1, t - 1, pageSize);
    }
    assert currentPage * pageSize == (currentPage - 1) * pageSize + pageSize;
  }

  /** With no items the pager reads "Showing 0-0 of 0". */
  lemma EmptyRange(currentPage: int, pageSize: nat)
    requires currentPage >= 0
    ensures StartItem(currentPage, 0, pageSize) == 0 && EndItem(currentPage, 0, pageSize) == 0
  {
    assert currentPage * pageSize >= 0 by { MulMonotone(0, currentPage, pageSize); }
  }

  lemma MulMonotone(a: int, b: int, c: nat)
    requires a <= b
    ensures a * c <= b * c
  {
    assert b * c - a * c == (b - a) * c;
  }

  /** The Previous button: disabled on page 1, else it asks for the page before. */
  function OnPrevious(currentPage: int, totalPages: int): (r: Option<int>)
    ensures r.None? <==> currentPage == 1
    ensures 1 <= currentPage <= totalPages && r.Some? ==> 1 <= r.value <= totalPages && r.value == currentPage - 1
  {
    if currentPage == 1 then None else Some(currentPage - 1)
  }

  /** The Next button: disabled on the last page, else it asks for the page after. */
  function OnNext(currentPage: int, totalPages: int): (r: Option<int>)
    ensures r.None? <==> currentPage == totalPages
    ensures 1 <= currentPage <= totalPages && r.Some? ==> 1 <= r.value <= totalPages && r.value == currentPage + 1
  {
    if currentPage == totalPages then None else Some(currentPage + 1)
  }

  /** `Math.min(currentPage, totalPages)`: a page left stale by a shrinking list
      falls back to the last page; the page effect stores it. */
  function SafePage(currentPage: int, totalPages: int): (r: int)
    ensures r <= totalPages && r <= currentPage
    ensures r == currentPage || r == totalPages
    ensures 1 <= currentPage && 1 <= totalPages ==> 1 <= r
  {
    Min(currentPage, totalPages)
  }

  /** A relative index of `Array.prototype.slice`: negative counts from the end; clamped to `0..len`. */
  function SliceIndex(i: int, len: nat): (r: nat)
    ensures r <= len
    ensures 0 <= i ==> r == Min(i, len)
    ensures i < 0 ==> r == Max(len + i, 0)
  {
    if i < 0 then Max(len + i, 0) else Min(i, len)
  }

  /** `s.slice(start, end)`. */
  function JsSlice<T>(s: seq<T>, start: int, end: int): (r: seq<T>)
    ensures |r| <= |s|
    ensures start <= end ==> |r| <= end - start
    ensures forall x :: x in r ==> x in s
    ensures 0 <= start <= end ==> r == s[Min(start, |s|)..Min(end, |s|)]
  {
    var lo := SliceIndex(start, |s|);
    var hi := SliceIndex(end, |s|);
    if hi <= lo then [] else s[lo..hi]
  }

  /** The items a page of `pageSize` shows after clamping the page number:
      never more than a page, and only items of the list. */
  function Page<T>(items: seq<T>, currentPage: int, pageSize: nat): (r: seq<T>)
    requires pageSize > 0
    ensures |r| <= pageSize
    ensures forall x :: x in r ==> x in items
  {
    var p := SafePage(currentPage, TotalPages(|items|, pageSize));
    assert p * pageSize - (p - 1) * pageSize == pageSize;
    JsSlice(items, (p - 1) * pageSize, p * pageSize)
  }

  /** From page 1 on, the page is the window of consecutive items that starts
      at the clamped page's first index and holds at most `pageSize` items. */
  lemma PageWindow<T>(items: seq<T>, currentPage: int, pageSize: nat)
    requires pageSize > 0 && currentPage >= 1
    ensures var p := SafePage(currentPage, TotalPages(|items|, pageSize));
      && 0 <= (p - 1) * pageSize <= Min(p * pageSize, |items|)
      && Page(items, currentPage, pageSize) == items[(p - 1) * pageSize..Min(p * pageSize, |items|)]
  {
    var p := SafePage(currentPage, TotalPages(|items|, pageSize));
    PageStartBounds(|items|, pageSize, p);
  }

  /** A page of a non-empty list is never empty, and it holds exactly as many
      items as the "Showing start-end" range announces. */
  lemma PageMatchesRange<T>(items: seq<T>, currentPage: int, pageSize: nat)
    requires pageSize > 0 && currentPage >= 1 && items != []
    ensures var p := SafePage(currentPage, TotalPages(|items|, pageSize));
      var r := Page(items, currentPage, pageSize);
      r != [] && |r| == EndItem(p, |items|, pageSize) - StartItem(p, |items|, pageSize) + 1
  {
    var p := SafePage(currentPage, TotalPages(|items|, pageSize));
    PageWindow(items, currentPage, pageSize);
    PageStartBounds(|items|, pageSize, p);
    RangeWithinItems(p, |items|, pageSize);
  }

  /** The first index of page `p` lies inside the list (strictly, when the list is not empty). */
  lemma PageStartBounds(n: nat, pageSize: nat, p: int)
    requires pageSize > 0 && 1 <= p <= TotalPages(n, pageSize)
    ensures 0 <= (p - 1) * pageSize <= n
    ensures n > 0 ==> (p - 1) * pageSize < n
    ensures p * pageSize == (p - 1) * pageSize + pageSize
  {
    var t := TotalPages(n, pageSize);
    MulMonotone(0, p - 1, pageSize);
    MulMonotone(p - 1, t - 1, pageSize);
  }

  /** Every item is shown on exactly the page its index falls into. */
  lemma ItemOnItsPage<T>(items: seq<T>, pageSize: nat, i: nat)
    requires pageSize > 0 && i < |items|
    ensures var p := i / pageSize + 1;
      1 <= p <= TotalPages(|items|, pageSize) &&
      i % pageSize < |Page(items, p, pageSize)| && Page(items, p, pageSize)[i % pageSize] == items[i]
  {
    var q := i / pageSize;
    PageOfIndex(|items|, pageSize, i);
    PageWindow(items, q + 1, pageSize);
    var lo := q * pageSize;
    var hi := Min((q + 1) * pageSize, |items|);
    var r := Page(items, q + 1, pageSize);
    assert r == items[lo..hi];
    assert i % pageSize == i - lo;
  }

  /** The page an index falls into exists, and its window covers the index. */
  lemma PageOfIndex(n: nat, pageSize: nat, i: nat)
    requires pageSize > 0 && i < n
    ensures var q := i / pageSize;
      q + 1 <= TotalPages(n, pageSize) && q * pageSize + i % pageSize == i &&
      q * pageSize <= i < (q + 1) * pageSize && (q + 1 - 1) * pageSize == q * pageSize
  {
    var t := TotalPages(n, pageSize);
    var q := i / pageSize;
    assert i == q * pageSize + i % pageSize;
    assert (q + 1) * pageSize == q * pageSize + pageSize;
    assert q + 1 <= t by {
      if q + 1 > t {
        MulMonotone(t, q, pageSize);
      }
    }
  }
}
