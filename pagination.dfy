/**
 * The pagination hook (`usePagination`).
 *
 * `maxPage` is the ceiling of `data.length / itemsPerPage`, `currentData`
 * is the JavaScript `slice` of the current page's window, and `next`,
 * `prev` and `jump` clamp the page, store it and report it to the optional
 * `onPageChange` callback.  The props (`data`, `itemsPerPage`, whether a
 * callback is given) can change between renders; the page survives that.
 */
module Pagination {

  /** `Math.ceil(length / itemsPerPage)` on integers. */
  function CeilPages(length: nat, itemsPerPage: int): (m: nat)
    requires itemsPerPage > 0
    ensures m * itemsPerPage >= length
    ensures (m - 1) * itemsPerPage < length
  {
    var q := (length + itemsPerPage - 1) / itemsPerPage;
    var r := (length + itemsPerPage - 1) % itemsPerPage;
    assert length + itemsPerPage - 1 == q * itemsPerPage + r;
    assert (q - 1) * itemsPerPage == q * itemsPerPage - itemsPerPage;
    q
  }

  /** There are no pages exactly when there is no data. */
  lemma CeilPagesZero(length: nat, itemsPerPage: int)
    requires itemsPerPage > 0
    ensures CeilPages(length, itemsPerPage) == 0 <==> length == 0
  {
    if length == 0 {
      assert (itemsPerPage - 1) / itemsPerPage == 0;
    }
  }

  /** How `Array.prototype.slice` reads an index: negative counts from the end, and the result is clamped to the length. */
  function SliceIndex(i: int, length: nat): (r: nat)
    ensures r <= length
    ensures 0 <= i <= length ==> r == i
    ensures i > length ==> r == length
    ensures i < 0 ==> r == Max(length + i, 0)
  {
    if i < 0 then (if length + i < 0 then 0 else length + i)
    else if i > length then length
    else i
  }

  function Max(a: int, b: int): int
  {
    if a >= b then a else b
  }

  function Min(a: int, b: int): int
  {
    if a <= b then a else b
  }

  /** `s.slice(start, end)`: empty when the clamped start is not before the clamped end. */
  function Slice<T>(s: seq<T>, start: int, end: int): (r: seq<T>)
    ensures |r| <= |s|
    ensures 0 <= start <= end <= |s| ==> r == s[start..end]
  {
    var a, b := SliceIndex(start, |s|), SliceIndex(end, |s|);
    if a < b then s[a..b] else []
  }

  /** `currentData`: the slice from `(page - 1) * itemsPerPage` of length `itemsPerPage`. */
  function PageSlice<T>(data: seq<T>, itemsPerPage: int, page: int): seq<T>
  {
    var start := (page - 1) * itemsPerPage;
    Slice(data, start, start + itemsPerPage)
  }

  /** `next`: one page on, but not past `maxPage` (with no data that is page 0). */
  function NextPage(page: int, maxPage: nat): (r: int)
    ensures r <= maxPage
    ensures page < maxPage ==> r == page + 1
    ensures page >= maxPage ==> r == maxPage
  {
    Min(page + 1, maxPage)
  }

  /** `prev`: one page back, but not before page 1. */
  function PrevPage(page: int): (r: int)
    ensures r >= 1
    ensures page > 1 ==> r == page - 1
    ensures page <= 1 ==> r == 1
  {
    Max(page - 1, 1)
  }

  /** `jump`: the requested page clamped to `maxPage` and then to at least 1. */
  function JumpPage(page: int, maxPage: nat): (r: int)
    ensures r >= 1
    ensures maxPage >= 1 ==> r <= maxPage
    ensures 1 <= page <= maxPage ==> r == page
    ensures page > maxPage ==> r == Max(1, maxPage)
    ensures page < 1 ==> r == 1
  {
    Max(1, Min(page, maxPage))
  }

  // ---------------------------------------------------------------------
  // Properties
  // ---------------------------------------------------------------------

  /** From a page in `[1, maxPage]`, every navigation stays in `[1, maxPage]`. */
  lemma NavigationStaysInRange(page: int, target: int, maxPage: nat)
    requires 1 <= page <= maxPage
    ensures 1 <= NextPage(page, maxPage) <= maxPage
    ensures 1 <= PrevPage(page) <= maxPage
    ensures 1 <= JumpPage(target, maxPage) <= maxPage
  {
  }

  /** `next` and `prev` stop at the ends; with no data `next` lands on page 0 and `jump` on page 1. */
  lemma NavigationAtTheEnds(page: int, target: int, maxPage: nat)
    ensures NextPage(maxPage, maxPage) == maxPage
    ensures PrevPage(1) == 1
    ensures page >= 0 ==> NextPage(page, 0) == 0
    ensures JumpPage(target, 0) == 1
  {
  }

  lemma MulMonotone(a: int, b: int, k: int)
    requires a <= b && k > 0
    ensures a * k <= b * k
  {
    assert b * k - a * k == (b - a) * k;
  }

  /** For a page from 1 on, the page is the window `[(page-1)*k, page*k)` of the data, cut at its end. */
  lemma PageSliceWindow<T>(data: seq<T>, itemsPerPage: int, page: int)
    requires itemsPerPage > 0 && page >= 1
    ensures var start := Min((page - 1) * itemsPerPage, |data|);
            var end := Min(page * itemsPerPage, |data|);
            start <= end && PageSlice(data, itemsPerPage, page) == data[start..end]
    ensures |PageSlice(data, itemsPerPage, page)| <= itemsPerPage
  {
    var k := itemsPerPage;
    MulMonotone(0, page - 1, k);
    assert (page - 1) * k + k == page * k;
  }

  /** A page within `[1, maxPage]` is not empty and begins at item `(page-1)*itemsPerPage`. */
  lemma PageInRangeNonEmpty<T>(data: seq<T>, itemsPerPage: int, page: int)
    requires itemsPerPage > 0
    requires 1 <= page <= CeilPages(|data|, itemsPerPage)
    ensures (page - 1) * itemsPerPage < |data|
    ensures |PageSlice(data, itemsPerPage, page)| > 0
    ensures PageSlice(data, itemsPerPage, page)[0] == data[(page - 1) * itemsPerPage]
  {
    var k := itemsPerPage;
    var m := CeilPages(|data|, k);
    var start := (page - 1) * k;
    MulMonotone(page - 1, m - 1, k);
    MulMonotone(0, page - 1, k);
    assert 0 <= start < |data|;
    var end := SliceIndex(start + k, |data|);
    assert start < end;
    assert PageSlice(data, k, page) == data[start..end];
  }

  /** Every item can be reached: item `i` is at position `i % k` of page `i / k + 1`, a page in range. */
  lemma ItemOnItsPage<T>(data: seq<T>, itemsPerPage: int, i: int)
    requires itemsPerPage > 0 && 0 <= i < |data|
    ensures 1 <= i / itemsPerPage + 1 <= CeilPages(|data|, itemsPerPage)
    ensures i % itemsPerPage < |PageSlice(data, itemsPerPage, i / itemsPerPage + 1)|
    ensures PageSlice(data, itemsPerPage, i / itemsPerPage + 1)[i % itemsPerPage] == data[i]
  {
    var k := itemsPerPage;
    var p := i / k + 1;
    var m := CeilPages(|data|, k);
    assert i == (i / k) * k + i % k;
    assert (p - 1) * k <= i;
    if p > m {
      MulMonotone(m, p - 1, k);
      assert false;
    }
    PageSliceWindow(data, k, p);
    assert p * k == (p - 1) * k + k;
  }

  /** With no data every page, including page 0, shows nothing. */
  lemma EmptyDataShowsNothing<T>(data: seq<T>, itemsPerPage: int, page: int)
    requires data == []
    ensures PageSlice(data, itemsPerPage, page) == []
  {
  }

  // ---------------------------------------------------------------------
  // The hook as an object
  // ---------------------------------------------------------------------

  class Pager<T> {
    var data: seq<T>
    var itemsPerPage: int
    /** Whether an `onPageChange` callback was passed. */
    var hasOnPageChange: bool
    var currentPage: int
    /** Every page value passed to `onPageChange`, oldest first. */
    var notified: seq<int>

    ghost predicate Valid()
      reads this
    {
      itemsPerPage > 0 && currentPage >= 0
    }

    constructor(data: seq<T>, itemsPerPage: int, hasOnPageChange: bool)
      requires itemsPerPage > 0
      ensures Valid()
      ensures this.data == data && this.itemsPerPage == itemsPerPage && this.hasOnPageChange == hasOnPageChange
      ensures currentPage == 1 && notified == []
    {
      this.data := data;
      this.itemsPerPage := itemsPerPage;
      this.hasOnPageChange := hasOnPageChange;
      currentPage := 1;
      notified := [];
    }

    /** `maxPage`. */
    function MaxPage(): (m: nat)
      reads this
      requires Valid()
      ensures m * itemsPerPage >= |data| && (m - 1) * itemsPerPage < |data|
    {
      CeilPages(|data|, itemsPerPage)
    }

    /** `currentData`: at most `itemsPerPage` items of `data`; nothing on page 0, which `next` reaches with no data. */
    function CurrentData(): (r: seq<T>)
      reads this
      requires Valid()
      ensures |r| <= itemsPerPage
      ensures currentPage >= 1 ==> r == data[Min((currentPage - 1) * itemsPerPage, |data|)..Min(currentPage * itemsPerPage, |data|)]
      ensures currentPage == 0 ==> r == []
    {
      PageSliceWindow(data, itemsPerPage, if currentPage >= 1 then currentPage else 1);
      PageSlice(data, itemsPerPage, currentPage)
    }

    /** A later render with new props; the page is kept as it is. */
    method Rerender(data: seq<T>, itemsPerPage: int, hasOnPageChange: bool)
      requires Valid() && itemsPerPage > 0
      modifies this
      ensures Valid()
      ensures this.data == data && this.itemsPerPage == itemsPerPage && this.hasOnPageChange == hasOnPageChange
      ensures currentPage == old(currentPage) && notified == old(notified)
    {
      this.data := data;
      this.itemsPerPage := itemsPerPage;
      this.hasOnPageChange := hasOnPageChange;
    }

    method Next()
      requires Valid()
      modifies this`currentPage, this`notified
      ensures Valid()
      ensures currentPage == NextPage(old(currentPage), MaxPage())
      ensures notified == old(notified) + if hasOnPageChange then [currentPage] else []
    {
      var maxPage := CeilPages(|data|, itemsPerPage);
      var newPage := if currentPage + 1 <= maxPage then currentPage + 1 else maxPage;
      if hasOnPageChange {
        notified := notified + [newPage];
      }
      currentPage := newPage;
    }

    method Prev()
      requires Valid()
      modifies this`currentPage, this`notified
      ensures Valid()
      ensures currentPage == PrevPage(old(currentPage))
      ensures notified == old(notified) + if hasOnPageChange then [currentPage] else []
    {
      var newPage := if currentPage - 1 >= 1 then currentPage - 1 else 1;
      if hasOnPageChange {
        notified := notified + [newPage];
      }
      currentPage := newPage;
    }

    method Jump(page: int)
      requires Valid()
      modifies this`currentPage, this`notified
      ensures Valid()
      ensures currentPage == JumpPage(page, MaxPage())
      ensures notified == old(notified) + if hasOnPageChange then [currentPage] else []
    {
      var maxPage := CeilPages(|data|, itemsPerPage);
      var clamped := if page <= maxPage then page else maxPage;
      var pageNumber := if 1 >= clamped then 1 else clamped;
      if hasOnPageChange {
        notified := notified + [pageNumber];
      }
      currentPage := pageNumber;
    }
  }
}
