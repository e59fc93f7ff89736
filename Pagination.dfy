/**
  The pagination control: the window of at most five page buttons around
  the current page, and the Previous / Next buttons.
 */
module Pagination {
  import opened JsMath
  import opened Storefront

  /** Most page buttons shown at once (`maxVisible`). */
  const MaxVisible := 5

  /**
    getPageNumbers: start two pages before the current one (but not before
    page 1), stop at most four pages later (but not after the last page),
    and if the last page cut the window short, pull its start back.
   */
  method GetPageNumbers(currentPage: int, totalPages: int) returns (pages: seq<int>)
    ensures |pages| <= MaxVisible
    ensures totalPages <= 0 ==> pages == []
    ensures totalPages >= 1 ==> |pages| == Min(MaxVisible, totalPages)
    ensures forall k :: 0 <= k < |pages| ==> 1 <= pages[k] <= totalPages
    ensures forall k :: 0 <= k < |pages| ==> pages[k] == pages[0] + k
    ensures forall j, k :: 0 <= j < k < |pages| ==> pages[j] < pages[k]
    ensures totalPages >= 1 ==> pages[0] == Max(1, Min(currentPage - 2, totalPages - MaxVisible + 1))
    ensures 1 <= currentPage <= totalPages ==> currentPage in pages
    ensures 1 <= currentPage - 2 && currentPage + 2 <= totalPages ==>
              pages == [currentPage - 2, currentPage - 1, currentPage, currentPage + 1, currentPage + 2]
  {
    pages := [];
    var start := Max(1, currentPage - 2);
    var end := Min(totalPages, start + MaxVisible - 1);
    if end - start < MaxVisible - 1 {
      start := Max(1, end - MaxVisible + 1);
    }
    var i := start;
    while i <= end
      invariant start <= i <= Max(start, end + 1)
      invariant |pages| == i - start
      invariant forall k :: 0 <= k < |pages| ==> pages[k] == start + k
    {
      pages := pages + [i];
      i := i + 1;
    }
    if 1 <= currentPage <= totalPages {
      assert pages[currentPage - start] == currentPage;
    }
  }

  /** The page the Previous button asks for, or None while it is disabled (on page 1). */
  function PreviousRequest(currentPage: int): Option<int> {
    if currentPage == 1 then None else Some(currentPage - 1)
  }

  /** The page the Next button asks for, or None while it is disabled (on the last page). */
  function NextRequest(currentPage: int, totalPages: int): Option<int> {
    if currentPage == totalPages then None else Some(currentPage + 1)
  }

  /**
    Previous is disabled exactly on the first page and Next exactly on the
    last; from a page in range, an enabled button asks for a page in range.
   */
  lemma NavigationStaysInRange(currentPage: int, totalPages: int)
    requires 1 <= currentPage <= totalPages
    ensures PreviousRequest(currentPage).None? <==> currentPage == 1
    ensures NextRequest(currentPage, totalPages).None? <==> currentPage == totalPages
    ensures PreviousRequest(currentPage).Some? ==>
              PreviousRequest(currentPage).value == currentPage - 1 &&
              1 <= PreviousRequest(currentPage).value <= totalPages
    ensures NextRequest(currentPage, totalPages).Some? ==>
              NextRequest(currentPage, totalPages).value == currentPage + 1 &&
              1 <= NextRequest(currentPage, totalPages).value <= totalPages
  {
  }
}
