/**
 * What the four admin tables share: the page arithmetic over a page size of
 * 10, JavaScript's `Array.prototype.slice`, the badge colours, and the
 * `searchTerm` / `currentPage` state their handlers replace.
 */
module Tables {

  const PageSize: nat := 10

  /** The colour key of a badge. */
  datatype Color = Blue | Yellow | Green | Gray | Red | Purple

  function Min(a: int, b: int): int { if a <= b then a else b }

  /** `Math.ceil(n / itemsPerPage)`. */
  function TotalPages(n: nat): (t: nat)
    ensures t * PageSize >= n
    ensures n > 0 ==> (t - 1) * PageSize < n
    ensures n == 0 <==> t == 0
  {
    (n + 9) / 10
  }

  /** How `slice` normalises one index against length `n`: negatives count from the end. */
  function SliceIndex(i: int, n: nat): (r: nat)
    ensures r <= n
    ensures 0 <= i <= n ==> r == i
  {
    if i < 0 then (if n + i < 0 then 0 else n + i) else if i > n then n else i
  }

  /** `s.slice(start, end)`. */
  function JsSlice<T>(s: seq<T>, start: int, end: int): (r: seq<T>)
  {
    var a, b := SliceIndex(start, |s|), SliceIndex(end, |s|);
    if a <= b then s[a..b] else []
  }

  /** `indexOfFirstItem` and `indexOfLastItem` for page `page`. */
  function FirstIndex(page: int): int { page * 10 - 10 }
  function LastIndex(page: int): int { page * 10 }

  /**
   * The rows shown on page `page`: for every page from 1 on, the window
   * `[(page-1)*10, min(page*10, n))`, at most 10 rows, empty past the last page.
   */
  function PageRows<T>(s: seq<T>, page: int): (r: seq<T>)
    ensures page >= 1 ==> r == s[Min(FirstIndex(page), |s|)..Min(LastIndex(page), |s|)]
    ensures page >= 1 ==> |r| <= PageSize
    ensures page > TotalPages(|s|) ==> r == []
    ensures 1 <= page <= TotalPages(|s|) ==> r != []
  {
    JsSlice(s, FirstIndex(page), LastIndex(page))
  }

  /** Every row on a page is a row of the list it was cut from. */
  lemma PageRowsFromList<T>(s: seq<T>, page: int)
    ensures forall x :: x in PageRows(s, page) ==> x in s
  {
    var a, b := SliceIndex(FirstIndex(page), |s|), SliceIndex(LastIndex(page), |s|);
    if a <= b {
      forall x | x in s[a..b] ensures x in s {
        var k :| 0 <= k < b - a && s[a..b][k] == x;
        assert s[a + k] == x;
      }
    }
  }

  /** Pages 1 to `k` one after the other. */
  function PagesUpTo<T>(s: seq<T>, k: nat): seq<T>
  {
    if k == 0 then [] else PagesUpTo(s, k - 1) + PageRows(s, k)
  }

  /** The first `k` pages are the first `min(10k, n)` rows. */
  lemma {:induction false} PagesUpToIsPrefix<T>(s: seq<T>, k: nat)
    ensures PagesUpTo(s, k) == s[..Min(k * PageSize, |s|)]
  {
    if k > 0 {
      PagesUpToIsPrefix(s, k - 1);
      var m := Min((k - 1) * PageSize, |s|);
      assert s[..m] + s[m..Min(k * PageSize, |s|)] == s[..Min(k * PageSize, |s|)];
    }
  }

  /** Pages 1 to `TotalPages(n)` put together give back the whole list: the pages partition it. */
  lemma PagesPartition<T>(s: seq<T>)
    ensures PagesUpTo(s, TotalPages(|s|)) == s
  {
    PagesUpToIsPrefix(s, TotalPages(|s|));
  }

  /** The pager (summary and buttons) is rendered only when there is more than one page. */
  predicate PagerShown(n: nat) { TotalPages(n) > 1 }

  lemma PagerShownIff(n: nat)
    ensures PagerShown(n) <==> n > PageSize
  {
  }

  predicate PrevDisabled(page: int) { page == 1 }
  predicate NextDisabled(page: int, n: nat) { page == TotalPages(n) }

  /** The "Showing a to b of n" figures. */
  function ShowingFrom(page: int): int { FirstIndex(page) + 1 }
  function ShowingTo(page: int, n: nat): int { Min(LastIndex(page), n) }

  /** The upper figure never exceeds n; on a real page the two figures count exactly its rows. */
  lemma {:induction false} SummaryBounds<T>(s: seq<T>, page: int)
    requires page >= 1
    ensures ShowingTo(page, |s|) <= |s|
    ensures page <= TotalPages(|s|) ==>
      1 <= ShowingFrom(page) <= ShowingTo(page, |s|)
      && ShowingTo(page, |s|) - ShowingFrom(page) + 1 == |PageRows(s, page)|
  {
    var t := TotalPages(|s|);
    if page <= t {
      assert (page - 1) * PageSize <= (t - 1) * PageSize;
      assert FirstIndex(page) == (page - 1) * PageSize;
    }
  }

  /**
   * The search box and page number of one table. Clicks on a disabled
   * button, or on a pager that is not rendered, do nothing. `n` is the
   * number of filtered rows at the time of the click.
   */
  class TableState {
    var searchTerm: string
    var currentPage: int

    /** No handler can take the page below 1. */
    ghost predicate Valid()
      reads this
    {
      currentPage >= 1
    }

    constructor ()
      ensures Valid() && searchTerm == "" && currentPage == 1
    {
      searchTerm := "";
      currentPage := 1;
    }

    /** Typing in the search box; the page is not reset. */
    method SetSearchTerm(term: string)
      requires Valid()
      modifies this
      ensures Valid()
      ensures searchTerm == term && currentPage == old(currentPage)
    {
      searchTerm := term;
    }

    /** `handlePageChange(currentPage - 1)` from the previous button. */
    method ClickPrev(n: nat)
      requires Valid()
      modifies this
      ensures Valid() && searchTerm == old(searchTerm)
      ensures currentPage == if PagerShown(n) && !PrevDisabled(old(currentPage)) then old(currentPage) - 1 else old(currentPage)
    {
      if PagerShown(n) && !PrevDisabled(currentPage) {
        currentPage := currentPage - 1;
      }
    }

    /** `handlePageChange(currentPage + 1)` from the next button. */
    method ClickNext(n: nat)
      requires Valid()
      modifies this
      ensures Valid() && searchTerm == old(searchTerm)
      ensures currentPage == if PagerShown(n) && !NextDisabled(old(currentPage), n) then old(currentPage) + 1 else old(currentPage)
    {
      if PagerShown(n) && !NextDisabled(currentPage, n) {
        currentPage := currentPage + 1;
      }
    }

    /** `handlePageChange(page)` from one of the numbered buttons 1 to `TotalPages(n)`. */
    method ClickPage(page: int, n: nat)
      requires Valid()
      modifies this
      ensures Valid() && searchTerm == old(searchTerm)
      ensures currentPage == if PagerShown(n) && 1 <= page <= TotalPages(n) then page else old(currentPage)
    {
      if PagerShown(n) && 1 <= page <= TotalPages(n) {
        currentPage := page;
      }
    }
  }
}
