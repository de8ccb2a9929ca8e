/**
 * The fixed-size, 1-indexed pagination every dashboard table uses:
 * page `p` shows `list.slice((p - 1) * itemsPerPage, p * itemsPerPage)`,
 * there are `Math.ceil(list.length / itemsPerPage)` pages, and the footer
 * reads "Showing first to last of n".
 */
module Pagination {
  import opened Collections

  const ItemsPerPage: nat := 10

  function Min(a: int, b: int): int { if a <= b then a else b }

  /** The rows shown on page `page` (the source's `indexOfFirstItem`/`indexOfLastItem` slice). */
  function CurrentPage<T>(s: seq<T>, page: int): seq<T>
  {
    var indexOfLastItem := page * ItemsPerPage;
    var indexOfFirstItem := indexOfLastItem - ItemsPerPage;
    JsSlice(s, indexOfFirstItem, indexOfLastItem)
  }

  /** `Math.ceil(n / itemsPerPage)`: the fewest pages that hold `n` rows. */
  function TotalPages(n: nat): (r: nat)
    ensures r * ItemsPerPage >= n
    ensures r > 0 ==> (r - 1) * ItemsPerPage < n
    ensures n == 0 <==> r == 0
  {
    (n + ItemsPerPage - 1) / ItemsPerPage
  }

  /** The 1-based number of the first row on the page, as the footer shows it. */
  function ShowingFrom(page: int): int { (page * ItemsPerPage - ItemsPerPage) + 1 }

  /** The 1-based number of the last row on the page, as the footer shows it. */
  function ShowingTo(n: nat, page: int): int { Min(page * ItemsPerPage, n) }

  /** Each page from 1 on is the run of rows from `(p-1)*10` (clipped) to `p*10` (clipped). */
  lemma PageIsWindow<T>(s: seq<T>, page: int)
    requires page >= 1
    ensures CurrentPage(s, page) ==
              s[Min((page - 1) * ItemsPerPage, |s|)..Min(page * ItemsPerPage, |s|)]
  {
  }

  /** A page past the last one (left over after the filters shrank the list) is empty. */
  lemma PagePastEndIsEmpty<T>(s: seq<T>, page: int)
    requires page > TotalPages(|s|)
    ensures CurrentPage(s, page) == []
  {
  }

  /** The footer's range describes exactly the rows on a page that exists. */
  lemma ShowingRangeMatchesPage<T>(s: seq<T>, page: int)
    requires 1 <= page <= TotalPages(|s|)
    ensures 1 <= ShowingFrom(page) <= ShowingTo(|s|, page) <= |s|
    ensures CurrentPage(s, page) == s[ShowingFrom(page) - 1..ShowingTo(|s|, page)]
    ensures |CurrentPage(s, page)| == ShowingTo(|s|, page) - ShowingFrom(page) + 1
  {
    PageIsWindow(s, page);
  }

  /** The concatenation of pages 1..k. */
  function PagesUpTo<T>(s: seq<T>, k: nat): seq<T>
  {
    if k == 0 then [] else PagesUpTo(s, k - 1) + CurrentPage(s, k)
  }

  lemma {:induction false} PagesUpToIsPrefix<T>(s: seq<T>, k: nat)
    ensures PagesUpTo(s, k) == s[..Min(k * ItemsPerPage, |s|)]
  {
    if k > 0 {
      PagesUpToIsPrefix(s, k - 1);
      PageIsWindow(s, k);
      var a, b := Min((k - 1) * ItemsPerPage, |s|), Min(k * ItemsPerPage, |s|);
      assert s[..a] + s[a..b] == s[..b];
    }
  }

  /** Reading pages 1..TotalPages in order shows every row exactly once, in order. */
  lemma PagesCoverList<T>(s: seq<T>)
    ensures PagesUpTo(s, TotalPages(|s|)) == s
  {
    PagesUpToIsPrefix(s, TotalPages(|s|));
  }

  /** The last page holds the remainder, or a full page when the rows divide evenly. */
  lemma LastPageSize<T>(s: seq<T>)
    requires |s| > 0
    ensures |CurrentPage(s, TotalPages(|s|))| ==
              if |s| % ItemsPerPage == 0 then ItemsPerPage else |s| % ItemsPerPage
  {
    var p := TotalPages(|s|);
    PageIsWindow(s, p);
  }

  /** 25 rows: three pages, the third holding rows 21 to 25. */
  lemma TwentyFiveRows<T>(s: seq<T>)
    requires |s| == 25
    ensures TotalPages(|s|) == 3
    ensures CurrentPage(s, 3) == s[20..25] && |CurrentPage(s, 3)| == 5
    ensures ShowingFrom(3) == 21 && ShowingTo(|s|, 3) == 25
  {
    PageIsWindow(s, 3);
  }
}
