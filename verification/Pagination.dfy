/** The page buttons and the slices behind them (Front-End/hooks/usePagination.ts). */
module Pagination {
  import opened Arithmetic

  datatype Item = Page(n: int) | Dots

  function Pages(from: int, count: nat): (items: seq<Item>)
    ensures |items| == count && forall k | 0 <= k < count :: items[k] == Page(from + k)
  {
    seq(count, k => Page(from + k))
  }

  function FromStart(total: nat, siblings: nat): seq<Item> {
    Pages(1, 3 + 2 * siblings) + [Dots, Page(total)]
  }

  function ToEnd(total: nat, siblings: nat): seq<Item> {
    var count := 3 + 2 * siblings;
    [Page(1), Dots] + Pages(total - count + 1, count)
  }

  function Middle(left: int, right: int, total: nat): seq<Item> {
    [Page(1), Dots] + Pages(left, Max(0, right - left + 1)) + [Dots, Page(total)]
  }

  function BuildPageRange(current: int, total: nat, siblings: nat): seq<Item> {
    var buttons := siblings * 2 + 5;
    if total <= buttons then Pages(1, total)
    else
      var left := Max(current - siblings, 1);
      var right := Min(current + siblings, total);
      var showLeft := left > 2;
      var showRight := right < total - 1;
      if !showLeft && showRight then FromStart(total, siblings)
      else if showLeft && !showRight then ToEnd(total, siblings)
      else Middle(left, right, total)
  }

  /** Neighbouring pages follow on; dots stand between two pages and hide at least one. */
  predicate Follows(items: seq<Item>) {
    && (forall k | 0 < k < |items| && items[k].Page? && items[k - 1].Page? :: items[k].n == items[k - 1].n + 1)
    && (forall k | 0 <= k < |items| && items[k].Dots? ::
          0 < k < |items| - 1 && items[k - 1].Page? && items[k + 1].Page? && items[k - 1].n + 1 < items[k + 1].n)
  }

  predicate IsWindow(items: seq<Item>, current: int, total: nat, siblings: nat) {
    && |items| == Min(total, 2 * siblings + 5) && |items| > 0
    && items[0] == Page(1) && items[|items| - 1] == Page(total)
    && Follows(items)
    && forall p | Max(1, current - siblings) <= p <= Min(total, current + siblings) :: Page(p) in items
  }

  lemma WindowOfAll(current: int, total: nat, siblings: nat)
    requires 1 <= current <= total <= siblings * 2 + 5
    ensures IsWindow(Pages(1, total), current, total, siblings)
  {
    var items := Pages(1, total);
    forall p | 1 <= p <= total ensures Page(p) in items { assert items[p - 1] == Page(p); }
  }

  lemma WindowAtStart(current: int, total: nat, siblings: nat)
    requires 1 <= current <= siblings + 2 && total > siblings * 2 + 5
    ensures IsWindow(FromStart(total, siblings), current, total, siblings)
  {
    var count, items := 3 + 2 * siblings, FromStart(total, siblings);
    assert forall k | 0 <= k < count :: items[k] == Page(k + 1);
    RunThenLast(items, count, total);
    forall p | 1 <= p <= current + siblings ensures Page(p) in items { assert items[p - 1] == Page(p); }
  }

  lemma RunThenLast(items: seq<Item>, count: nat, total: nat)
    requires 0 < count < total - 1 && |items| == count + 2
    requires forall k | 0 <= k < count :: items[k] == Page(k + 1)
    requires items[count] == Dots && items[count + 1] == Page(total)
    ensures Follows(items)
  {
  }

  lemma WindowAtEnd(current: int, total: nat, siblings: nat)
    requires total - 1 - siblings <= current <= total && total > siblings * 2 + 5
    ensures IsWindow(ToEnd(total, siblings), current, total, siblings)
  {
    var first := total - (3 + 2 * siblings) + 1;
    var items := ToEnd(total, siblings);
    assert forall k | 2 <= k < |items| :: items[k] == Page(first + k - 2);
    FirstThenRun(items, first);
    forall p | first <= p <= total ensures Page(p) in items { assert items[p - first + 2] == Page(p); }
  }

  lemma FirstThenRun(items: seq<Item>, first: int)
    requires |items| > 2 && first > 2
    requires items[0] == Page(1) && items[1] == Dots
    requires forall k | 2 <= k < |items| :: items[k] == Page(first + k - 2)
    ensures Follows(items)
  {
  }

  lemma WindowInside(current: int, total: nat, siblings: nat)
    requires siblings + 2 < current < total - 1 - siblings
    ensures IsWindow(Middle(current - siblings, current + siblings, total), current, total, siblings)
  {
    var left := current - siblings;
    var items := Middle(left, current + siblings, total);
    var last := |items| - 1;
    assert forall k | 2 <= k < last - 1 :: items[k] == Page(left + k - 2);
    FirstRunLast(items, left, total);
    forall p | left <= p <= current + siblings ensures Page(p) in items { assert items[p - left + 2] == Page(p); }
  }

  lemma FirstRunLast(items: seq<Item>, left: int, total: nat)
    requires |items| > 4 && left > 2 && left + |items| - 4 < total
    requires items[0] == Page(1) && items[1] == Dots
    requires items[|items| - 2] == Dots && items[|items| - 1] == Page(total)
    requires forall k | 2 <= k < |items| - 2 :: items[k] == Page(left + k - 2)
    ensures Follows(items)
  {
  }

  lemma WhichWindow(current: int, total: nat, siblings: nat)
    requires 1 <= current <= total && total > siblings * 2 + 5
    ensures BuildPageRange(current, total, siblings)
         == if current <= siblings + 2 then FromStart(total, siblings)
            else if current >= total - 1 - siblings then ToEnd(total, siblings)
            else Middle(current - siblings, current + siblings, total)
  {
  }

  /** The window: from page 1 to the last, the current page and its siblings in it, as many buttons as fit. */
  lemma WindowIsRight(current: int, total: nat, siblings: nat)
    requires 1 <= current <= total
    ensures IsWindow(BuildPageRange(current, total, siblings), current, total, siblings)
  {
    if total <= siblings * 2 + 5 {
      WindowOfAll(current, total, siblings);
    } else {
      WhichWindow(current, total, siblings);
      if current <= siblings + 2 { WindowAtStart(current, total, siblings); }
      else if current >= total - 1 - siblings { WindowAtEnd(current, total, siblings); }
      else { WindowInside(current, total, siblings); }
    }
  }

  /** Where dots stand: after page 1 when the page is far from it, before the last when it is far from that, and nowhere else. */
  lemma DotsWhereFar(current: int, total: nat, siblings: nat, k: nat)
    requires 1 <= current <= total
    requires k < |BuildPageRange(current, total, siblings)|
    ensures var items := BuildPageRange(current, total, siblings);
      items[k].Dots? <==>
        && total > 2 * siblings + 5
        && ((k == 1 && current > siblings + 2) || (k == |items| - 2 && current < total - 1 - siblings))
  {
    if total > siblings * 2 + 5 {
      WhichWindow(current, total, siblings);
    }
  }

  /** ... so its numbers only go up. */
  lemma {:induction false} WindowIncreases(items: seq<Item>, i: nat, j: nat)
    requires Follows(items) && i < j < |items| && items[i].Page? && items[j].Page?
    ensures items[i].n < items[j].n
    decreases j
  {
    if items[j - 1].Page? {
      if i < j - 1 { WindowIncreases(items, i, j - 1); }
    } else if i < j - 2 {
      WindowIncreases(items, i, j - 2);
    }
  }

  // ----- the slices -----

  function TotalPages(items: nat, perPage: nat): nat
    requires perPage > 0
  {
    Max(1, (items + perPage - 1) / perPage)
  }

  /** `data.slice(start, start + perPage)`, which stops at the end of the data. */
  function Slice<T>(data: seq<T>, page: nat, perPage: nat): seq<T>
    requires page >= 1
  {
    var start := (page - 1) * perPage;
    data[Min(start, |data|)..Min(start + perPage, |data|)]
  }

  function FirstPages<T>(data: seq<T>, perPage: nat, n: nat): seq<T> {
    if n == 0 then [] else FirstPages(data, perPage, n - 1) + Slice(data, n, perPage)
  }

  lemma {:induction false} FirstPagesArePrefix<T>(data: seq<T>, perPage: nat, n: nat)
    ensures FirstPages(data, perPage, n) == data[..Min(n * perPage, |data|)]
  {
    if n > 0 {
      FirstPagesArePrefix(data, perPage, n - 1);
      assert n * perPage == (n - 1) * perPage + perPage;
      assert (n - 1) * perPage >= 0;
    }
  }

  /** That many pages are enough, and one less is not. */
  lemma JustEnoughPages(items: nat, perPage: nat)
    requires perPage > 0
    ensures var total := TotalPages(items, perPage);
      total >= 1 && total * perPage >= items && (items > 0 ==> (total - 1) * perPage < items)
  {
    var q := (items + perPage - 1) / perPage;
    assert q * perPage + (items + perPage - 1) % perPage == items + perPage - 1;
    assert (q - 1) * perPage == q * perPage - perPage;
  }

  lemma TimesMonotone(a: int, b: int, c: nat)
    requires 0 <= a <= b
    ensures 0 <= a * c <= b * c
  {
    assert b * c == a * c + (b - a) * c;
  }

  /** The pages, one after the other, are the data: nothing shown twice, nothing left out. */
  lemma PagesAreTheData<T>(data: seq<T>, perPage: nat)
    requires perPage > 0
    ensures FirstPages(data, perPage, TotalPages(|data|, perPage)) == data
  {
    var total := TotalPages(|data|, perPage);
    JustEnoughPages(|data|, perPage);
    FirstPagesArePrefix(data, perPage, total);
    assert data[..|data|] == data;
  }

  lemma StartsInside(items: nat, perPage: nat, page: nat)
    requires perPage > 0 && items > 0 && 1 <= page <= TotalPages(items, perPage)
    ensures 0 <= (page - 1) * perPage < items
  {
    JustEnoughPages(items, perPage);
    TimesMonotone(page - 1, TotalPages(items, perPage) - 1, perPage);
  }

  /** No page is longer than asked, and none is empty unless there is no data. */
  lemma NoPageIsEmpty<T>(data: seq<T>, perPage: nat, page: nat)
    requires perPage > 0 && 1 <= page <= TotalPages(|data|, perPage)
    ensures |Slice(data, page, perPage)| <= perPage && (data != [] ==> Slice(data, page, perPage) != [])
  {
    if data != [] { StartsInside(|data|, perPage, page); }
  }

  // ----- the current page -----

  /** The page after a render's effects: the reset, then the guard, which still sees the page from before the reset. */
  function AfterRender(current: int, total: nat, reset: bool): int {
    if current > total then total else if reset then 1 else current
  }

  /** Without new filters the page stays where it is, as long as it is there; past the end it is the last. */
  lemma RenderKeepsPage(current: int, total: nat)
    requires current >= 1 && total >= 1
    ensures AfterRender(current, total, false) <= current && 1 <= AfterRender(current, total, false) <= total
    ensures current <= total <==> AfterRender(current, total, false) == current
    ensures current > total ==> AfterRender(current, total, false) == total
  {
  }

  /**
    New filters are meant to go back to page 1. They do exactly when the page they were changed on still
    exists (or only one page is left): otherwise the guard has the last word, and shows the last page.
   */
  lemma ResetGoesToPageOne(current: int, total: nat)
    requires current >= 1 && total >= 1
    ensures AfterRender(current, total, true) == 1 <==> current <= total || total == 1
    ensures 1 <= AfterRender(current, total, true) <= total
  {
  }

  /** For example, from page 3 of the list to a search with two pages of results. */
  lemma ResetCanShowTheLastPage()
    ensures AfterRender(3, 2, true) == 2
  {
  }

  class Pager {
    var currentPage: int
    var totalPages: nat

    ghost predicate Valid()
      reads this
    {
      1 <= currentPage <= totalPages
    }

    /** Mounting: the reset effect runs too. */
    constructor (initialPage: int, items: nat, perPage: nat)
      requires perPage > 0
      ensures Valid() && totalPages == TotalPages(items, perPage)
      ensures currentPage == AfterRender(initialPage, totalPages, true)
    {
      var total := TotalPages(items, perPage);
      totalPages := total;
      currentPage := 1;
      if initialPage > total { currentPage := total; }
    }

    /** A render with other data, and with other filters when `reset` is set. */
    method Rendered(items: nat, perPage: nat, reset: bool)
      requires Valid() && perPage > 0
      modifies this
      ensures Valid() && totalPages == TotalPages(items, perPage)
      ensures currentPage == AfterRender(old(currentPage), totalPages, reset)
    {
      totalPages := TotalPages(items, perPage);
      var seen := currentPage;
      if reset { currentPage := 1; }
      if seen > totalPages { currentPage := totalPages; }
    }

    method GoToPage(page: int)
      requires Valid()
      modifies this`currentPage
      ensures Valid() && currentPage == if page < 1 then 1 else if page > totalPages then totalPages else page
    {
      currentPage := Min(Max(page, 1), totalPages);
    }
  }
}
