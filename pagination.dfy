/** The pagination bar of `Pagination.jsx`: the "Showing x to y" bounds, the window of
    at most seven page buttons with gaps, and the prev/next guards. */
module PaginationWindow {
  import opened Seqs
  import opened Wrappers

  /** A button of the bar: a page number, or the disabled "..." gap. */
  datatype PageEntry = Number(page: int) | Gap

  /** Beyond this many pages the bar is shortened with gaps. */
  const MaxButtons: nat := 7

  /** The page numbers 1 to `totalPages`; a non-positive length gives none. */
  function PageNumbers(totalPages: int): (r: seq<int>)
    ensures |r| == if totalPages > 0 then totalPages else 0
    ensures forall i :: 0 <= i < |r| ==> r[i] == i + 1
  {
    seq(if totalPages > 0 then totalPages else 0, i => i + 1)
  }

  function Buttons(pages: seq<int>): seq<PageEntry> {
    Map((p: int) => Number(p), pages)
  }

  /** The first item shown on the current page (1-based). */
  /** The first item shown: the full pages before the current one come first. */
  function StartItem(currentPage: int, itemsPerPage: int): (r: int)
    ensures r - 1 == (currentPage - 1) * itemsPerPage
    ensures 1 <= currentPage && 0 <= itemsPerPage ==> 1 <= r
  {
    (currentPage - 1) * itemsPerPage + 1
  }

  /** The last item shown on the current page, never beyond the list. */
  function EndItem(currentPage: int, itemsPerPage: int, totalItems: int): (r: int)
    ensures r <= totalItems
    ensures r <= currentPage * itemsPerPage
    ensures r == totalItems || r == currentPage * itemsPerPage
  {
    if currentPage * itemsPerPage < totalItems then currentPage * itemsPerPage else totalItems
  }

  /** For a current page that exists, the bounds name a non-empty run of at most one page of items. */
  lemma ShowingBoundsOnPage(currentPage: int, itemsPerPage: int, totalItems: int)
    requires itemsPerPage >= 1 && currentPage >= 1
    requires (currentPage - 1) * itemsPerPage < totalItems
    ensures 1 <= StartItem(currentPage, itemsPerPage) <= EndItem(currentPage, itemsPerPage, totalItems)
    ensures EndItem(currentPage, itemsPerPage, totalItems) - StartItem(currentPage, itemsPerPage) < itemsPerPage
  {
    assert currentPage * itemsPerPage == (currentPage - 1) * itemsPerPage + itemsPerPage;
    assert (currentPage - 1) * itemsPerPage >= 0;
  }

  /** Consecutive pages abut: the next page starts right after the current one ends,
      unless the current one already reaches the last item. */
  lemma PagesAbut(currentPage: int, itemsPerPage: int, totalItems: int)
    requires currentPage * itemsPerPage < totalItems
    ensures StartItem(currentPage + 1, itemsPerPage) == EndItem(currentPage, itemsPerPage, totalItems) + 1
  {
  }

  /** An empty list reads "Showing 1 to 0 of 0 items". */
  lemma ShowingBoundsEmptyList(itemsPerPage: int)
    requires itemsPerPage >= 0
    ensures StartItem(1, itemsPerPage) == 1 && EndItem(1, itemsPerPage, 0) == 0
  {
  }

  /** The numbers of the buttons, gaps skipped. */
  function Numbers(entries: seq<PageEntry>): seq<int> {
    if entries == [] then []
    else (if entries[0].Number? then [entries[0].page] else []) + Numbers(entries[1..])
  }

  function GapCount(entries: seq<PageEntry>): nat {
    if entries == [] then 0 else (if entries[0] == Gap then 1 else 0) + GapCount(entries[1..])
  }

  /** The buttons of the bar for the given page. */
  function VisiblePages(currentPage: int, totalPages: int): (r: seq<PageEntry>)
    ensures |r| <= MaxButtons
    ensures totalPages <= MaxButtons ==> r == Buttons(PageNumbers(totalPages))
    ensures totalPages > MaxButtons ==> r == LongWindow(currentPage, totalPages)
  {
    var pages := PageNumbers(totalPages);
    if totalPages <= MaxButtons then Buttons(pages)
    else if currentPage <= 4 then
      assert pages[..5] == [1, 2, 3, 4, 5];
      Buttons(pages[..5]) + [Gap, Number(totalPages)]
    else if currentPage >= totalPages - 3 then
      assert pages[totalPages - 5..] == [totalPages - 4, totalPages - 3, totalPages - 2, totalPages - 1, totalPages];
      [Number(1), Gap] + Buttons(pages[totalPages - 5..])
    else [Number(1), Gap, Number(currentPage - 1), Number(currentPage), Number(currentPage + 1), Gap, Number(totalPages)]
  }

  /** The three shapes of a bar longer than seven pages, written out. */
  function LongWindow(currentPage: int, totalPages: int): seq<PageEntry> {
    if currentPage <= 4 then
      [Number(1), Number(2), Number(3), Number(4), Number(5), Gap, Number(totalPages)]
    else if currentPage >= totalPages - 3 then
      [Number(1), Gap, Number(totalPages - 4), Number(totalPages - 3), Number(totalPages - 2), Number(totalPages - 1), Number(totalPages)]
    else
      [Number(1), Gap, Number(currentPage - 1), Number(currentPage), Number(currentPage + 1), Gap, Number(totalPages)]
  }

  /** A bar of more than seven pages has exactly seven buttons, from page 1 to the last page. */
  lemma LongWindowEnds(currentPage: int, totalPages: int)
    requires totalPages > MaxButtons
    ensures var r := VisiblePages(currentPage, totalPages);
      |r| == MaxButtons && r[0] == Number(1) && r[6] == Number(totalPages)
  {
  }

  /** The numbered buttons lie in 1..totalPages, in strictly increasing order; neighbouring
      numbers are consecutive pages, and a gap always stands for at least one hidden page. */
  predicate WellOrdered(r: seq<PageEntry>, totalPages: int) {
    && (forall i :: 0 <= i < |r| && r[i].Number? ==> 1 <= r[i].page <= totalPages)
    && (forall i, j :: 0 <= i < j < |r| && r[i].Number? && r[j].Number? ==> r[i].page < r[j].page)
    && (forall i :: 0 <= i < |r| - 1 && r[i].Number? && r[i + 1].Number? ==> r[i + 1].page == r[i].page + 1)
    && (forall i :: 0 <= i < |r| && r[i] == Gap ==>
          0 < i < |r| - 1 && r[i - 1].Number? && r[i + 1].Number? && r[i + 1].page > r[i - 1].page + 1)
  }

  lemma WindowOrdered(currentPage: int, totalPages: int)
    ensures WellOrdered(VisiblePages(currentPage, totalPages), totalPages)
  {
    var r := VisiblePages(currentPage, totalPages);
    if totalPages <= MaxButtons {
      assert forall i :: 0 <= i < |r| ==> r[i] == Number(i + 1);
    } else if currentPage <= 4 {
      LongWindowOrdered(r, [1, 2, 3, 4, 5, 0, totalPages], totalPages);
    } else if currentPage >= totalPages - 3 {
      LongWindowOrdered(r, [1, 0, totalPages - 4, totalPages - 3, totalPages - 2, totalPages - 1, totalPages], totalPages);
    } else {
      LongWindowOrdered(r, [1, 0, currentPage - 1, currentPage, currentPage + 1, 0, totalPages], totalPages);
    }
  }

  /** A seven-button bar given by its page numbers, 0 standing for a gap. */
  lemma LongWindowOrdered(r: seq<PageEntry>, ps: seq<int>, totalPages: int)
    requires |r| == 7 && |ps| == 7
    requires forall i :: 0 <= i < 7 ==> r[i] == if ps[i] == 0 then Gap else Number(ps[i])
    requires ps[0] == 1 && ps[6] == totalPages && ps[2] != 0 && ps[3] != 0 && ps[4] != 0
    requires ps[1] == 0 ==> ps[2] > 2
    requires ps[1] != 0 ==> ps[1] == 2 && ps[2] == 3
    requires ps[5] == 0 ==> ps[4] < totalPages - 1
    requires ps[5] != 0 ==> ps[5] == ps[4] + 1 && ps[6] == ps[5] + 1
    requires ps[3] == ps[2] + 1 && ps[4] == ps[3] + 1
    ensures WellOrdered(r, totalPages)
  {
    // The numbered positions carry increasing pages: a number sits below every later one.
    assert forall i :: 0 <= i < 7 && r[i].Number? ==> r[i].page == ps[i] && ps[i] != 0;
    forall i, j | 0 <= i < j < 7 && r[i].Number? && r[j].Number?
      ensures r[i].page < r[j].page
    {
      assert ps[i] < ps[j] by {
        assert ps[0] < ps[2] < ps[3] < ps[4] < ps[6];
        assert ps[1] != 0 ==> ps[0] < ps[1] < ps[2];
        assert ps[5] != 0 ==> ps[4] < ps[5] < ps[6];
      }
    }
  }

  /** A current page that exists always has its own button. */
  lemma CurrentPageVisible(currentPage: int, totalPages: int)
    requires 1 <= currentPage <= totalPages
    ensures Number(currentPage) in VisiblePages(currentPage, totalPages)
  {
    var r := VisiblePages(currentPage, totalPages);
    if totalPages <= MaxButtons {
      assert r[currentPage - 1] == Number(currentPage);
    } else if currentPage <= 4 {
      assert r[currentPage - 1] == Number(currentPage);
    } else if currentPage >= totalPages - 3 {
      assert r[currentPage - totalPages + 6] == Number(currentPage);
    } else {
      assert r[3] == Number(currentPage);
    }
  }

  /** No gap in a short bar, one near either end of a long bar, two in the middle. */
  lemma GapsOfTheWindow(currentPage: int, totalPages: int)
    ensures GapCount(VisiblePages(currentPage, totalPages)) ==
      if totalPages <= MaxButtons then 0
      else if currentPage <= 4 || currentPage >= totalPages - 3 then 1
      else 2
  {
    var r := VisiblePages(currentPage, totalPages);
    if totalPages <= MaxButtons {
      NoGapsInButtons(PageNumbers(totalPages));
    } else {
      GapCountOfSeven(r);
    }
  }

  lemma {:induction false} NoGapsInButtons(pages: seq<int>)
    ensures GapCount(Buttons(pages)) == 0
    decreases |pages|
  {
    if pages != [] {
      assert Buttons(pages)[1..] == Buttons(pages[1..]);
      NoGapsInButtons(pages[1..]);
    }
  }

  function GapAt(r: seq<PageEntry>, i: nat): nat
    requires i < |r|
  {
    if r[i] == Gap then 1 else 0
  }

  lemma GapCountOfSeven(r: seq<PageEntry>)
    requires |r| == 7
    ensures GapCount(r) == GapAt(r, 0) + GapAt(r, 1) + GapAt(r, 2) + GapAt(r, 3) + GapAt(r, 4) + GapAt(r, 5) + GapAt(r, 6)
  {
    assert GapCount(r[7..]) == 0;
    assert r[6..][1..] == r[7..];
    assert GapCount(r[6..]) == GapAt(r, 6);
    assert r[5..][1..] == r[6..];
    assert GapCount(r[5..]) == GapAt(r, 5) + GapAt(r, 6);
    assert r[4..][1..] == r[5..];
    assert GapCount(r[4..]) == GapAt(r, 4) + GapAt(r, 5) + GapAt(r, 6);
    assert r[3..][1..] == r[4..];
    assert GapCount(r[3..]) == GapAt(r, 3) + GapAt(r, 4) + GapAt(r, 5) + GapAt(r, 6);
    assert r[2..][1..] == r[3..];
    assert GapCount(r[2..]) == GapAt(r, 2) + GapAt(r, 3) + GapAt(r, 4) + GapAt(r, 5) + GapAt(r, 6);
    assert r[1..][1..] == r[2..];
    assert GapCount(r[1..]) == GapAt(r, 1) + GapAt(r, 2) + GapAt(r, 3) + GapAt(r, 4) + GapAt(r, 5) + GapAt(r, 6);
    assert r[0..][1..] == r[1..];
    assert GapCount(r[0..]) == GapAt(r, 0) + GapAt(r, 1) + GapAt(r, 2) + GapAt(r, 3) + GapAt(r, 4) + GapAt(r, 5) + GapAt(r, 6);
    assert r[0..] == r;
  }

  /** Pressing a button: a number goes to that page; the gap does nothing. */
  function ClickTarget(entry: PageEntry): (r: Option<int>)
    ensures r.None? <==> entry == Gap
    ensures r.Some? ==> entry == Number(r.value)
  {
    if entry.Number? then Some(entry.page) else None
  }

  /** On an existing page, the back arrow is disabled exactly when it would leave the range. */
  predicate PrevDisabled(currentPage: int): (d: bool)
    ensures 1 <= currentPage ==> (d <==> currentPage - 1 < 1)
  {
    currentPage == 1
  }

  /** On an existing page, the forward arrow is disabled exactly when it would leave the range. */
  predicate NextDisabled(currentPage: int, totalPages: int): (d: bool)
    ensures currentPage <= totalPages ==> (d <==> totalPages < currentPage + 1)
  {
    currentPage == totalPages
  }

  /** On a page that exists, every enabled control leads to a page that exists. */
  lemma ControlsStayInRange(currentPage: int, totalPages: int)
    requires 1 <= currentPage <= totalPages
    ensures !PrevDisabled(currentPage) ==> 1 <= currentPage - 1
    ensures !NextDisabled(currentPage, totalPages) ==> currentPage + 1 <= totalPages
    ensures forall e :: e in VisiblePages(currentPage, totalPages) && ClickTarget(e).Some? ==>
              1 <= ClickTarget(e).value <= totalPages
  {
    var r := VisiblePages(currentPage, totalPages);
    WindowOrdered(currentPage, totalPages);
    forall e | e in r && ClickTarget(e).Some?
      ensures 1 <= ClickTarget(e).value <= totalPages
    {
      var i :| 0 <= i < |r| && r[i] == e;
    }
  }

  /** With no pages at all, "next" stays enabled on page 1 and leads to page 2. */
  lemma NextEnabledWithoutPages()
    ensures !NextDisabled(1, 0) && PrevDisabled(1)
  {
  }
}
