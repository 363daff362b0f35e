/** The server-side pagination bar: the number of pages, the clamped current
    page, the "Showing X to Y of N results" range, the page buttons with
    ellipses and the Previous / Next buttons. */
module Pagination {
  import opened Common

  /** A button of the bar: a page number or an ellipsis. */
  datatype PageItem = Page(n: int) | Ellipsis

  /** The buttons for pages `lo` to `hi`, in order (none when `lo > hi`). */
  function Run(lo: int, hi: int): (r: seq<PageItem>)
    ensures |r| == if lo <= hi then hi - lo + 1 else 0
    ensures forall k :: 0 <= k < |r| ==> r[k] == Page(lo + k)
    decreases hi - lo
  {
    if lo > hi then [] else [Page(lo)] + Run(lo + 1, hi)
  }

  /** The first page of the window around the current page. */
  function WindowStart(current: int): int { Max(2, current - 1) }

  /** The last page of the window around the current page. */
  function WindowEnd(current: int, totalPages: int): int { Min(totalPages - 1, current + 1) }

  /** The buttons the bar shows for page `current` of `totalPages`: every page
      when there are at most seven, otherwise page 1, an ellipsis when the
      window does not reach page 2, the window, an ellipsis when the window
      does not reach the second-to-last page, and the last page. */
  function PageItems(current: int, totalPages: int): seq<PageItem> {
    if totalPages <= 7 then Run(1, totalPages)
    else
      var start, end := WindowStart(current), WindowEnd(current, totalPages);
      [Page(1)]
      + (if start > 2 then [Ellipsis] else [])
      + Run(start, end)
      + (if end < totalPages - 1 then [Ellipsis] else [])
      + [Page(totalPages)]
  }

  /** `buildPageItems`: fills the list of buttons one push at a time. */
  method BuildPageItems(current: int, totalPages: int) returns (items: seq<PageItem>)
    ensures items == PageItems(current, totalPages)
  {
    if totalPages <= 7 {
      items := [];
      var i := 1;
      while i <= totalPages
        invariant 1 <= i <= Max(totalPages, 0) + 1
        invariant items == Run(1, i - 1)
      {
        RunSnoc(1, i);
        items := items + [Page(i)];
        i := i + 1;
      }
      return;
    }
    items := [Page(1)];
    var start := Max(2, current - 1);
    var end := Min(totalPages - 1, current + 1);
    if start > 2 {
      items := items + [Ellipsis];
    }
    ghost var head := items;
    var i := start;
    while i <= end
      invariant start <= i <= Max(end, start - 1) + 1
      invariant items == head + Run(start, i - 1)
    {
      RunSnoc(start, i);
      items := items + [Page(i)];
      i := i + 1;
    }
    if end < totalPages - 1 {
      items := items + [Ellipsis];
    }
    items := items + [Page(totalPages)];
  }

  /** A run grows at its upper end by one page. */
  lemma RunSnoc(lo: int, hi: int)
    requires lo <= hi
    ensures Run(lo, hi) == Run(lo, hi - 1) + [Page(hi)]
  {
  }

  /** The page numbers among the buttons, in order. */
  function Numbers(items: seq<PageItem>): (r: seq<int>)
    ensures |r| <= |items|
  {
    if items == [] then []
    else (if items[0].Page? then [items[0].n] else []) + Numbers(items[1..])
  }

  predicate StrictlyIncreasing(s: seq<int>) {
    forall i, j :: 0 <= i < j < |s| ==> s[i] < s[j]
  }

  /** With at most seven pages the bar is exactly pages 1 to totalPages, in
      order, with no ellipsis. */
  lemma FewPagesAllShown(current: int, totalPages: int)
    requires totalPages <= 7
    ensures |PageItems(current, totalPages)| == Max(totalPages, 0)
    ensures forall k :: 0 <= k < |PageItems(current, totalPages)| ==>
              PageItems(current, totalPages)[k] == Page(k + 1)
    ensures Ellipsis !in PageItems(current, totalPages)
  {
  }

  /** With more than seven pages and a current page in range, the bar starts
      with page 1, ends with the last page and holds the current page; an
      ellipsis follows page 1
      exactly when the window starts after page 2, and one precedes the last
      page exactly when the window ends before the second-to-last page. */
  lemma ManyPagesShape(current: int, totalPages: int)
    requires 7 < totalPages && 1 <= current <= totalPages
    ensures var items := PageItems(current, totalPages);
            |items| >= 3 && items[0] == Page(1) && items[|items| - 1] == Page(totalPages)
            && (items[1] == Ellipsis <==> WindowStart(current) > 2)
            && (items[|items| - 2] == Ellipsis <==> WindowEnd(current, totalPages) < totalPages - 1)
            && Page(current) in items
  {
    var start, end := WindowStart(current), WindowEnd(current, totalPages);
    var e1: seq<PageItem> := if start > 2 then [Ellipsis] else [];
    var e2: seq<PageItem> := if end < totalPages - 1 then [Ellipsis] else [];
    var w := Run(start, end);
    assert start <= end;
    var items := [Page(1)] + e1 + w + e2 + [Page(totalPages)];
    assert PageItems(current, totalPages) == items;
    if current == 1 {
      assert items[0] == Page(current);
    } else if current == totalPages {
      assert items[|items| - 1] == Page(current);
    } else {
      assert w[current - start] == Page(current);
      assert items[1 + |e1| + current - start] == Page(current);
    }
  }

  /** For a current page in range, the page numbers shown are strictly
      increasing, all lie between 1 and totalPages, and the current page is
      one of them. */
  lemma NumbersInRange(current: int, totalPages: int)
    requires 1 <= current <= totalPages
    ensures var ns := Numbers(PageItems(current, totalPages));
            StrictlyIncreasing(ns)
            && (forall i :: 0 <= i < |ns| ==> 1 <= ns[i] <= totalPages)
            && current in ns
  {
    if totalPages <= 7 {
      NumbersOfRun(1, totalPages);
      assert Numbers(PageItems(current, totalPages))[current - 1] == current;
    } else {
      var start, end := WindowStart(current), WindowEnd(current, totalPages);
      var w := Run(start, end);
      NumbersOfManyPages(current, totalPages);
      NumbersOfRun(start, end);
      var ns := [1] + Numbers(w) + [totalPages];
      assert |ns| == end - start + 3;
      assert forall i :: 0 <= i < |ns| ==>
        ns[i] == (if i == 0 then 1 else if i == |ns| - 1 then totalPages else start + i - 1);
      if 1 < current < totalPages {
        assert ns[current - start + 1] == current;
      } else if current == totalPages {
        assert ns[|ns| - 1] == current;
      }
    }
  }

  /** With more than seven pages the numbers shown are 1, the window, and the
      last page. */
  lemma NumbersOfManyPages(current: int, totalPages: int)
    requires 7 < totalPages
    ensures Numbers(PageItems(current, totalPages))
            == [1] + Numbers(Run(WindowStart(current), WindowEnd(current, totalPages))) + [totalPages]
  {
    var start, end := WindowStart(current), WindowEnd(current, totalPages);
    var e1: seq<PageItem> := if start > 2 then [Ellipsis] else [];
    var e2: seq<PageItem> := if end < totalPages - 1 then [Ellipsis] else [];
    var w := Run(start, end);
    assert Numbers(e1) == [] && Numbers(e2) == [];
    assert Numbers([Page(1)]) == [1] && Numbers([Page(totalPages)]) == [totalPages];
    var A := [Page(1)] + e1;
    var B := A + w;
    var C := B + e2;
    NumbersAppend([Page(1)], e1);
    NumbersAppend(A, w);
    NumbersAppend(B, e2);
    NumbersAppend(C, [Page(totalPages)]);
  }

  lemma {:induction false} NumbersAppend(a: seq<PageItem>, b: seq<PageItem>)
    ensures Numbers(a + b) == Numbers(a) + Numbers(b)
  {
    if a == [] {
      assert a + b == b;
    } else {
      assert (a + b)[0] == a[0] && (a + b)[1..] == a[1..] + b;
      NumbersAppend(a[1..], b);
    }
  }

  lemma {:induction false} NumbersOfRun(lo: int, hi: int)
    ensures var ns := Numbers(Run(lo, hi));
            |ns| == |Run(lo, hi)| && forall k :: 0 <= k < |ns| ==> ns[k] == lo + k
    decreases hi - lo
  {
    if lo <= hi {
      NumbersOfRun(lo + 1, hi);
      assert Run(lo, hi)[1..] == Run(lo + 1, hi);
    }
  }

  /** For a current page in range, the buttons leave out no page silently:
      two adjacent page buttons are consecutive pages, and an ellipsis always
      stands between two page buttons with at least one page hidden between
      them. */
  lemma EllipsisMarksGap(current: int, totalPages: int)
    requires 1 <= current <= totalPages
    ensures var items := PageItems(current, totalPages);
            forall k :: 0 <= k < |items| - 1 && items[k].Page? && items[k + 1].Page? ==>
              items[k + 1].n == items[k].n + 1
    ensures var items := PageItems(current, totalPages);
            forall k :: 0 <= k < |items| && items[k] == Ellipsis ==>
              0 < k < |items| - 1 && items[k - 1].Page? && items[k + 1].Page?
              && items[k + 1].n >= items[k - 1].n + 2
  {
    var items := PageItems(current, totalPages);
    if totalPages > 7 {
      forall k | 0 <= k < |items| - 1 && items[k].Page? && items[k + 1].Page?
        ensures items[k + 1].n == items[k].n + 1
      {
        ItemAt(current, totalPages, k);
        ItemAt(current, totalPages, k + 1);
      }
      forall k | 0 <= k < |items| && items[k] == Ellipsis
        ensures 0 < k < |items| - 1 && items[k - 1].Page? && items[k + 1].Page?
                && items[k + 1].n >= items[k - 1].n + 2
      {
        ItemAt(current, totalPages, k);
        ItemAt(current, totalPages, k - 1);
        ItemAt(current, totalPages, k + 1);
      }
    }
  }

  /** The button at position `k` of a bar with more than seven pages, where
      `a` is the position of the window's first page and `b` the position
      just after the window. */
  lemma ItemAt(current: int, totalPages: int, k: int)
    requires 1 <= current <= totalPages && 7 < totalPages
    requires 0 <= k < |PageItems(current, totalPages)|
    ensures var start, end := WindowStart(current), WindowEnd(current, totalPages);
            var a := if start > 2 then 2 else 1;
            var b := a + end - start + 1;
            var items := PageItems(current, totalPages);
            start <= end && |items| == b + (if end < totalPages - 1 then 2 else 1)
            && items[k] == (if k == 0 then Page(1)
                            else if k < a then Ellipsis
                            else if k < b then Page(start + k - a)
                            else if k < |items| - 1 then Ellipsis
                            else Page(totalPages))
  {
    var start, end := WindowStart(current), WindowEnd(current, totalPages);
    var e1: seq<PageItem> := if start > 2 then [Ellipsis] else [];
    var e2: seq<PageItem> := if end < totalPages - 1 then [Ellipsis] else [];
    var w := Run(start, end);
    var items := [Page(1)] + e1 + w + e2 + [Page(totalPages)];
    assert PageItems(current, totalPages) == items;
    var a := 1 + |e1|;
    var b := a + |w|;
    if a <= k < b {
      assert items[k] == w[k - a];
    }
  }

  /** `Math.ceil(total / limit)` for a positive limit. */
  function CeilDiv(total: int, limit: int): int
    requires limit > 0
  {
    -((-total) / limit)
  }

  /** The ceiling is the least page count whose pages hold `total` rows. */
  lemma CeilDivBounds(total: int, limit: int)
    requires limit > 0
    ensures (CeilDiv(total, limit) - 1) * limit < total <= CeilDiv(total, limit) * limit
  {
    var q := (-total) / limit;
    var r := (-total) % limit;
    assert -total == q * limit + r && 0 <= r < limit;
    assert CeilDiv(total, limit) == -q;
    assert (-q - 1) * limit == -(q * limit) - limit;
    assert -q * limit == -(q * limit);
  }

  /** `Math.max(1, Math.ceil(total / limit))`: at least one page, and exactly
      enough pages to hold `total` rows when there are any. */
  function TotalPages(total: int, limit: int): (r: int)
    requires limit > 0
    ensures r >= 1
    ensures total > 0 ==> (r - 1) * limit < total <= r * limit
    ensures total <= 0 ==> r == 1
  {
    CeilDivBounds(total, limit);
    Max(1, CeilDiv(total, limit))
  }

  /** `Math.min(Math.max(page, 1), totalPages)` */
  function SafePage(page: int, totalPages: int): (r: int)
    requires totalPages >= 1
    ensures 1 <= r <= totalPages
    ensures 1 <= page <= totalPages ==> r == page
  {
    Min(Max(page, 1), totalPages)
  }

  /** What the bar shows when it is rendered. */
  datatype View = View(
    safePage: int,
    totalPages: int,
    startResult: int,
    endResult: int,
    items: seq<PageItem>,
    previousEnabled: bool,
    nextEnabled: bool,
    previousTarget: int,
    nextTarget: int)

  /** `CustomPagination`: nothing when there is at most one page; otherwise the
      clamped page, a non-empty "Showing X to Y of total" range that lies
      within the rows, the buttons for the clamped page, and Previous / Next
      buttons that are enabled exactly when they lead to a page in range.
      The page each button hands to `onPageChange`: Previous sends the
      clamped page minus one, Next the clamped page plus one, and a numbered
      button its own number, which lies in range. */
  method Render(page: int, limit: int, total: int) returns (view: Option<View>)
    requires limit > 0
    ensures view.None? <==> TotalPages(total, limit) <= 1
    ensures view.Some? ==>
      var v := view.value;
      v.totalPages == TotalPages(total, limit)
      && v.safePage == SafePage(page, v.totalPages)
      && 1 <= v.startResult <= v.endResult <= total
      && v.startResult == (v.safePage - 1) * limit + 1
      && v.endResult == Min(v.safePage * limit, total)
      && v.items == PageItems(v.safePage, v.totalPages)
      && (v.previousEnabled <==> 1 <= v.safePage - 1)
      && (v.nextEnabled <==> v.safePage + 1 <= v.totalPages)
      && v.previousTarget == v.safePage - 1 && v.nextTarget == v.safePage + 1
      && (v.previousEnabled ==> 1 <= v.previousTarget <= v.totalPages)
      && (v.nextEnabled ==> 1 <= v.nextTarget <= v.totalPages)
      && (forall i :: 0 <= i < |Numbers(v.items)| ==> 1 <= Numbers(v.items)[i] <= v.totalPages)
      && v.safePage in Numbers(v.items)
  {
    var totalPages := TotalPages(total, limit);
    var safePage := SafePage(page, totalPages);
    if totalPages <= 1 {
      return None;
    }
    var startResult := (safePage - 1) * limit + 1;
    var endResult := Min(safePage * limit, total);
    ResultRangeWithin(safePage, totalPages, limit, total);
    var items := BuildPageItems(safePage, totalPages);
    NumbersInRange(safePage, totalPages);
    view := Some(View(safePage, totalPages, startResult, endResult, items,
                      safePage != 1, safePage != totalPages, safePage - 1, safePage + 1));
  }

  /** The "Showing X to Y" range of a page in range is non-empty and lies
      within the rows. */
  lemma ResultRangeWithin(safePage: int, totalPages: int, limit: int, total: int)
    requires limit > 0 && totalPages == TotalPages(total, limit) && totalPages > 1
    requires 1 <= safePage <= totalPages
    ensures 1 <= (safePage - 1) * limit + 1 <= Min(safePage * limit, total) <= total
  {
    assert (safePage - 1) * limit <= (totalPages - 1) * limit by {
      MulMonotone(safePage - 1, totalPages - 1, limit);
    }
    assert safePage * limit == (safePage - 1) * limit + limit;
  }

  lemma MulMonotone(a: int, b: int, c: nat)
    requires a <= b
    ensures a * c <= b * c
  {
  }
}
