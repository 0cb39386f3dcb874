/** The wiki's numbered pagination (src/pages/core/wiki/components/WikiPagination.tsx):
    the first and last page, a window of pages around the current one,
    ellipses for the gaps, the previous/next buttons and the summary line. */
module Pagination {
  import opened Basics

  /** A rendered element of the page list: a numbered button or "...". */
  datatype Item = Page(n: int) | Ellipsis

  /** The window half-width: 1 on a viewport narrower than 768 pixels, 2
      otherwise and when there is no window object (`width == None`). */
  function Range(width: Option<int>): (r: int)
    ensures r == 1 || r == 2
    ensures r == 1 <==> width.Some? && width.value < 768
  {
    if width.Some? && width.value < 768 then 1 else 2
  }

  function Max(a: int, b: int): int { if a >= b then a else b }
  function Min(a: int, b: int): int { if a <= b then a else b }

  /** The buttons lo, lo+1, ..., hi. */
  function Window(lo: int, hi: int): (w: seq<Item>)
    ensures |w| == Max(0, hi - lo + 1)
    ensures forall k | 0 <= k < |w| :: w[k] == Page(lo + k)
  {
    seq(Max(0, hi - lo + 1), k requires 0 <= k => Page(lo + k))
  }

  function Leading(current: int, range: int): seq<Item> {
    if current > range + 1 then [Page(1)] + (if current > range + 2 then [Ellipsis] else []) else []
  }

  function Trailing(total: int, current: int, range: int): seq<Item> {
    if current < total - range then (if current < total - range - 1 then [Ellipsis] else []) + [Page(total)] else []
  }

  /** What `renderPageButtons` builds (WikiPagination.tsx:26-93). */
  function Buttons(total: int, current: int, range: int): (b: seq<Item>)
    ensures forall i | 0 <= i < |b| && b[i].Page? ::
      b[i].n == 1 || b[i].n == total || current - range <= b[i].n <= current + range
  {
    Leading(current, range) + Window(Max(1, current - range), Min(total, current + range)) + Trailing(total, current, range)
  }

  /** `renderPageButtons`, pushing onto the list as the component does. */
  method RenderPageButtons(total: int, current: int, width: Option<int>) returns (pages: seq<Item>)
    ensures pages == Buttons(total, current, Range(width))
  {
    var range := if width.Some? && width.value < 768 then 1 else 2;
    assert range == Range(width);
    pages := [];
    if current > range + 1 {
      pages := pages + [Page(1)];
      if current > range + 2 {
        pages := pages + [Ellipsis];
      }
    }
    assert pages == Leading(current, range);
    var lead := pages;
    var lo := Max(1, current - range);
    var hi := Min(total, current + range);
    var i := lo;
    while i <= hi
      invariant lo <= i <= Max(lo, hi + 1)
      invariant pages == lead + Window(lo, i - 1)
      decreases hi - i
    {
      WindowGrows(lo, i);
      assert lead + Window(lo, i) == (lead + Window(lo, i - 1)) + [Page(i)];
      pages := pages + [Page(i)];
      i := i + 1;
    }
    var tail := [];
    if current < total - range {
      if current < total - range - 1 {
        tail := tail + [Ellipsis];
      }
      tail := tail + [Page(total)];
    }
    assert tail == Trailing(total, current, range);
    assert Window(lo, i - 1) == Window(lo, hi);
    pages := pages + tail;
  }

  lemma WindowGrows(lo: int, i: int)
    requires lo <= i
    ensures Window(lo, i) == Window(lo, i - 1) + [Page(i)]
  {
  }

  // ---------------------------------------------------------------------
  // Properties of the page list, for 1 <= current <= total

  predicate Increasing(items: seq<Item>) {
    forall i, j | 0 <= i < j < |items| && items[i].Page? && items[j].Page? :: items[i].n < items[j].n
  }

  predicate InBounds(items: seq<Item>, total: int) {
    forall i | 0 <= i < |items| && items[i].Page? :: 1 <= items[i].n <= total
  }

  predicate PagesBelow(items: seq<Item>, bound: int) {
    forall i | 0 <= i < |items| && items[i].Page? :: items[i].n < bound
  }

  predicate PagesAbove(items: seq<Item>, bound: int) {
    forall i | 0 <= i < |items| && items[i].Page? :: items[i].n > bound
  }

  lemma IncreasingConcat(a: seq<Item>, b: seq<Item>, bound: int)
    requires Increasing(a) && Increasing(b) && PagesBelow(a, bound) && PagesAbove(b, bound - 1)
    ensures Increasing(a + b)
  {
    forall i, j | 0 <= i < j < |a + b| && (a + b)[i].Page? && (a + b)[j].Page?
      ensures (a + b)[i].n < (a + b)[j].n
    {
      if j < |a| {
        assert (a + b)[i] == a[i] && (a + b)[j] == a[j];
      } else if i >= |a| {
        assert (a + b)[i] == b[i - |a|] && (a + b)[j] == b[j - |a|];
      } else {
        assert (a + b)[i] == a[i] && (a + b)[j] == b[j - |a|];
      }
    }
  }

  /** Page numbers are strictly increasing (so there are no duplicates) and
      lie between 1 and the total. */
  lemma ButtonsSortedInBounds(total: int, current: int, range: int)
    requires 1 <= current <= total && 1 <= range
    ensures Increasing(Buttons(total, current, range))
    ensures InBounds(Buttons(total, current, range), total)
  {
    var lead := Leading(current, range);
    var lo := Max(1, current - range);
    var hi := Min(total, current + range);
    var w := Window(lo, hi);
    var trail := Trailing(total, current, range);
    assert PagesBelow(lead, lo);
    assert PagesAbove(w, lo - 1);
    IncreasingConcat(lead, w, lo);
    var lw := lead + w;
    assert PagesBelow(lw, hi + 1) by {
      forall i | 0 <= i < |lw| && lw[i].Page? ensures lw[i].n < hi + 1 {
        if i >= |lead| {
          assert lw[i] == w[i - |lead|];
        }
      }
    }
    IncreasingConcat(lw, trail, hi + 1);
    var all := lw + trail;
    forall i | 0 <= i < |all| && all[i].Page? ensures 1 <= all[i].n <= total {
      if i < |lead| {
        assert all[i] == lead[i];
      } else if i < |lw| {
        assert all[i] == w[i - |lead|];
      } else {
        assert all[i] == trail[i - |lw|];
      }
    }
  }

  /** The first and the last page always have a button, and so does every
      page within `range` of the current one. */
  lemma ButtonsCover(total: int, current: int, range: int, p: int)
    requires 1 <= current <= total && 1 <= range
    requires 1 <= p <= total && (p == 1 || p == total || (current - range <= p <= current + range))
    ensures Page(p) in Buttons(total, current, range)
  {
    var lead := Leading(current, range);
    var lo := Max(1, current - range);
    var hi := Min(total, current + range);
    var w := Window(lo, hi);
    var trail := Trailing(total, current, range);
    assert Buttons(total, current, range) == lead + w + trail;
    if lo <= p <= hi {
      assert w[p - lo] == Page(p);
    } else if p == 1 {
      assert lead[0] == Page(1);
    } else {
      assert trail[|trail| - 1] == Page(total);
    }
  }

  /** The leading "..." appears exactly when page 2 has no button, which is
      when current > range + 2. */
  lemma LeadingEllipsisExactly(total: int, current: int, range: int)
    requires 1 <= current <= total && 1 <= range && total >= 3
    ensures var b := Buttons(total, current, range);
      && |b| >= 2
      && (b[1] == Ellipsis <==> current > range + 2)
      && (b[1] == Ellipsis <==> Page(2) !in b)
  {
    var b := Buttons(total, current, range);
    var lead := Leading(current, range);
    var lo := Max(1, current - range);
    var hi := Min(total, current + range);
    var w := Window(lo, hi);
    var trail := Trailing(total, current, range);
    assert b == lead + w + trail;
    ButtonsCover(total, current, range, 1);
    ButtonsCover(total, current, range, total);
    ButtonsSortedInBounds(total, current, range);
    if current > range + 2 {
      assert b[0] == Page(1) && b[1] == Ellipsis && b[2] == Page(lo);
    } else {
      ButtonsCover(total, current, range, 2);
      if current == range + 2 {
        assert b[1] == w[0];
      } else {
        assert lead == [] && lo == 1 && hi >= 2;
        assert b[1] == w[1];
      }
    }
  }

  /** The trailing "..." appears exactly when page total-1 has no button,
      which is when current < total - range - 1. */
  lemma TrailingEllipsisExactly(total: int, current: int, range: int)
    requires 1 <= current <= total && 1 <= range && total >= 3
    ensures var b := Buttons(total, current, range);
      && |b| >= 2
      && (b[|b| - 2] == Ellipsis <==> current < total - range - 1)
      && (b[|b| - 2] == Ellipsis <==> Page(total - 1) !in b)
  {
    var b := Buttons(total, current, range);
    var lead := Leading(current, range);
    var lo := Max(1, current - range);
    var hi := Min(total, current + range);
    var w := Window(lo, hi);
    var trail := Trailing(total, current, range);
    assert b == (lead + w) + trail;
    ButtonsCover(total, current, range, 1);
    ButtonsCover(total, current, range, total);
    ButtonsSortedInBounds(total, current, range);
    var n := |b|;
    if current < total - range - 1 {
      assert trail == [Ellipsis, Page(total)];
      assert b[n - 1] == Page(total) && b[n - 2] == Ellipsis && b[n - 3] == Page(hi);
    } else {
      ButtonsCover(total, current, range, total - 1);
      if current == total - range - 1 {
        assert trail == [Page(total)];
        assert b[n - 2] == w[|w| - 1];
      } else {
        assert trail == [] && hi == total && lo <= total - 1;
        assert b[n - 2] == w[|w| - 2];
      }
    }
  }

  /** The number of numbered buttons in a list. */
  function NumPages(items: seq<Item>): nat {
    if items == [] then 0 else (if items[0].Page? then 1 else 0) + NumPages(items[1..])
  }

  lemma {:induction false} NumPagesConcat(a: seq<Item>, b: seq<Item>)
    ensures NumPages(a + b) == NumPages(a) + NumPages(b)
    decreases |a|
  {
    if a == [] {
      assert a + b == b;
    } else {
      assert (a + b)[1..] == a[1..] + b;
      NumPagesConcat(a[1..], b);
    }
  }

  lemma {:induction false} NumPagesAtMostLength(items: seq<Item>)
    ensures NumPages(items) <= |items|
    decreases |items|
  {
    if items != [] {
      NumPagesAtMostLength(items[1..]);
    }
  }

  /** At most 2 * range + 3 numbered buttons (the window, the first and the
      last page), and at most two ellipses besides. */
  lemma ButtonsCount(total: int, current: int, range: int)
    requires 1 <= current <= total && 1 <= range
    ensures NumPages(Buttons(total, current, range)) <= 2 * range + 3
    ensures |Buttons(total, current, range)| <= 2 * range + 5
    ensures |Window(Max(1, current - range), Min(total, current + range))| <= 2 * range + 1
  {
    var lead := Leading(current, range);
    var w := Window(Max(1, current - range), Min(total, current + range));
    var trail := Trailing(total, current, range);
    NumPagesConcat(lead, w);
    NumPagesConcat(lead + w, trail);
    NumPagesAtMostLength(w);
    assert NumPages(lead) <= 1 by {
      if current > range + 2 {
        assert lead == [Page(1), Ellipsis] && lead[1..] == [Ellipsis] && lead[1..][1..] == [];
      } else if current > range + 1 {
        assert lead == [Page(1)] && lead[1..] == [];
      }
    }
    assert NumPages(trail) <= 1 by {
      if current < total - range - 1 {
        assert trail == [Ellipsis, Page(total)] && trail[1..] == [Page(total)] && trail[1..][1..] == [];
      } else if current < total - range {
        assert trail == [Page(total)] && trail[1..] == [];
      }
    }
  }

  // ---------------------------------------------------------------------
  // The component

  datatype PaginationInfo = PaginationInfo(currentPage: int, pageSize: int, totalPages: int, totalCount: int)

  /** What the component renders: the two arrow buttons (whether disabled,
      and which page they request), the page list and the summary line
      "Mostrando from - to de totalCount entradas". */
  datatype Controls = Controls(
    prevDisabled: bool, prevTarget: int,
    buttons: seq<Item>,
    nextDisabled: bool, nextTarget: int,
    shownFrom: int, shownTo: int, shownOf: int)

  /** The component (WikiPagination.tsx:17-131); `None` renders nothing. */
  function Render(p: PaginationInfo, currentPage: int, width: Option<int>): (r: Option<Controls>)
    ensures r.None? <==> p.totalPages <= 1
    ensures r.Some? ==>
      && (r.value.prevDisabled <==> currentPage == 1) && r.value.prevTarget == currentPage - 1
      && (r.value.nextDisabled <==> currentPage == p.totalPages) && r.value.nextTarget == currentPage + 1
      && r.value.shownFrom == (currentPage - 1) * p.pageSize + 1
      && r.value.shownTo == Min(currentPage * p.pageSize, p.totalCount)
      && r.value.shownTo <= p.totalCount
    ensures r.Some? ==> r.value.buttons == Buttons(p.totalPages, currentPage, Range(width)) && r.value.shownOf == p.totalCount
  {
    if p.totalPages <= 1 then None
    else Some(Controls(
      currentPage == 1, currentPage - 1,
      Buttons(p.totalPages, currentPage, Range(width)),
      currentPage == p.totalPages, currentPage + 1,
      (currentPage - 1) * p.pageSize + 1, Min(currentPage * p.pageSize, p.totalCount), p.totalCount))
  }

  /** Previous and next never request a page outside 1..totalPages when the
      disabled one is not clickable. */
  lemma ArrowsStayInRange(p: PaginationInfo, currentPage: int, width: Option<int>)
    requires 1 <= currentPage <= p.totalPages && p.totalPages > 1
    ensures var c := Render(p, currentPage, width).value;
      && (!c.prevDisabled ==> 1 <= c.prevTarget <= p.totalPages)
      && (!c.nextDisabled ==> 1 <= c.nextTarget <= p.totalPages)
  {
  }
}
