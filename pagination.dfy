/**
 * The page links `renderPagination` (app.js) lays out: Previous, the
 * first page and an ellipsis when the window starts later, the window of
 * up to five pages around the current one, an ellipsis and the last page
 * when the window ends earlier, and Next. The HTML is abstracted to the
 * sequence of items it lists, in order.
 */
module Pagination {
  import opened Common

  /** One `<li>` of the list: its kind, the page its link opens, and its `disabled`/`active` class. */
  datatype Item =
    | Previous(disabled: bool, target: int)
    | PageLink(page: int, active: bool)
    | Ellipsis
    | Following(disabled: bool, target: int)

  /** What the container ends up holding. */
  datatype Render =
    | Untouched              // no such container: nothing to render into
    | Cleared                // a single page or none: the container is emptied
    | Rendered(items: seq<Item>)
    | Crashed                // a TypeError from writing to a missing container

  /** `Math.max(1, currentPage - 2)`. */
  function WindowStart(current: int): (s: int)
    ensures s >= 1 && s >= current - 2
    ensures s == 1 || s == current - 2
  {
    if 1 > current - 2 then 1 else current - 2
  }

  /** `Math.min(totalPages, currentPage + 2)`. */
  function WindowEnd(current: int, total: int): (e: int)
    ensures e <= total && e <= current + 2
    ensures e == total || e == current + 2
  {
    if total < current + 2 then total else current + 2
  }

  /** The links for pages `lo` through `hi`, the current one active; empty when `hi < lo`. */
  function Window(lo: int, hi: int, current: int): (w: seq<Item>)
    ensures |w| == if hi < lo then 0 else hi - lo + 1
    ensures forall k :: 0 <= k < |w| ==> w[k] == PageLink(lo + k, lo + k == current)
  {
    seq(if hi < lo then 0 else hi - lo + 1, k => PageLink(lo + k, lo + k == current))
  }

  /** Page 1 and, when pages lie between it and the window, an ellipsis. */
  function Leading(start: int): seq<Item>
  {
    if start > 1 then [PageLink(1, false)] + (if start > 2 then [Ellipsis] else []) else []
  }

  /** An ellipsis when pages lie between the window and the last page, then the last page. */
  function Trailing(end: int, total: int): seq<Item>
  {
    if end < total then (if end < total - 1 then [Ellipsis] else []) + [PageLink(total, false)] else []
  }

  /** The list for `total` pages with `current` selected. */
  ghost predicate Layout(items: seq<Item>, current: int, total: int)
  {
    var start, end := WindowStart(current), WindowEnd(current, total);
    items == [Previous(current == 1, current - 1)] + Leading(start) + Window(start, end, current) +
             Trailing(end, total) + [Following(current == total, current + 1)]
  }

  /** The guard as written: with no container it still writes to it, which throws. */
  function GuardAsWritten(hasContainer: bool, total: int): (r: Option<Render>)
    ensures !hasContainer ==> r == Some(Crashed)
    ensures hasContainer ==> (r.Some? <==> total <= 1) && (r.Some? ==> r.value == Cleared)
  {
    if !hasContainer then Some(Crashed)
    else if total <= 1 then Some(Cleared)
    else None
  }

  /**
   * A page whose pagination container is missing crashes the call where the
   * intended guard skips it; with the container the two guards agree.
   */
  lemma MissingContainerCrashes(total: int)
    ensures GuardAsWritten(false, total) == Some(Crashed) && Guard(false, total) == Some(Untouched)
    ensures GuardAsWritten(true, total) == Guard(true, total)
  {
  }

  /** The guard as intended: nothing to do without a container, clear it for one page or none. */
  function Guard(hasContainer: bool, total: int): (r: Option<Render>)
    ensures !hasContainer ==> r == Some(Untouched)
    ensures hasContainer ==> (r.Some? <==> total <= 1) && (r.Some? ==> r.value == Cleared)
    ensures r != Some(Crashed)
  {
    if !hasContainer then Some(Untouched)
    else if total <= 1 then Some(Cleared)
    else None
  }

  /** `renderPagination`: the list is built link by link, the window in a `for` loop. */
  method RenderPagination(hasContainer: bool, current: int, total: int) returns (r: Render)
    ensures Guard(hasContainer, total).Some? ==> r == Guard(hasContainer, total).value
    ensures Guard(hasContainer, total).None? ==> r.Rendered? && Layout(r.items, current, total)
    ensures r.Rendered? <==> hasContainer && total > 1
  {
    var guard := Guard(hasContainer, total);
    if guard.Some? {
      return guard.value;
    }
    var items := [Previous(current == 1, current - 1)];
    var start := if 1 > current - 2 then 1 else current - 2;
    var end := if total < current + 2 then total else current + 2;
    items := AppendLeading(items, start);
    ghost var head := items;
    var i := start;
    while i <= end
      invariant start <= i && (i <= end + 1 || i == start)
      invariant items == head + Window(start, i - 1, current)
      decreases end - i
    {
      WindowStep(start, i, current);
      items := items + [PageLink(i, i == current)];
      i := i + 1;
    }
    WindowDone(start, end, i, current);
    items := AppendTrailing(items, end, total);
    items := items + [Following(current == total, current + 1)];
    LayoutFrom(items, current, total, head, Window(start, end, current), Trailing(end, total));
    r := Rendered(items);
  }

  /** The first page and the ellipsis after it, appended as `renderPagination` does before its loop. */
  method AppendLeading(items: seq<Item>, start: int) returns (r: seq<Item>)
    ensures r == items + Leading(start)
  {
    r := items;
    if start > 1 {
      r := r + [PageLink(1, false)];
      if start > 2 {
        r := r + [Ellipsis];
      }
    }
  }

  /** The ellipsis and the last page, appended as `renderPagination` does after its loop. */
  method AppendTrailing(items: seq<Item>, end: int, total: int) returns (r: seq<Item>)
    ensures r == items + Trailing(end, total)
  {
    r := items;
    if end < total {
      if end < total - 1 {
        r := r + [Ellipsis];
      }
      r := r + [PageLink(total, false)];
    }
  }

  /** The list assembled from its parts in order is the layout. */
  lemma LayoutFrom(items: seq<Item>, current: int, total: int, head: seq<Item>, win: seq<Item>, trail: seq<Item>)
    requires head == [Previous(current == 1, current - 1)] + Leading(WindowStart(current))
    requires win == Window(WindowStart(current), WindowEnd(current, total), current)
    requires trail == Trailing(WindowEnd(current, total), total)
    requires items == (head + win) + trail + [Following(current == total, current + 1)]
    ensures Layout(items, current, total)
  {
  }

  /** One more pass of the window loop appends the link for page `i`. */
  lemma WindowStep(lo: int, i: int, current: int)
    requires lo <= i
    ensures Window(lo, i, current) == Window(lo, i - 1, current) + [PageLink(i, i == current)]
  {
  }

  /** When the loop stops, it has listed the whole window. */
  lemma WindowDone(lo: int, hi: int, i: int, current: int)
    requires lo <= i && (i <= hi + 1 || i == lo) && !(i <= hi)
    ensures Window(lo, i - 1, current) == Window(lo, hi, current)
  {
  }

  // ----- what the layout shows -----

  /** The items between Previous and Next: page links and ellipses. */
  function Inner(current: int, total: int): seq<Item>
  {
    var start, end := WindowStart(current), WindowEnd(current, total);
    Leading(start) + Window(start, end, current) + Trailing(end, total)
  }

  /** Previous is disabled exactly on page 1 and Next exactly on the last page; between them lie the page items. */
  lemma LayoutEnds(items: seq<Item>, current: int, total: int)
    requires Layout(items, current, total)
    ensures |items| >= 2 && items[1..|items| - 1] == Inner(current, total)
    ensures items[0] == Previous(current == 1, current - 1)
    ensures items[|items| - 1] == Following(current == total, current + 1)
  {
  }

  /** Page `p` is listed as a link, active exactly when it is the current page. */
  ghost predicate Listed(inner: seq<Item>, p: int, current: int)
  {
    exists k :: 0 <= k < |inner| && inner[k] == PageLink(p, p == current)
  }

  /**
   * For a current page within 1..total, the items run from a link to page 1
   * to a link to the last page, only pages 1..total appear, each page within
   * two of the current one is listed, and exactly the current page is active.
   */
  lemma InnerPages(current: int, total: int)
    requires 1 <= current <= total
    ensures var inner := Inner(current, total);
      |inner| >= 1 &&
      inner[0] == PageLink(1, current == 1) &&
      inner[|inner| - 1] == PageLink(total, current == total) &&
      (forall k :: 0 <= k < |inner| && inner[k].PageLink? ==>
        1 <= inner[k].page <= total && (inner[k].active <==> inner[k].page == current)) &&
      (forall p :: 1 <= p <= total && current - 2 <= p <= current + 2 ==> Listed(inner, p, current))
  {
    InnerFirstLast(current, total);
    InnerRange(current, total);
    InnerListed(current, total);
  }

  lemma InnerFirstLast(current: int, total: int)
    requires 1 <= current <= total
    ensures var inner := Inner(current, total);
      |inner| >= 1 &&
      inner[0] == PageLink(1, current == 1) &&
      inner[|inner| - 1] == PageLink(total, current == total)
  {
    var start, end := WindowStart(current), WindowEnd(current, total);
    var lead, win, trail := Leading(start), Window(start, end, current), Trailing(end, total);
    var inner := Inner(current, total);
    assert inner == lead + win + trail;
    assert |win| == end - start + 1;
    if lead == [] {
      assert inner[0] == win[0];
    }
    if trail == [] {
      assert inner[|inner| - 1] == win[|win| - 1];
    }
  }

  lemma InnerRange(current: int, total: int)
    requires 1 <= current <= total
    ensures var inner := Inner(current, total);
      forall k :: 0 <= k < |inner| && inner[k].PageLink? ==>
        1 <= inner[k].page <= total && (inner[k].active <==> inner[k].page == current)
  {
    var start, end := WindowStart(current), WindowEnd(current, total);
    var lead, win, trail := Leading(start), Window(start, end, current), Trailing(end, total);
    var inner := Inner(current, total);
    assert inner == lead + win + trail;
    forall k | 0 <= k < |inner| && inner[k].PageLink?
      ensures 1 <= inner[k].page <= total && (inner[k].active <==> inner[k].page == current)
    {
      if k < |lead| {
        assert inner[k] == lead[k];
      } else if k < |lead| + |win| {
        assert inner[k] == win[k - |lead|];
      } else {
        assert inner[k] == trail[k - |lead| - |win|];
      }
    }
  }

  lemma InnerListed(current: int, total: int)
    requires 1 <= current <= total
    ensures var inner := Inner(current, total);
      forall p :: 1 <= p <= total && current - 2 <= p <= current + 2 ==> Listed(inner, p, current)
  {
    var start, end := WindowStart(current), WindowEnd(current, total);
    var lead, win, trail := Leading(start), Window(start, end, current), Trailing(end, total);
    var inner := Inner(current, total);
    assert inner == lead + win + trail;
    forall p | 1 <= p <= total && current - 2 <= p <= current + 2
      ensures Listed(inner, p, current)
    {
      var k := |lead| + (p - start);
      assert inner[k] == win[p - start];
    }
  }

  /** For a current page within 1..total, neighbouring links are consecutive pages. */
  lemma InnerConsecutive(current: int, total: int)
    requires 1 <= current <= total
    ensures var inner := Inner(current, total);
      forall k :: 0 <= k < |inner| - 1 && inner[k].PageLink? && inner[k + 1].PageLink? ==>
        inner[k + 1].page == inner[k].page + 1
  {
    var start, end := WindowStart(current), WindowEnd(current, total);
    var lead, win, trail := Leading(start), Window(start, end, current), Trailing(end, total);
    var inner := Inner(current, total);
    assert inner == lead + win + trail;
    assert |win| == end - start + 1;
    forall k | 0 <= k < |inner| - 1 && inner[k].PageLink? && inner[k + 1].PageLink?
      ensures inner[k + 1].page == inner[k].page + 1
    {
      if k < |lead| {
        assert lead == [PageLink(1, false)] && start == 2;
        assert inner[k + 1] == win[0];
      } else if k < |lead| + |win| - 1 {
        assert inner[k] == win[k - |lead|] && inner[k + 1] == win[k + 1 - |lead|];
      } else if k == |lead| + |win| - 1 {
        assert inner[k] == win[|win| - 1] && inner[k + 1] == trail[0];
        assert trail == [PageLink(total, false)] && end == total - 1;
      }
    }
  }

  /**
   * For a current page within 1..total, an ellipsis stands exactly where
   * pages are skipped: between two links whose pages differ by more than one.
   */
  lemma InnerEllipses(current: int, total: int)
    requires 1 <= current <= total
    ensures var inner := Inner(current, total);
      forall k :: 0 <= k < |inner| && inner[k] == Ellipsis ==>
        0 < k < |inner| - 1 && inner[k - 1].PageLink? && inner[k + 1].PageLink? &&
        inner[k + 1].page > inner[k - 1].page + 1
  {
    var start, end := WindowStart(current), WindowEnd(current, total);
    var lead, win, trail := Leading(start), Window(start, end, current), Trailing(end, total);
    var inner := Inner(current, total);
    assert inner == lead + win + trail;
    assert |win| == end - start + 1;
    forall k | 0 <= k < |inner| && inner[k] == Ellipsis
      ensures 0 < k < |inner| - 1 && inner[k - 1].PageLink? && inner[k + 1].PageLink? &&
        inner[k + 1].page > inner[k - 1].page + 1
    {
      if k < |lead| {
        assert lead == [PageLink(1, false), Ellipsis] && k == 1;
        assert inner[k - 1] == lead[0] && inner[k + 1] == win[0];
      } else if k >= |lead| + |win| {
        assert trail == [Ellipsis, PageLink(total, false)] && k == |lead| + |win|;
        assert inner[k - 1] == win[|win| - 1] && inner[k + 1] == trail[1];
      }
    }
  }
}
