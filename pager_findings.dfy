/**
 * The boundary shortcuts are meant to keep the first and last pages
 * reachable whenever the window skips them. As written, a pager of 11 to
 * 13 pages drops boundary pages without a shortcut or an ellipsis. This
 * module shows that on concrete inputs and gives the intended body, for
 * which every page is shown or stands behind an ellipsis.
 */
module PagerFindings {
  import opened PagerSpec

  /** Page p is one of the numbers shown. */
  ghost predicate Shown(body: seq<Item>, p: int)
  {
    exists i :: 0 <= i < |body| && body[i].IsPage() && body[i].page == p
  }

  /** Page p lies between two shown pages that have an ellipsis between them. */
  ghost predicate Elided(body: seq<Item>, p: int)
  {
    exists i, j, k :: 0 <= i < j < k < |body| && Around(body, i, j, k, p)
  }

  ghost predicate Around(body: seq<Item>, i: int, j: int, k: int, p: int)
    requires 0 <= i < j < k < |body|
  {
    && body[i].IsPage() && body[k].IsPage()
    && body[i].page < p < body[k].page
    && body[j] == Ellipsis
  }

  /** Every page of 1..pageCount can be seen or is marked as skipped. */
  ghost predicate EveryPageAccountedFor(body: seq<Item>, pageCount: int)
  {
    forall p :: 1 <= p <= pageCount ==> Shown(body, p) || Elided(body, p)
  }

  /** Leading part as intended: the skipped first pages themselves when there is no room for "1, 2, ...". */
  function IntendedLeading(start: int, currentPage: int): seq<Item>
  {
    if start > 3 then Leading(start) else WindowItems(1, start - 1, currentPage)
  }

  /** Trailing part as intended: the skipped last pages themselves when there is no room for "..., n-1, n". */
  function IntendedTrailing(end: int, pageCount: int, currentPage: int): seq<Item>
  {
    if end < pageCount - 3 then Trailing(end, pageCount) else WindowItems(end + 1, pageCount, currentPage)
  }

  function IntendedBody(pageCount: nat, currentPage: int): seq<Item>
  {
    var w := VisibleWindow(pageCount, currentPage);
    IntendedLeading(w.0, currentPage) + WindowItems(w.0, w.1, currentPage)
    + IntendedTrailing(w.1, pageCount, currentPage)
  }

  /** As written: 110 items of 10 per page on page 1 show pages 1..10 and nothing stands for page 11. */
  lemma AsWrittenDropsLastPage()
    ensures PageCount(10, 110) == 11
    ensures !Shown(Body(11, 1), 11) && !Elided(Body(11, 1), 11)
  {
    var b := Body(11, 1);
    WindowItemsAt(1, 10, 1);
    assert b == WindowItems(1, 10, 1);
    assert forall i :: 0 <= i < |b| ==> b[i] == Marker(1 + i, 1) && b[i].page <= 10;
  }

  /** As written: 130 items of 10 per page on page 1 show pages 1..10 and nothing stands for pages 11, 12 and 13. */
  lemma AsWrittenDropsLastThreePages()
    ensures PageCount(10, 130) == 13
    ensures forall p :: 11 <= p <= 13 ==> !Shown(Body(13, 1), p) && !Elided(Body(13, 1), p)
  {
    var b := Body(13, 1);
    WindowItemsAt(1, 10, 1);
    assert b == WindowItems(1, 10, 1);
    assert forall i :: 0 <= i < |b| ==> b[i] == Marker(1 + i, 1) && b[i].page <= 10;
  }

  /** As written: 120 items of 10 per page on page 12 show pages 2..12 and nothing stands for page 1. */
  lemma AsWrittenDropsFirstPage()
    ensures PageCount(10, 120) == 12
    ensures !Shown(Body(12, 12), 1) && !Elided(Body(12, 12), 1)
  {
    var b := Body(12, 12);
    WindowItemsAt(2, 12, 12);
    assert b == WindowItems(2, 12, 12);
    assert forall i :: 0 <= i < |b| ==> b[i] == Marker(2 + i, 12) && b[i].page >= 2;
  }

  /** The intended body accounts for every page. */
  lemma IntendedBodyAccountsForEveryPage(pageCount: nat, currentPage: int)
    ensures EveryPageAccountedFor(IntendedBody(pageCount, currentPage), pageCount)
  {
    var w := VisibleWindow(pageCount, currentPage);
    forall p | 1 <= p <= pageCount
      ensures Shown(IntendedBody(pageCount, currentPage), p) || Elided(IntendedBody(pageCount, currentPage), p)
    {
      if w.0 <= p <= w.1 {
        WindowPageShown(pageCount, currentPage, p);
      } else if p < w.0 {
        LeadingPageAccountedFor(pageCount, currentPage, p);
      } else {
        TrailingPageAccountedFor(pageCount, currentPage, p);
      }
    }
  }

  lemma WindowPageShown(pageCount: nat, currentPage: int, p: int)
    requires VisibleWindow(pageCount, currentPage).0 <= p <= VisibleWindow(pageCount, currentPage).1
    ensures Shown(IntendedBody(pageCount, currentPage), p)
  {
    var w := VisibleWindow(pageCount, currentPage);
    var lead := IntendedLeading(w.0, currentPage);
    var win := WindowItems(w.0, w.1, currentPage);
    var b := IntendedBody(pageCount, currentPage);
    WindowItemsAt(w.0, w.1, currentPage);
    assert b[|lead| + (p - w.0)] == win[p - w.0];
  }

  lemma LeadingPageAccountedFor(pageCount: nat, currentPage: int, p: int)
    requires 1 <= p < VisibleWindow(pageCount, currentPage).0
    ensures Shown(IntendedBody(pageCount, currentPage), p) || Elided(IntendedBody(pageCount, currentPage), p)
  {
    var w := VisibleWindow(pageCount, currentPage);
    var lead := IntendedLeading(w.0, currentPage);
    var win := WindowItems(w.0, w.1, currentPage);
    var b := IntendedBody(pageCount, currentPage);
    if w.0 > 3 {
      if p <= 2 {
        assert b[p - 1] == Link(p);
      } else {
        WindowItemsAt(w.0, w.1, currentPage);
        assert b[3] == win[0];
        assert Around(b, 1, 2, 3, p);
      }
    } else {
      WindowItemsAt(1, w.0 - 1, currentPage);
      assert b[p - 1] == lead[p - 1];
    }
  }

  lemma TrailingPageAccountedFor(pageCount: nat, currentPage: int, p: int)
    requires VisibleWindow(pageCount, currentPage).1 < p <= pageCount
    ensures Shown(IntendedBody(pageCount, currentPage), p) || Elided(IntendedBody(pageCount, currentPage), p)
  {
    var w := VisibleWindow(pageCount, currentPage);
    var lead := IntendedLeading(w.0, currentPage);
    var win := WindowItems(w.0, w.1, currentPage);
    var trail := IntendedTrailing(w.1, pageCount, currentPage);
    var b := IntendedBody(pageCount, currentPage);
    var n := |lead| + |win|;
    WindowItemsAt(w.0, w.1, currentPage);
    if w.1 < pageCount - 3 {
      if p >= pageCount - 1 {
        assert b[n + 1 + (p - (pageCount - 1))] == Link(p);
      } else {
        assert b[n - 1] == win[|win| - 1];
        assert Around(b, n - 1, n, n + 1, p);
      }
    } else {
      WindowItemsAt(w.1 + 1, pageCount, currentPage);
      assert b[n + (p - w.1 - 1)] == trail[p - w.1 - 1];
    }
  }

  /** The intended body differs from the code's only for 11, 12 or 13 pages. */
  lemma IntendedAgreesOutsideGap(pageCount: nat, currentPage: int)
    requires pageCount <= 10 || 14 <= pageCount
    ensures IntendedBody(pageCount, currentPage) == Body(pageCount, currentPage)
  {
    var w := VisibleWindow(pageCount, currentPage);
    assert IntendedLeading(w.0, currentPage) == Leading(w.0);
    assert IntendedTrailing(w.1, pageCount, currentPage) == Trailing(w.1, pageCount);
  }
}
