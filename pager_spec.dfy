/**
 * What the pager shows, as a sequence of items rather than HTML: the
 * Previous control, the page numbers (links and the current-page marker),
 * the ellipses, and the Next control, in output order.
 */
module PagerSpec {
  import opened Wrappers

  /** The display budget: at most this many window pages before clamping. */
  const PagesToDisplay := 10

  /** Half-width of a centred window: ceil(PagesToDisplay / 2) - 1, which is 4. */
  const Middle := (PagesToDisplay + 1) / 2 - 1

  datatype Item =
    | Prev(target: Option<int>)   // None: the disabled `&lt;` span
    | Link(page: int)
    | Current(page: int)          // the `current` span
    | Ellipsis
    | Next(target: Option<int>)   // None: the disabled `&gt;` span
  {
    predicate IsPage() { Link? || Current? }
  }

  /** Integer ceiling of totalItemCount / pageSize. */
  function PageCount(pageSize: int, totalItemCount: int): nat
    requires pageSize > 0 && totalItemCount >= 0
  {
    (totalItemCount + pageSize - 1) / pageSize
  }

  /** The page count is the least number of pages of pageSize items that hold all items. */
  lemma PageCountIsCeiling(pageSize: int, totalItemCount: int)
    requires pageSize > 0 && totalItemCount >= 0
    ensures var n := PageCount(pageSize, totalItemCount);
      (n - 1) * pageSize < totalItemCount <= n * pageSize
    ensures PageCount(pageSize, totalItemCount) == 0 <==> totalItemCount == 0
  {
    var n := PageCount(pageSize, totalItemCount);
    var r := (totalItemCount + pageSize - 1) % pageSize;
    assert n * pageSize == totalItemCount + pageSize - 1 - r;
    assert (n - 1) * pageSize == n * pageSize - pageSize;
  }

  /**
   * The first and last page of the visible window. Centred on the current
   * page it is 9 pages wide, clamped at the start it is [1, 10], clamped at
   * the end it is [pageCount - 10, pageCount] (11 pages).
   */
  function VisibleWindow(pageCount: nat, currentPage: int): (w: (int, int))
    ensures pageCount <= PagesToDisplay ==> w == (1, pageCount)
    ensures pageCount > PagesToDisplay ==> 1 <= w.0 <= w.1 <= pageCount
    ensures pageCount > PagesToDisplay ==>
      && (w.1 - w.0 + 1 == 9 <==> w.0 == currentPage - Middle && w.1 == currentPage + Middle)
      && (w.1 - w.0 + 1 == 10 <==> w == (1, PagesToDisplay))
      && (w.1 - w.0 + 1 == 11 <==> w.1 == pageCount)
    ensures 1 <= currentPage <= pageCount ==> w.0 <= currentPage <= w.1
    ensures pageCount > PagesToDisplay ==>
      w == (currentPage - Middle, currentPage + Middle) || w == (1, PagesToDisplay)
      || w == (pageCount - PagesToDisplay, pageCount)
    ensures pageCount > PagesToDisplay && currentPage - Middle < 4 ==> w == (1, PagesToDisplay)
    ensures pageCount > PagesToDisplay && currentPage - Middle >= 4 && currentPage + Middle > pageCount - 4 ==>
      w == (pageCount - PagesToDisplay, pageCount)
    ensures pageCount > PagesToDisplay && currentPage - Middle >= 4 && currentPage + Middle <= pageCount - 4 ==>
      w == (currentPage - Middle, currentPage + Middle)
  {
    if pageCount <= PagesToDisplay then (1, pageCount)
    else
      var below := currentPage - Middle;
      var above := currentPage + Middle;
      if below < 4 then (1, PagesToDisplay)
      else if above > pageCount - 4 then (pageCount - PagesToDisplay, pageCount)
      else (below, above)
  }

  /** One window page: the current-page marker or a link. */
  function Marker(page: int, currentPage: int): Item
  {
    if page == currentPage || (currentPage <= 0 && page == 0) then Current(page) else Link(page)
  }

  /** The window pages lo..hi, in order. */
  function WindowItems(lo: int, hi: int, currentPage: int): seq<Item>
    decreases hi - lo
  {
    if hi < lo then [] else WindowItems(lo, hi - 1, currentPage) + [Marker(hi, currentPage)]
  }

  /** The leading shortcut "1, 2, ...". */
  function Leading(start: int): seq<Item>
  {
    if start > 3 then [Link(1), Link(2), Ellipsis] else []
  }

  /** The trailing shortcut "..., pageCount - 1, pageCount". */
  function Trailing(end: int, pageCount: int): seq<Item>
  {
    if end < pageCount - 3 then [Ellipsis, Link(pageCount - 1), Link(pageCount)] else []
  }

  /** Everything between Previous and Next. */
  function Body(pageCount: nat, currentPage: int): seq<Item>
  {
    var w := VisibleWindow(pageCount, currentPage);
    Leading(w.0) + WindowItems(w.0, w.1, currentPage) + Trailing(w.1, pageCount)
  }

  function PrevItem(currentPage: int): Item
  {
    Prev(if currentPage > 1 then Some(currentPage - 1) else None)
  }

  function NextItem(currentPage: int, pageCount: int): Item
  {
    Next(if currentPage < pageCount then Some(currentPage + 1) else None)
  }

  /** The whole pager, in output order. */
  function Items(pageSize: int, currentPage: int, totalItemCount: int): seq<Item>
    requires pageSize > 0 && totalItemCount >= 0
  {
    var pageCount := PageCount(pageSize, totalItemCount);
    [PrevItem(currentPage)] + Body(pageCount, currentPage) + [NextItem(currentPage, pageCount)]
  }

  /**
   * The pager opens with Previous and closes with Next, and neither occurs
   * anywhere else. Previous links to currentPage - 1 exactly when
   * currentPage > 1, Next to currentPage + 1 exactly when currentPage <
   * pageCount; otherwise each is the disabled span. Neither target is
   * clamped to the page range.
   */
  lemma PreviousAndNext(pageSize: int, currentPage: int, totalItemCount: int)
    requires pageSize > 0 && totalItemCount >= 0
    ensures var r := Items(pageSize, currentPage, totalItemCount);
      && 2 <= |r|
      && r[0].Prev? && (r[0].target.Some? <==> currentPage > 1)
      && (r[0].target.Some? ==> r[0].target.value == currentPage - 1)
      && r[|r| - 1].Next?
      && (r[|r| - 1].target.Some? <==> currentPage < PageCount(pageSize, totalItemCount))
      && (r[|r| - 1].target.Some? ==> r[|r| - 1].target.value == currentPage + 1)
      && forall i :: 0 < i < |r| - 1 ==> !r[i].Prev? && !r[i].Next?
  {
    BodyItemKinds(PageCount(pageSize, totalItemCount), currentPage);
  }

  /** The page numbers shown, in order, leaving out Previous, Next and ellipses. */
  function Pages(items: seq<Item>): seq<int>
  {
    if items == [] then []
    else (if items[0].IsPage() then [items[0].page] else []) + Pages(items[1..])
  }

  /** The numbers lo..hi. */
  function Range(lo: int, hi: int): (r: seq<int>)
  {
    if hi < lo then [] else seq(hi - lo + 1, k => lo + k)
  }

  ghost predicate StrictlyIncreasing(s: seq<int>)
  {
    forall i, j :: 0 <= i < j < |s| ==> s[i] < s[j]
  }

  /**
   * Window item k is page lo + k; it is the current marker exactly when that
   * page is the current page. The `currentPage <= 0 && page == 0` case of
   * Marker never applies, because window pages start at 1.
   */
  lemma {:induction false} WindowItemsAt(lo: int, hi: int, currentPage: int)
    requires lo >= 1
    ensures |WindowItems(lo, hi, currentPage)| == if hi < lo then 0 else hi - lo + 1
    ensures forall k :: 0 <= k < |WindowItems(lo, hi, currentPage)| ==>
      WindowItems(lo, hi, currentPage)[k] ==
        (if lo + k == currentPage then Current(lo + k) else Link(lo + k))
    decreases hi - lo
  {
    if lo <= hi {
      WindowItemsAt(lo, hi - 1, currentPage);
    }
  }

  lemma {:induction false} PagesAppend(a: seq<Item>, b: seq<Item>)
    ensures Pages(a + b) == Pages(a) + Pages(b)
  {
    if a == [] {
      assert a + b == b;
    } else {
      assert (a + b)[0] == a[0];
      assert (a + b)[1..] == a[1..] + b;
      PagesAppend(a[1..], b);
    }
  }

  /** The window shows exactly the pages lo..hi, in order. */
  lemma {:induction false} WindowPages(lo: int, hi: int, currentPage: int)
    ensures Pages(WindowItems(lo, hi, currentPage)) == Range(lo, hi)
    decreases hi - lo
  {
    if lo <= hi {
      WindowPages(lo, hi - 1, currentPage);
      PagesAppend(WindowItems(lo, hi - 1, currentPage), [Marker(hi, currentPage)]);
      assert Pages([Marker(hi, currentPage)]) == [hi];
      assert Range(lo, hi) == Range(lo, hi - 1) + [hi];
    }
  }

  lemma LeadingPages(start: int)
    ensures Pages(Leading(start)) == if start > 3 then [1, 2] else []
  {
    if start > 3 {
      var lead := Leading(start);
      assert lead[1..][1..][1..] == [];
      assert Pages(lead[1..][1..]) == [];
    }
  }

  lemma TrailingPages(end: int, pageCount: int)
    ensures Pages(Trailing(end, pageCount)) ==
      if end < pageCount - 3 then [pageCount - 1, pageCount] else []
  {
    if end < pageCount - 3 {
      var trail := Trailing(end, pageCount);
      assert trail[1..][1..][1..] == [];
      assert Pages(trail[1..][1..]) == [pageCount];
    }
  }

  /** The page numbers of the body: the leading shortcut, the window, the trailing shortcut. */
  lemma BodyPages(pageCount: nat, currentPage: int)
    ensures var w := VisibleWindow(pageCount, currentPage);
      Pages(Body(pageCount, currentPage)) ==
        (if w.0 > 3 then [1, 2] else []) + Range(w.0, w.1)
        + (if w.1 < pageCount - 3 then [pageCount - 1, pageCount] else [])
  {
    var w := VisibleWindow(pageCount, currentPage);
    var lead, win, trail := Leading(w.0), WindowItems(w.0, w.1, currentPage), Trailing(w.1, pageCount);
    PagesAppend(lead + win, trail);
    PagesAppend(lead, win);
    WindowPages(w.0, w.1, currentPage);
    LeadingPages(w.0);
    TrailingPages(w.1, pageCount);
  }

  /** Only links, current markers and ellipses lie between Previous and Next. */
  lemma BodyItemKinds(pageCount: nat, currentPage: int)
    ensures forall i :: 0 <= i < |Body(pageCount, currentPage)| ==>
      !Body(pageCount, currentPage)[i].Prev? && !Body(pageCount, currentPage)[i].Next?
  {
    var w := VisibleWindow(pageCount, currentPage);
    WindowItemsAt(w.0, w.1, currentPage);
  }

  /**
   * The page numbers between Previous and Next lie in [1, pageCount] and are
   * strictly increasing, so none is shown twice: the shortcuts never repeat
   * a window page.
   */
  lemma PagesOrderedInRange(pageCount: nat, currentPage: int)
    ensures var p := Pages(Body(pageCount, currentPage));
      StrictlyIncreasing(p) && forall i :: 0 <= i < |p| ==> 1 <= p[i] <= pageCount
  {
    BodyPages(pageCount, currentPage);
    var w := VisibleWindow(pageCount, currentPage);
    var lead: seq<int> := if w.0 > 3 then [1, 2] else [];
    var trail: seq<int> := if w.1 < pageCount - 3 then [pageCount - 1, pageCount] else [];
    OrderedConcat(lead, w.0, w.1, trail, pageCount);
  }

  /** Shortcuts below and above a window within [1, pageCount] keep the pages ordered and in range. */
  lemma OrderedConcat(lead: seq<int>, lo: int, hi: int, trail: seq<int>, pageCount: int)
    requires StrictlyIncreasing(lead) && InRange(lead, 1, pageCount)
    requires StrictlyIncreasing(trail) && InRange(trail, 1, pageCount)
    requires 1 <= lo && hi <= pageCount
    requires |lead| > 0 || |trail| > 0 ==> lo <= hi
    requires |lead| > 0 ==> lead[|lead| - 1] < lo
    requires |trail| > 0 ==> hi < trail[0]
    ensures StrictlyIncreasing(lead + Range(lo, hi) + trail)
    ensures InRange(lead + Range(lo, hi) + trail, 1, pageCount)
  {
    var win := Range(lo, hi);
    RangeIncreasing(lo, hi);
    IncreasingAppend(lead, win);
    if |trail| > 0 {
      assert (lead + win)[|lead + win| - 1] == win[|win| - 1];
    }
    IncreasingAppend(lead + win, trail);
    InRangeAppend(lead, win, 1, pageCount);
    InRangeAppend(lead + win, trail, 1, pageCount);
  }

  /** Range(lo, hi) holds lo, lo + 1, ..., hi. */
  lemma RangeIncreasing(lo: int, hi: int)
    ensures StrictlyIncreasing(Range(lo, hi))
    ensures forall k :: 0 <= k < |Range(lo, hi)| ==> Range(lo, hi)[k] == lo + k
  {
  }

  ghost predicate InRange(s: seq<int>, lo: int, hi: int)
  {
    forall i :: 0 <= i < |s| ==> lo <= s[i] <= hi
  }

  lemma InRangeAppend(a: seq<int>, b: seq<int>, lo: int, hi: int)
    requires InRange(a, lo, hi) && InRange(b, lo, hi)
    ensures InRange(a + b, lo, hi)
  {
    assert forall i :: |a| <= i < |a + b| ==> (a + b)[i] == b[i - |a|];
  }

  lemma IncreasingAppend(a: seq<int>, b: seq<int>)
    requires StrictlyIncreasing(a) && StrictlyIncreasing(b)
    requires |a| > 0 && |b| > 0 ==> a[|a| - 1] < b[0]
    ensures StrictlyIncreasing(a + b)
  {
    forall i, j | 0 <= i < j < |a + b|
      ensures (a + b)[i] < (a + b)[j]
    {
      if i < |a| && |a| <= j {
        assert a[i] <= a[|a| - 1];
        assert b[0] <= b[j - |a|];
      }
    }
  }

  /** Up to ten pages: every page 1..pageCount once, in order, and no ellipsis. */
  lemma SmallPagerShowsAll(pageCount: nat, currentPage: int)
    requires pageCount <= PagesToDisplay
    ensures Pages(Body(pageCount, currentPage)) == Range(1, pageCount)
    ensures Ellipsis !in Body(pageCount, currentPage)
  {
    BodyPages(pageCount, currentPage);
    WindowItemsAt(1, pageCount, currentPage);
  }

  /**
   * The current page is never a link; the current marker is shown for the
   * current page only, and it is shown exactly when that page is in range.
   */
  lemma CurrentMarker(pageCount: nat, currentPage: int)
    ensures var b := Body(pageCount, currentPage);
      && (forall i :: 0 <= i < |b| && b[i].Link? ==> b[i].page != currentPage)
      && (forall i :: 0 <= i < |b| && b[i].Current? ==> b[i].page == currentPage)
      && ((exists i :: 0 <= i < |b| && b[i] == Current(currentPage)) <==> 1 <= currentPage <= pageCount)
  {
    var b := Body(pageCount, currentPage);
    var w := VisibleWindow(pageCount, currentPage);
    var lead, win, trail := Leading(w.0), WindowItems(w.0, w.1, currentPage), Trailing(w.1, pageCount);
    WindowItemsAt(w.0, w.1, currentPage);
    ShortcutsAvoidCurrent(pageCount, currentPage);
    forall i | 0 <= i < |b|
      ensures b[i] in lead || b[i] in win || b[i] in trail
    {
      InConcat(lead, win, trail, i);
    }
    if 1 <= currentPage <= pageCount {
      assert win[currentPage - w.0] == Current(currentPage);
      assert Current(currentPage) in b;
    }
  }

  /** The shortcuts hold only links to pages other than the current one, and ellipses. */
  lemma ShortcutsAvoidCurrent(pageCount: nat, currentPage: int)
    ensures var w := VisibleWindow(pageCount, currentPage);
      forall x :: x in Leading(w.0) + Trailing(w.1, pageCount) ==>
        x == Ellipsis || (x.Link? && x.page != currentPage)
  {
  }

  lemma InConcat<T>(a: seq<T>, b: seq<T>, c: seq<T>, i: int)
    requires 0 <= i < |a + b + c|
    ensures (a + b + c)[i] in a || (a + b + c)[i] in b || (a + b + c)[i] in c
  {
    if i < |a| {
      assert (a + b + c)[i] == a[i];
    } else if i < |a| + |b| {
      assert (a + b + c)[i] == b[i - |a|];
    } else {
      assert (a + b + c)[i] == c[i - |a| - |b|];
    }
  }

  /** 25 items, 10 per page, page 1: three pages, all shown. */
  lemma ExampleThreePages()
    ensures PageCount(10, 25) == 3
    ensures Items(10, 1, 25) == [Prev(None), Current(1), Link(2), Link(3), Next(Some(2))]
  {
    assert PageCount(10, 25) == 3;
    WindowItemsAt(1, 3, 1);
  }

  /** 500 items, 10 per page: 50 pages, page 25 gives window 21..29 and both shortcuts. */
  lemma ExampleFiftyPages()
    ensures PageCount(10, 500) == 50
    ensures VisibleWindow(50, 25) == (21, 29)
    ensures Pages(Body(50, 25)) == [1, 2, 21, 22, 23, 24, 25, 26, 27, 28, 29, 49, 50]
  {
    FiftyPagesParts();
    WindowOfFiftyPages();
    var window := [21, 22, 23, 24, 25, 26, 27, 28, 29];
    assert [1, 2] + window == [1, 2, 21, 22, 23, 24, 25, 26, 27, 28, 29];
    assert [1, 2, 21, 22, 23, 24, 25, 26, 27, 28, 29] + [49, 50]
      == [1, 2, 21, 22, 23, 24, 25, 26, 27, 28, 29, 49, 50];
  }

  lemma FiftyPagesParts()
    ensures PageCount(10, 500) == 50
    ensures VisibleWindow(50, 25) == (21, 29)
    ensures Pages(Body(50, 25)) == [1, 2] + Range(21, 29) + [49, 50]
  {
    assert PageCount(10, 500) == 50;
    BodyPages(50, 25);
  }

  lemma WindowOfFiftyPages()
    ensures Range(21, 29) == [21, 22, 23, 24, 25, 26, 27, 28, 29]
  {
    var window := Range(21, 29);
    assert |window| == 9 && forall k :: 0 <= k < 9 ==> window[k] == 21 + k;
  }
}
