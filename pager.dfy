/**
 * The pager of namespace MvcPaging: a class holding the paging state, the
 * sort state, the caller's route values and the AJAX attributes, whose
 * RenderHtml builds the pager's HTML step by step and is proved to write
 * exactly the HTML of the item sequence that PagerSpec.Items specifies.
 *
 * The web framework enters only through two constant fields: the route data
 * of the current request and the route table's resolution of a route-value
 * map to a virtual path (None where no route matches).
 */
module MvcPaging {
  import opened Wrappers
  import opened Markup
  import opened Routing
  import opened PagerSpec

  const PreviousText := "&lt;"
  const NextText := "&gt;"
  const DisabledPrevious := "<span class=\"disabled\">&lt;</span>"
  const DisabledNext := "<span class=\"disabled\">&gt;</span>"
  const EllipsisText := "..."

  function CurrentSpan(page: int): string
  {
    "<span class=\"current\">" + IntegerText(page) + "</span>"
  }

  /** What appending a link adds to the output: nothing for a null link. */
  function Appended(link: Option<string>): string
  {
    if link.Some? then link.value else ""
  }

  /**
   * Regrouping string concatenation. The solver knows this fact but does not
   * find it unaided inside the builder proofs below, which run out of
   * resources without the explicit instance.
   */
  lemma AppendAssociative<T>(a: seq<T>, b: seq<T>, c: seq<T>)
    ensures (a + b) + c == a + (b + c)
  {
  }

  class Pager {
    const routeData: RouteValues
    const resolve: RouteValues -> Option<string>
    const pageSize: int
    const currentPage: int
    const totalItemCount: int
    const linkWithoutPageValues: RouteValues
    const ajaxAttributes: Option<seq<Attribute>>   // None: no AJAX options
    const sortBy: Option<string>
    const sortDescending: Option<bool>

    /** The pager without sort state: links carry null SortBy and SortDescending. */
    constructor (routeData: RouteValues, resolve: RouteValues -> Option<string>,
                 pageSize: int, currentPage: int, totalItemCount: int,
                 valuesDictionary: RouteValues, ajaxAttributes: Option<seq<Attribute>>)
      ensures this.routeData == routeData && this.resolve == resolve
      ensures this.pageSize == pageSize && this.currentPage == currentPage
      ensures this.totalItemCount == totalItemCount
      ensures linkWithoutPageValues == valuesDictionary && this.ajaxAttributes == ajaxAttributes
      ensures sortBy == None && sortDescending == None
    {
      this.routeData := routeData;
      this.resolve := resolve;
      this.pageSize := pageSize;
      this.currentPage := currentPage;
      this.totalItemCount := totalItemCount;
      this.linkWithoutPageValues := valuesDictionary;
      this.ajaxAttributes := ajaxAttributes;
      this.sortBy := None;
      this.sortDescending := None;
    }

    /** The pager with sort state, propagated into every link. */
    constructor WithSort(routeData: RouteValues, resolve: RouteValues -> Option<string>,
                         pageSize: int, currentPage: int, totalItemCount: int,
                         sortBy: Option<string>, sortDescending: Option<bool>,
                         valuesDictionary: RouteValues, ajaxAttributes: Option<seq<Attribute>>)
      ensures this.routeData == routeData && this.resolve == resolve
      ensures this.pageSize == pageSize && this.currentPage == currentPage
      ensures this.totalItemCount == totalItemCount
      ensures this.sortBy == sortBy && this.sortDescending == sortDescending
      ensures linkWithoutPageValues == valuesDictionary && this.ajaxAttributes == ajaxAttributes
    {
      this.routeData := routeData;
      this.resolve := resolve;
      this.pageSize := pageSize;
      this.currentPage := currentPage;
      this.totalItemCount := totalItemCount;
      this.sortBy := sortBy;
      this.sortDescending := sortDescending;
      this.linkWithoutPageValues := valuesDictionary;
      this.ajaxAttributes := ajaxAttributes;
    }

    function AjaxAttributeList(): seq<Attribute>
    {
      if ajaxAttributes.Some? then ajaxAttributes.value else []
    }

    /** The link to `page` with text `text`: null when no route matches its values. */
    function PageLink(text: string, page: int): Option<string>
    {
      var values := LinkValues(linkWithoutPageValues, routeData, page, sortBy, sortDescending);
      match resolve(values)
      case None => None
      case Some(path) => Some(Anchor(AjaxAttributeList(), path, text))
    }

    /** The HTML of one item. */
    function Fragment(item: Item): string
    {
      match item
      case Prev(target) => if target.Some? then Appended(PageLink(PreviousText, target.value)) else DisabledPrevious
      case Link(p) => Appended(PageLink(IntegerText(p), p))
      case Current(p) => CurrentSpan(p)
      case Ellipsis => EllipsisText
      case Next(target) => if target.Some? then Appended(PageLink(NextText, target.value)) else DisabledNext
    }

    /** The HTML of an item sequence: the fragments one after another. */
    function Html(items: seq<Item>): string
    {
      if items == [] then "" else Html(items[..|items| - 1]) + Fragment(items[|items| - 1])
    }

    lemma {:induction false} HtmlAppend(a: seq<Item>, b: seq<Item>)
      ensures Html(a + b) == Html(a) + Html(b)
      decreases |b|
    {
      if b == [] {
        assert a + b == a;
      } else {
        var c := b[..|b| - 1];
        assert (a + b)[..|a + b| - 1] == a + c;
        HtmlAppend(a, c);
      }
    }

    lemma HtmlOfLeading(before: string, start: int)
      ensures before + Html(Leading(start)) ==
        if start > 3 then before + Appended(PageLink("1", 1)) + Appended(PageLink("2", 2)) + EllipsisText
        else before
    {
      var leading := Leading(start);
      if start > 3 {
        var one, two := Appended(PageLink("1", 1)), Appended(PageLink("2", 2));
        assert leading[..2] == [Link(1), Link(2)];
        assert leading[..2][..1] == [Link(1)];
        assert IntegerText(1) == "1" && IntegerText(2) == "2";
        assert Html([Link(1)]) == Fragment(Link(1)) == one;
        assert Html([Link(1), Link(2)]) == one + two;
        assert Html(leading) == one + two + EllipsisText;
        AppendAssociative(before, one + two, EllipsisText);
        AppendAssociative(before, one, two);
      } else {
        assert before + [] == before;
      }
    }

    lemma HtmlOfTrailing(before: string, end: int, pageCount: int)
      ensures before + Html(Trailing(end, pageCount)) ==
        if end < pageCount - 3 then
          before + EllipsisText + Appended(PageLink(IntegerText(pageCount - 1), pageCount - 1))
          + Appended(PageLink(IntegerText(pageCount), pageCount))
        else before
    {
      var trailing := Trailing(end, pageCount);
      if end < pageCount - 3 {
        var secondToLast := Appended(PageLink(IntegerText(pageCount - 1), pageCount - 1));
        var last := Appended(PageLink(IntegerText(pageCount), pageCount));
        assert trailing[..2] == [Ellipsis, Link(pageCount - 1)];
        assert trailing[..2][..1] == [Ellipsis];
        assert Html([Ellipsis]) == EllipsisText;
        assert Html(trailing[..2]) == EllipsisText + secondToLast;
        assert Html(trailing) == EllipsisText + secondToLast + last;
        AppendAssociative(before, EllipsisText + secondToLast, last);
        AppendAssociative(before, EllipsisText, secondToLast);
      } else {
        assert before + [] == before;
      }
    }

    lemma HtmlOfWindowStep(start: int, i: int)
      requires start <= i
      ensures Html(WindowItems(start, i, currentPage)) ==
        Html(WindowItems(start, i - 1, currentPage)) + Fragment(Marker(i, currentPage))
    {
      var items := WindowItems(start, i, currentPage);
      assert items[..|items| - 1] == WindowItems(start, i - 1, currentPage);
    }

    /** Appending the fragment of window page i extends the window's HTML by one page. */
    lemma WindowStep(sb: string, done: string, out: string, start: int, i: int)
      requires start <= i
      requires done == sb + Html(WindowItems(start, i - 1, currentPage))
      requires out == done + Fragment(Marker(i, currentPage))
      ensures out == sb + Html(WindowItems(start, i, currentPage))
    {
      calc {
        out;
        (sb + Html(WindowItems(start, i - 1, currentPage))) + Fragment(Marker(i, currentPage));
        { AppendAssociative(sb, Html(WindowItems(start, i - 1, currentPage)), Fragment(Marker(i, currentPage))); }
        sb + (Html(WindowItems(start, i - 1, currentPage)) + Fragment(Marker(i, currentPage)));
        { HtmlOfWindowStep(start, i); }
        sb + Html(WindowItems(start, i, currentPage));
      }
    }

    function PreviousHtml(): string
    {
      if currentPage > 1 then Appended(PageLink(PreviousText, currentPage - 1)) else DisabledPrevious
    }

    function NextHtml(pageCount: int): string
    {
      if currentPage < pageCount then Appended(PageLink(NextText, currentPage + 1)) else DisabledNext
    }

    /** The HTML of the whole pager, part by part. */
    lemma HtmlOfItems(pageSize: int, totalItemCount: int)
      requires pageSize > 0 && totalItemCount >= 0
      ensures var pageCount := PageCount(pageSize, totalItemCount);
        var w := VisibleWindow(pageCount, currentPage);
        Html(Items(pageSize, currentPage, totalItemCount)) ==
          PreviousHtml() + Html(Leading(w.0)) + Html(WindowItems(w.0, w.1, currentPage))
          + Html(Trailing(w.1, pageCount)) + NextHtml(pageCount)
    {
      var pageCount := PageCount(pageSize, totalItemCount);
      var w := VisibleWindow(pageCount, currentPage);
      var prev, lead, win, trail, next :=
        [PrevItem(currentPage)], Leading(w.0), WindowItems(w.0, w.1, currentPage),
        Trailing(w.1, pageCount), [NextItem(currentPage, pageCount)];
      assert Items(pageSize, currentPage, totalItemCount) == prev + lead + win + trail + next;
      calc {
        Html(prev + lead + win + trail + next);
        { HtmlAppend(prev + lead + win + trail, next); }
        Html(prev + lead + win + trail) + Html(next);
        { HtmlAppend(prev + lead + win, trail); }
        Html(prev + lead + win) + Html(trail) + Html(next);
        { HtmlAppend(prev + lead, win); }
        Html(prev + lead) + Html(win) + Html(trail) + Html(next);
        { HtmlAppend(prev, lead); }
        Html(prev) + Html(lead) + Html(win) + Html(trail) + Html(next);
        { assert Html(prev) == PreviousHtml(); assert Html(next) == NextHtml(pageCount); }
        PreviousHtml() + Html(lead) + Html(win) + Html(trail) + NextHtml(pageCount);
      }
    }

    /**
     * Builds the route values of the link, resolves them and writes the anchor.
     * The result is null exactly when resolution fails; otherwise it is `<a`,
     * the AJAX attributes in order, then the href and the text.
     */
    method GeneratePageLink(linkText: string, pageNumber: int) returns (link: Option<string>)
      requires ReservedKeysFree(linkWithoutPageValues)
      ensures link == PageLink(linkText, pageNumber)
    {
      var pageLinkValues := linkWithoutPageValues;
      pageLinkValues := pageLinkValues[PageKey := Int(pageNumber)];
      pageLinkValues := pageLinkValues[SortByKey := NullableString(sortBy)];
      pageLinkValues := pageLinkValues[SortDescendingKey := NullableBool(sortDescending)];
      if ControllerKey !in pageLinkValues && ControllerKey in routeData {
        pageLinkValues := pageLinkValues[ControllerKey := routeData[ControllerKey]];
      }
      if ActionKey !in pageLinkValues && ActionKey in routeData {
        pageLinkValues := pageLinkValues[ActionKey := routeData[ActionKey]];
      }
      assert pageLinkValues == LinkValues(linkWithoutPageValues, routeData, pageNumber, sortBy, sortDescending);
      var virtualPath := resolve(pageLinkValues);
      if virtualPath.None? {
        return None;
      }
      var sb := "<a";
      if ajaxAttributes.Some? {
        var attributes := ajaxAttributes.value;
        for k := 0 to |attributes|
          invariant sb == "<a" + AttributeText(attributes[..k])
        {
          assert attributes[..k + 1][..k] == attributes[..k];
          sb := sb + " " + attributes[k].0 + "=\"" + attributes[k].1 + "\"";
        }
        assert attributes[..|attributes|] == attributes;
      }
      assert sb == "<a" + AttributeText(AjaxAttributeList());
      sb := sb + " href=\"" + virtualPath.value + "\">" + linkText + "</a>";
      assert sb == Anchor(AjaxAttributeList(), virtualPath.value, linkText);
      link := Some(sb);
    }

    /** The first and last page of the window: centred on the current page, or clamped at either end. */
    method Window(pageCount: nat) returns (start: int, end: int)
      ensures (start, end) == VisibleWindow(pageCount, currentPage)
    {
      start := 1;
      end := pageCount;
      if pageCount > PagesToDisplay {
        var middle := (PagesToDisplay + 1) / 2 - 1;
        var below := currentPage - middle;
        var above := currentPage + middle;
        if below < 4 {
          above := PagesToDisplay;
          below := 1;
        } else if above > pageCount - 4 {
          above := pageCount;
          below := pageCount - PagesToDisplay;
        }
        start := below;
        end := above;
      }
    }

    /** Appends the shortcut to pages 1 and 2 and an ellipsis when the window starts after page 3. */
    method AppendLeading(sb: string, start: int) returns (out: string)
      requires ReservedKeysFree(linkWithoutPageValues)
      ensures out == sb + Html(Leading(start))
    {
      out := sb;
      if start > 3 {
        var one := GeneratePageLink("1", 1);
        out := out + Appended(one);
        var two := GeneratePageLink("2", 2);
        out := out + Appended(two);
        out := out + EllipsisText;
      }
      HtmlOfLeading(sb, start);
    }

    /** One window page: the current-page span for the current page, a link otherwise. */
    method WindowPageHtml(i: int) returns (fragment: string)
      requires ReservedKeysFree(linkWithoutPageValues)
      ensures fragment == Fragment(Marker(i, currentPage))
    {
      if i == currentPage || (currentPage <= 0 && i == 0) {
        fragment := CurrentSpan(i);
      } else {
        var link := GeneratePageLink(IntegerText(i), i);
        fragment := Appended(link);
      }
    }

    /** Appends every page of the window: a span for the current page, a link for the others. */
    method AppendWindow(sb: string, start: int, end: int) returns (out: string)
      requires ReservedKeysFree(linkWithoutPageValues)
      requires start <= end + 1
      ensures out == sb + Html(WindowItems(start, end, currentPage))
    {
      out := sb;
      assert out == sb + Html(WindowItems(start, start - 1, currentPage)) by {
        assert WindowItems(start, start - 1, currentPage) == [];
        assert sb + [] == sb;
      }
      var i := start;
      while i <= end
        invariant start <= i <= end + 1
        invariant out == sb + Html(WindowItems(start, i - 1, currentPage))
      {
        ghost var done := out;
        var fragment := WindowPageHtml(i);
        out := out + fragment;
        WindowStep(sb, done, out, start, i);
        i := i + 1;
      }
    }

    /** Appends an ellipsis and the shortcut to the last two pages when the window ends before pageCount - 3. */
    method AppendTrailing(sb: string, end: int, pageCount: int) returns (out: string)
      requires ReservedKeysFree(linkWithoutPageValues)
      ensures out == sb + Html(Trailing(end, pageCount))
    {
      out := sb;
      if end < pageCount - 3 {
        out := out + EllipsisText;
        var secondToLast := GeneratePageLink(IntegerText(pageCount - 1), pageCount - 1);
        out := out + Appended(secondToLast);
        var last := GeneratePageLink(IntegerText(pageCount), pageCount);
        out := out + Appended(last);
      }
      HtmlOfTrailing(sb, end, pageCount);
    }

    /** Appends the Previous control: a link to the page before, or the disabled span on page 1 and below. */
    method AppendPrevious(sb: string) returns (out: string)
      requires ReservedKeysFree(linkWithoutPageValues)
      ensures out == sb + PreviousHtml()
    {
      if currentPage > 1 {
        var link := GeneratePageLink(PreviousText, currentPage - 1);
        out := sb + Appended(link);
      } else {
        out := sb + DisabledPrevious;
      }
    }

    /** Appends the Next control: a link to the page after, or the disabled span on the last page and beyond. */
    method AppendNext(sb: string, pageCount: int) returns (out: string)
      requires ReservedKeysFree(linkWithoutPageValues)
      ensures out == sb + NextHtml(pageCount)
    {
      if currentPage < pageCount {
        var link := GeneratePageLink(NextText, currentPage + 1);
        out := sb + Appended(link);
      } else {
        out := sb + DisabledNext;
      }
    }

    /** Writes the pager: Previous, the leading shortcut, the window, the trailing shortcut, Next. */
    method RenderHtml() returns (html: string)
      requires pageSize > 0 && totalItemCount >= 0
      requires ReservedKeysFree(linkWithoutPageValues)
      ensures html == Html(Items(pageSize, currentPage, totalItemCount))
    {
      var pageCount := (totalItemCount + pageSize - 1) / pageSize;
      assert pageCount == PageCount(pageSize, totalItemCount);
      var sb := "";
      sb := AppendPrevious(sb);
      assert sb == PreviousHtml();
      var start, end := Window(pageCount);
      sb := AppendLeading(sb, start);
      sb := AppendWindow(sb, start, end);
      sb := AppendTrailing(sb, end, pageCount);
      sb := AppendNext(sb, pageCount);
      HtmlOfItems(pageSize, totalItemCount);
      html := sb;
    }
  }
}
