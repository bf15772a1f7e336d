# Pager of MvcPaging, modelled in Dafny

The `Pager` class of MvcPaging writes the HTML of a numeric pager for a
paged, optionally sorted list in an ASP.NET MVC view:

- a Previous control;
- a window of page numbers around the current page;
- shortcuts to the first two and the last two pages, each separated from the
  window by an ellipsis;
- a Next control.

Every link is built from the caller's route values. The link adds the page
number and the sort state, and it fills in the controller and action from
the current request's route data when the caller did not give them.

The project holds these modules:

- `Wrappers` (`wrappers.dfy`): the `Option` type. It stands for C#'s null
  strings and `bool?`.
- `Markup` (`markup.dfy`): the text fragments the pager writes. These are
  page numerals, as `int.ToString()` writes them, the attribute list, and the
  anchor tag.
- `Routing` (`routing.dfy`): route values, and the route-value map that one
  page link resolves.
- `PagerSpec` (`pager_spec.dfy`): what the pager shows, as a sequence of
  items (Previous, page links, the current-page marker, ellipses, Next). It
  also holds the properties of that sequence: page count, window shape,
  order, range, the current-page marker, the Previous and Next rules, and
  the worked examples.
- `MvcPaging` (`pager.dfy`): the class `Pager`. Its two constructors store
  the state in `const` fields. `GeneratePageLink` builds the link map,
  resolves it and writes the anchor, with a loop over the AJAX attributes.
  `GeneratePageLink` is proved to return exactly `PageLink(linkText,
  pageNumber)`, and `Routing.LinkValuesContents` states the contents of the
  route-value map behind it. `RenderHtml` appends to a string builder part
  by part, and it is proved to write exactly `Html(Items(...))`, the HTML of
  the specified item sequence.
- `PagerFindings` (`pager_findings.dfy`): a gap in the boundary shortcuts for
  11 to 13 pages, and a corrected body that accounts for every page.

The web framework enters as two fields of the pager:

- `routeData`: the route data of the current request.
- `resolve`: the route table's resolution of a route-value map to a virtual
  path, with `None` where no route matches. It is an arbitrary function, so
  every property holds for any route table.

`RenderHtml`'s loops and string building are split into methods with small
contracts:

- `AppendPrevious` covers line 52 of the source.
- `Window` computes the window bounds, lines 54-76.
- `AppendLeading` covers lines 78-83.
- `AppendWindow` holds the loop at lines 85-95.
- `WindowPageHtml` is the loop body.
- `AppendTrailing` covers lines 96-101.
- `AppendNext` covers line 104.

Each of them appends to the builder string it is given, as the source
appends to its `StringBuilder`.

The display budget `nrOfPagesToDisplay` is 10, but the window is not always
10 pages wide. It is 9 pages wide when centred on the current page, pages 1
to 10 when clamped at the start, and 11 pages (`pageCount - 10` to
`pageCount`) when clamped at the end. The model follows the code here, and
`PagerSpec.VisibleWindow` states those three shapes.

## Model

| member | source | states |
|---|---|---|
| MvcPaging.Pager.constructor | PagingSorting/Pager.cs:22-30 | The pager without sort state keeps page size, current page, total, the caller's route values and the AJAX options as given; SortBy and SortDescending are null. |
| MvcPaging.Pager.WithSort | PagingSorting/Pager.cs:32-42 | The pager with sort state keeps every argument, including SortBy and SortDescending, in its fields. |
| MvcPaging.Pager.RenderHtml | PagingSorting/Pager.cs:44-107 | The HTML written is exactly the HTML of the item sequence `Items(pageSize, currentPage, totalItemCount)`: Previous, leading shortcut, window, trailing shortcut, Next, each fragment in that order. |
| MvcPaging.Pager.AppendPrevious | PagingSorting/Pager.cs:52 | The builder gains a link to currentPage - 1 when currentPage > 1, and the disabled `&lt;` span otherwise. |
| MvcPaging.Pager.Window | PagingSorting/Pager.cs:54-76 | The bounds computed step by step are exactly `VisibleWindow(pageCount, currentPage)`, whose shapes and selecting conditions that function's contract states. |
| MvcPaging.Pager.AppendLeading | PagingSorting/Pager.cs:78-83 | When the window starts after page 3, the builder gains the links to pages 1 and 2 and an ellipsis; otherwise it is unchanged. |
| MvcPaging.Pager.AppendWindow | PagingSorting/Pager.cs:85-95 | The loop appends one fragment per page from start to end, in increasing order, so that the builder ends with the HTML of `WindowItems(start, end)`. |
| MvcPaging.Pager.WindowPageHtml | PagingSorting/Pager.cs:87-94 | A window page is written as the `current` span when it is the current page (or page 0 when the current page is not positive), and as a link otherwise. |
| MvcPaging.Pager.AppendTrailing | PagingSorting/Pager.cs:96-101 | When the window ends before pageCount - 3, the builder gains an ellipsis and the links to the last two pages; otherwise it is unchanged. |
| MvcPaging.Pager.AppendNext | PagingSorting/Pager.cs:104 | The builder gains a link to currentPage + 1 when currentPage < pageCount, and the disabled `&gt;` span otherwise. |
| MvcPaging.Pager.HtmlOfItems | PagingSorting/Pager.cs:49-104 | The HTML of the item sequence splits into the Previous fragment, the leading shortcut, the window, the trailing shortcut and the Next fragment, in output order. |
| MvcPaging.Pager.HtmlOfLeading | PagingSorting/Pager.cs:78-83 | The leading shortcut's HTML is the link to page 1, the link to page 2 and "..." when the window starts after page 3, and empty otherwise. |
| MvcPaging.Pager.HtmlOfTrailing | PagingSorting/Pager.cs:96-101 | The trailing shortcut's HTML is "..." and the links to pageCount - 1 and pageCount when the window ends before pageCount - 3, and empty otherwise. |
| MvcPaging.Pager.HtmlOfWindowStep | PagingSorting/Pager.cs:85-95 | Extending the window by page i adds exactly that page's fragment at the end of the window's HTML. |
| MvcPaging.Pager.HtmlAppend | PagingSorting/Pager.cs:49-106 | The HTML of two item sequences joined is the HTML of the first followed by that of the second, as appending to one builder implies. |
| MvcPaging.Pager.GeneratePageLink | PagingSorting/Pager.cs:109-139 | The link is null exactly when the route table resolves no path for the link's route values; otherwise it is `<a`, every AJAX attribute in order as ` name="value"`, then ` href="path">`, the text and `</a>`. |
| Routing.LinkValuesContents | PagingSorting/Pager.cs:111-122 | The link's route values hold the caller's keys, Page, SortBy and SortDescending, and controller and action only where route data has them. Page and sort values are the link's own. Every other caller value is kept, and route data fills in controller and action only where the caller left them out. |
| PagerSpec.PageCountIsCeiling | PagingSorting/Pager.cs:46 | The page count is the least number of pages of pageSize items that hold every item: `(n-1)*pageSize < total <= n*pageSize`, and it is zero exactly when there are no items. |
| PagerSpec.VisibleWindow | PagingSorting/Pager.cs:54-76 | Up to 10 pages, the window is 1..pageCount. Beyond that it lies within 1..pageCount and is exactly one of three shapes. It is 1..10 when currentPage - 4 < 4. Otherwise it is pageCount - 10..pageCount when currentPage + 4 > pageCount - 4, and currentPage - 4..currentPage + 4 in every other case. Width 9, 10 and 11 each identify one shape. An in-range current page always lies inside the window. |
| PagerSpec.WindowItemsAt | PagingSorting/Pager.cs:85-95 | Window item k is page lo + k; it is the current marker exactly when that page is the current page, a link otherwise. |
| PagerSpec.WindowPages | PagingSorting/Pager.cs:85-95 | The window shows exactly the pages lo..hi, each once, in increasing order. |
| PagerSpec.LeadingPages | PagingSorting/Pager.cs:78-83 | The leading shortcut shows pages 1 and 2 when the window starts after page 3, and no page otherwise. |
| PagerSpec.TrailingPages | PagingSorting/Pager.cs:96-101 | The trailing shortcut shows pages pageCount - 1 and pageCount when the window ends before pageCount - 3, and no page otherwise. |
| PagerSpec.BodyPages | PagingSorting/Pager.cs:78-101 | The page numbers between Previous and Next are [1, 2] if the leading shortcut shows, then the window's pages, then [pageCount - 1, pageCount] if the trailing shortcut shows. |
| PagerSpec.PagesOrderedInRange | PagingSorting/Pager.cs:54-101 | Every page number shown lies in 1..pageCount and the numbers strictly increase, so no page is shown twice and the shortcuts never repeat a window page. |
| PagerSpec.ShortcutsAvoidCurrent | PagingSorting/Pager.cs:78-101 | The shortcuts hold only ellipses and links to pages other than the current one. |
| PagerSpec.CurrentMarker | PagingSorting/Pager.cs:85-95 | The current page is never a link, every current marker is for the current page, and the marker is shown exactly when 1 <= currentPage <= pageCount. |
| PagerSpec.BodyItemKinds | PagingSorting/Pager.cs:78-101 | Between Previous and Next there are only links, the current marker and ellipses. |
| PagerSpec.PreviousAndNext | PagingSorting/Pager.cs:52-104 | The output starts with Previous and ends with Next and neither occurs elsewhere. Previous links to currentPage - 1 exactly when currentPage > 1, Next links to currentPage + 1 exactly when currentPage < pageCount, and each is the disabled span otherwise. Neither target is clamped to the page range. |
| PagerSpec.SmallPagerShowsAll | PagingSorting/Pager.cs:54-57 | With at most 10 pages every page 1..pageCount is shown once, in order, and there is no ellipsis. |
| PagerSpec.ExampleThreePages | PagingSorting/Pager.cs:44-107 | 25 items of 10 per page on page 1 give 3 pages: a disabled Previous, the current marker for 1, links to 2 and 3, and Next to page 2. |
| PagerSpec.ExampleFiftyPages | PagingSorting/Pager.cs:54-101 | 500 items of 10 per page on page 25 give 50 pages, window 21..29, and the pages 1, 2, 21..29, 49, 50. |
| Markup.NaturalText | PagingSorting/Pager.cs:89 | The numeral of a page number is a non-empty string of decimal digits with no leading zero (only the number 0 starts with '0'). |
| Markup.NaturalTextRoundTrip | PagingSorting/Pager.cs:89-100 | Reading a page numeral back gives the page number, so distinct pages get distinct labels. |
| PagerFindings.AsWrittenDropsLastPage | PagingSorting/Pager.cs:96-101 | As written, 110 items of 10 per page on page 1 (11 pages) show pages 1..10 and neither show page 11 nor mark it with an ellipsis. |
| PagerFindings.AsWrittenDropsLastThreePages | PagingSorting/Pager.cs:63-67 | As written, 130 items of 10 per page on page 1 (13 pages) show pages 1..10 and neither show pages 11, 12 and 13 nor mark them with an ellipsis. |
| PagerFindings.AsWrittenDropsFirstPage | PagingSorting/Pager.cs:68-83 | As written, 120 items of 10 per page on page 12 (12 pages) show pages 2..12 and neither show page 1 nor mark it with an ellipsis. |
| PagerFindings.IntendedBodyAccountsForEveryPage | PagingSorting/Pager.cs:78-101 | In the corrected body every page 1..pageCount is either shown or lies between two shown pages with an ellipsis between them. |
| PagerFindings.IntendedAgreesOutsideGap | PagingSorting/Pager.cs:78-101 | The corrected body equals the code's body for every page count except 11, 12 and 13. |

## Left out

- Route resolution (`RouteTable.Routes.GetVirtualPathForArea`) and the request's route data are fields of the pager. The routing framework itself is not part of this model.
- `AjaxOptions.ToUnobtrusiveHtmlAttributes()` is an ordered list of name and value pairs given to the pager. How the options produce it is not part of this model.
- Route-value dictionaries are case-insensitive in the framework. The model's maps compare keys exactly.
- Route values are a small datatype (null, integer, boolean, string) rather than arbitrary boxed objects.
- `HtmlString` is the plain string. No HTML encoding is modelled, because the source does none: link text, attribute values and paths are written verbatim.
- MvcPaging.Pager.RenderHtml: requires a positive page size and a non-negative total. The source's `Math.Ceiling` over doubles gives infinities or negative counts otherwise, and the model computes the same ceiling with integer division.
- MvcPaging.Pager.RenderHtml: does not model 32-bit wrap-around of `currentPage - 1`, `currentPage + 1` or the window bounds, because integers are unbounded here. The window bounds `currentPage - 4` and `currentPage + 4` wrap when currentPage is within 4 of either end of the 32-bit range and there are more than 10 pages. For currentPage = `int.MinValue`, for example, the source gets start 2147483644 and end -2147483644. It then writes both shortcuts and no window page, where the model writes pages 1..10. Near `int.MaxValue` it likewise writes both shortcuts and no window page, where the model writes the last 11 pages. The Previous and Next targets never wrap, because their guards exclude those extremes. The loop index of lines 85-95 wraps too. When pageSize is 1, totalItemCount is `int.MaxValue` and currentPage is in `int.MaxValue - 7..int.MaxValue - 4`, the window ends at `int.MaxValue`. Then `i++` wraps to `int.MinValue`, which is still at most `end`, so the source never finishes, while the model writes the last 11 pages.
- MvcPaging.Pager.GeneratePageLink: requires that the caller's route values do not already hold Page, SortBy or SortDescending. The source's collection initializer calls `Add`, which throws on such a key, and that exception is not modelled.
- The `ViewContext` field is represented only by the route data and the resolver taken from it.

## Findings

| source | as written | input that shows it | evidently intended | confidence | as-written member | corrected member |
|---|---|---|---|---|---|---|
| PagingSorting/Pager.cs:63-101 | The leading shortcut appears only when the window leaves at least three first pages out (`start > 3`). The trailing shortcut appears only when it leaves at least four last pages out (`end < pageCount - 3`). With 11 to 13 pages the clamped window can leave up to two pages out at the start, or up to three at the end, with no shortcut and no ellipsis. | pageSize 10, totalItemCount 110, currentPage 1: pages 1..10 are shown and page 11 is missing. pageSize 10, totalItemCount 130, currentPage 1: pages 11, 12 and 13 are all missing. pageSize 10, totalItemCount 120, currentPage 12: pages 2..12 are shown and page 1 is missing. | When a shortcut does not fit, the skipped boundary pages are shown themselves, so every page is shown or stands behind an ellipsis. | medium, not executed | PagerFindings.AsWrittenDropsLastPage | PagerFindings.IntendedBodyAccountsForEveryPage |

`PagerFindings.IntendedBody` is the corrected definition. It agrees with the
code's `Body` for every page count except 11, 12 and 13
(`PagerFindings.IntendedAgreesOutsideGap`). `RenderHtml` and the properties
in `PagerSpec` describe the code as written. `AsWrittenDropsLastThreePages`
shows three pages lost at the end, and `AsWrittenDropsFirstPage` shows the
same gap at the start of the range.
