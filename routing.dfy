/**
 * Route values and the route-value map built for one page link. The
 * routing framework itself (route data of the current request, the route
 * table) is outside this module: route data is an input map and route
 * resolution a function parameter of the pager.
 */
module Routing {
  import opened Wrappers

  /** A route value: the boxed objects a route-value dictionary holds. */
  datatype RouteValue = Null | Int(n: int) | Bool(b: bool) | Str(s: string)

  type RouteValues = map<string, RouteValue>

  const PageKey := "Page"
  const SortByKey := "SortBy"
  const SortDescendingKey := "SortDescending"
  const ControllerKey := "controller"
  const ActionKey := "action"

  /** The keys every page link sets. */
  const ReservedKeys: set<string> := {PageKey, SortByKey, SortDescendingKey}

  /** The keys defaulted from the current route data. */
  const RoutingKeys: set<string> := {ControllerKey, ActionKey}

  /** The caller's values may not already hold a key the link adds (the dictionary's `Add` would throw). */
  predicate ReservedKeysFree(values: RouteValues)
  {
    values.Keys !! ReservedKeys
  }

  /** A `string` that may be null, as a route value. */
  function NullableString(s: Option<string>): RouteValue
  {
    match s
    case None => Null
    case Some(v) => Str(v)
  }

  /** A `bool?`, as a route value. */
  function NullableBool(b: Option<bool>): RouteValue
  {
    match b
    case None => Null
    case Some(v) => Bool(v)
  }

  /** Copies `key` from the route data when the map lacks it and the route data has it. */
  function DefaultFromRouteData(values: RouteValues, routeData: RouteValues, key: string): RouteValues
  {
    if key !in values && key in routeData then values[key := routeData[key]] else values
  }

  /**
   * The route values of the link to `page`: the caller's values plus the page
   * and the sort state, then controller and action from the route data where
   * the caller did not give them.
   */
  function LinkValues(values: RouteValues, routeData: RouteValues, page: int,
                      sortBy: Option<string>, sortDescending: Option<bool>): RouteValues
  {
    var withPage := values[PageKey := Int(page)][SortByKey := NullableString(sortBy)]
                          [SortDescendingKey := NullableBool(sortDescending)];
    DefaultFromRouteData(DefaultFromRouteData(withPage, routeData, ControllerKey), routeData, ActionKey)
  }

  /**
   * The link's keys are the caller's keys, the page and sort keys, and
   * controller and action where the route data has them; no other key.
   * Page and sort values are the link's own; every other caller value is
   * kept, so a caller's controller or action is never replaced, and route
   * data fills in only what the caller left out.
   */
  lemma LinkValuesContents(values: RouteValues, routeData: RouteValues, page: int,
                           sortBy: Option<string>, sortDescending: Option<bool>)
    ensures var r := LinkValues(values, routeData, page, sortBy, sortDescending);
      && r.Keys == values.Keys + ReservedKeys + (RoutingKeys * routeData.Keys)
      && r[PageKey] == Int(page)
      && r[SortByKey] == NullableString(sortBy)
      && r[SortDescendingKey] == NullableBool(sortDescending)
      && (forall k :: k in values && k !in ReservedKeys ==> r[k] == values[k])
      && (forall k :: k in RoutingKeys && k !in values && k in routeData ==> r[k] == routeData[k])
  {
  }
}
