/**
 * `ordersRouter` of the orders service: which handler a path and method
 * reach, and the `{id}` it pulls out of `/orders/{id}`. Only the trailing
 * slash trimming, prefix test and id checks of the router are modelled; the
 * `ServeMux` in front of it is not.
 */
module OrdersRouter {

  /** The request method; every method other than the four the router handles is `OtherMethod`. */
  datatype HttpMethod = Get | Post | Put | Delete | OtherMethod

  /** The handler a request reaches: one of the five, a 405, or a 404. */
  datatype Route =
    | ListOrders | CreateOrder
    | GetOrder(id: string) | UpdateOrder(id: string) | DeleteOrder(id: string)
    | MethodNotAllowed | NotFound

  const Collection: string := "/orders"
  const ItemPrefix: string := "/orders/"

  /** `strings.HasPrefix`. */
  predicate HasPrefix(s: string, prefix: string) {
    |prefix| <= |s| && s[..|prefix|] == prefix
  }

  /** `strings.TrimPrefix`: drops the prefix once, if present. */
  function TrimPrefix(s: string, prefix: string): string {
    if HasPrefix(s, prefix) then s[|prefix|..] else s
  }

  /** `strings.TrimSuffix(s, "/")`: drops one trailing slash, if present. */
  function TrimSlash(s: string): string {
    if |s| > 0 && s[|s| - 1] == '/' then s[..|s| - 1] else s
  }

  /** The switch on the method once an id has been found. */
  function ItemRoute(m: HttpMethod, id: string): Route {
    match m
    case Get => GetOrder(id)
    case Put => UpdateOrder(id)
    case Delete => DeleteOrder(id)
    case _ => MethodNotAllowed
  }

  /** `ordersRouter`. */
  function RouteOf(path: string, m: HttpMethod): (r: Route)
    ensures r == ListOrders || r.GetOrder? ==> m == Get
    ensures r == CreateOrder ==> m == Post
    ensures r.UpdateOrder? ==> m == Put
    ensures r.DeleteOrder? ==> m == Delete
    ensures r == MethodNotAllowed ==> m != Get && m != Put && m != Delete
    ensures r.GetOrder? || r.UpdateOrder? || r.DeleteOrder? ==> r.id != "" && '/' !in r.id
  {
    var cleanPath := TrimSlash(path);
    if (cleanPath == Collection || path == ItemPrefix) && m == Get then ListOrders
    else if (cleanPath == Collection || path == ItemPrefix) && m == Post then CreateOrder
    else if HasPrefix(path, ItemPrefix) && TrimPrefix(cleanPath, ItemPrefix) != ""
            && '/' !in TrimPrefix(cleanPath, ItemPrefix) then
      ItemRoute(m, TrimPrefix(cleanPath, ItemPrefix))
    else NotFound
  }

  /** The collection is reached at `/orders` and `/orders/` and nowhere else. */
  lemma CollectionPaths(path: string)
    ensures RouteOf(path, Get) == ListOrders <==> path == Collection || path == ItemPrefix
    ensures RouteOf(path, Post) == CreateOrder <==> path == Collection || path == ItemPrefix
  {
    if path == Collection || path == ItemPrefix {
      assert TrimSlash(path) == Collection;
    }
    if TrimSlash(path) == Collection && path != Collection {
      assert path == Collection + "/";
    }
  }

  /** `/orders/{id}`, with or without one trailing slash, reaches the handler for `{id}`. */
  lemma ItemPathsRoute(id: string, m: HttpMethod)
    requires id != "" && '/' !in id
    ensures RouteOf(ItemPrefix + id, m) == ItemRoute(m, id)
    ensures RouteOf(ItemPrefix + id + "/", m) == ItemRoute(m, id)
  {
    var p := ItemPrefix + id;
    assert id[|id| - 1] != '/';
    assert TrimSlash(p) == p;
    assert HasPrefix(p, ItemPrefix) && p[|ItemPrefix|..] == id;
    var q := p + "/";
    assert TrimSlash(q) == p;
    assert q[..|ItemPrefix|] == ItemPrefix;
  }

  /** Conversely, a handler for `{id}` is reached only from those two paths, with an id free of slashes. */
  lemma ItemRouteOnlyFromItemPaths(path: string, m: HttpMethod, id: string)
    requires RouteOf(path, m) in {GetOrder(id), UpdateOrder(id), DeleteOrder(id)}
    ensures id != "" && '/' !in id
    ensures path == ItemPrefix + id || path == ItemPrefix + id + "/"
  {
    var cleanPath := TrimSlash(path);
    assert HasPrefix(path, ItemPrefix);
    assert |cleanPath| >= 1 && cleanPath[0] == path[0] == '/';
    assert HasPrefix(cleanPath, ItemPrefix);
    assert cleanPath[..|ItemPrefix|] == path[..|ItemPrefix|];
    assert id == cleanPath[|ItemPrefix|..];
    assert cleanPath == ItemPrefix + id;
  }
}
