/** post_api/post.go: the POST route table. Every route is also reachable
    under its path followed by "/post". */
module PostApi {
  import opened Http

  /** The second key AddRoute and RemoveRoute touch for a route name. */
  function Alias(n: string): (a: string)
    ensures |a| == |n| + 5 && a[..|n|] == n && a != n
  {
    n + "/post"
  }

  /** The table after AddRoute(n, h): both n and its alias lead to h. */
  function Added(m: RouteMap, n: string, h: Handler): (r: RouteMap)
    ensures n in r && r[n] == h
    ensures Alias(n) in r && r[Alias(n)] == h
    ensures r.Keys == m.Keys + {n, Alias(n)}
    ensures forall k | k in m && k != n && k != Alias(n) :: r[k] == m[k]
  {
    m[n := h][Alias(n) := h]
  }

  /** The table after RemoveRoute(n): neither n nor its alias is left. */
  function Removed(m: RouteMap, n: string): (r: RouteMap)
    ensures n !in r && Alias(n) !in r
    ensures r.Keys == m.Keys - {n, Alias(n)}
    ensures forall k | k in r :: r[k] == m[k]
  {
    m - {n} - {Alias(n)}
  }

  /** Adding a route whose two keys were both absent and removing it again
      restores the table. */
  lemma AddThenRemoveRestores(m: RouteMap, n: string, h: Handler)
    requires n !in m && Alias(n) !in m
    ensures Removed(Added(m, n, h), n) == m
  {
  }

  /** Removing an absent route and alias changes nothing. */
  lemma RemoveAbsentIsNoOp(m: RouteMap, n: string)
    requires n !in m && Alias(n) !in m
    ensures Removed(m, n) == m
  {
  }

  /** The last registration of a route wins, under both keys. */
  lemma LastAddWins(m: RouteMap, n: string, h1: Handler, h2: Handler)
    ensures Added(Added(m, n, h1), n, h2) == Added(m, n, h2)
  {
  }

  /** A route registered on its own under n + "/post" is replaced by a later
      AddRoute(n, h) and deleted by RemoveRoute(n). */
  lemma AliasShadowsExplicitRoute(m: RouteMap, n: string, h1: Handler, h2: Handler)
    ensures Added(Added(m, n + "/post", h1), n, h2)[n + "/post"] == h2
    ensures n + "/post" !in Removed(Added(m, n + "/post", h1), n)
  {
  }

  class Api {
    var routeMap: RouteMap

    /** InitAPI */
    constructor InitAPI()
      ensures routeMap == map[]
    {
      routeMap := map[];
    }

    method AddRoute(routeName: string, handle: Handler)
      modifies this
      ensures routeMap == Added(old(routeMap), routeName, handle)
    {
      routeMap := routeMap[routeName := handle];
      var appendRouteName := routeName + "/post";
      routeMap := routeMap[appendRouteName := handle];
    }

    method RemoveRoute(routeName: string)
      modifies this
      ensures routeMap == Removed(old(routeMap), routeName)
    {
      routeMap := routeMap - {routeName};
      var appendRouteName := routeName + "/post";
      routeMap := routeMap - {appendRouteName};
    }

    /** Calls the handler stored under exactly the request path; on a miss,
        writes 404 and calls nothing. */
    method Process(r: Request) returns (o: Outcome)
      ensures o.Invoked? <==> r.path in routeMap
      ensures o.Invoked? ==> o.handler == routeMap[r.path]
    {
      if r.path in routeMap {
        o := Invoked(routeMap[r.path]);
      } else {
        o := NotFound;
      }
    }
  }
}
