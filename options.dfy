/** options/options.go: a route table keyed by the exact request path whose
    handlers hand back the response writer. The router's eight verb tables
    other than POST are modelled with these map semantics. */
module Options {
  import opened Http

  /** The table after AddRoute(n, h). */
  function Added(m: RouteMap, n: string, h: Handler): (r: RouteMap)
    ensures n in r && r[n] == h
    ensures r.Keys == m.Keys + {n}
    ensures forall k | k in m && k != n :: r[k] == m[k]
  {
    m[n := h]
  }

  /** The table after RemoveRoute(n). */
  function Removed(m: RouteMap, n: string): (r: RouteMap)
    ensures n !in r
    ensures r.Keys == m.Keys - {n}
    ensures forall k | k in r :: r[k] == m[k]
  {
    m - {n}
  }

  /** Adding a route that was absent and removing it again restores the table. */
  lemma AddThenRemoveRestores(m: RouteMap, n: string, h: Handler)
    requires n !in m
    ensures Removed(Added(m, n, h), n) == m
  {
  }

  /** Removing an absent route changes nothing and is not an error. */
  lemma RemoveAbsentIsNoOp(m: RouteMap, n: string)
    requires n !in m
    ensures Removed(m, n) == m
  {
  }

  /** The last registration of a path wins. */
  lemma LastAddWins(m: RouteMap, n: string, h1: Handler, h2: Handler)
    ensures Added(Added(m, n, h1), n, h2) == Added(m, n, h2)
  {
  }

  class Api {
    var routeMap: RouteMap

    /** InitAPI */
    constructor InitAPI()
      ensures routeMap == map[]
    {
      routeMap := map[];
    }

    method AddRoute(routeName: string, handle: Handler)
      modifies this
      ensures routeMap == Added(old(routeMap), routeName, handle)
    {
      routeMap := routeMap[routeName := handle];
    }

    method RemoveRoute(routeName: string)
      modifies this
      ensures routeMap == Removed(old(routeMap), routeName)
    {
      routeMap := routeMap - {routeName};
    }

    /** Runs the handler stored under exactly the request path and returns the
        writer it hands back; on a miss writes 404 and returns the same writer.
        `run` stands for calling a handler, which the table does not see into. */
    method Process(w: Writer, r: Request, run: (Handler, Writer, Request) -> Writer) returns (w': Writer)
      ensures r.path in routeMap ==> w' == run(routeMap[r.path], w, r)
      ensures r.path !in routeMap ==> w'.conn == w.conn && w'.statuses == w.statuses + [StatusNotFound]
    {
      w' := w;
      if r.path in routeMap {
        w' := run(routeMap[r.path], w', r);
      } else {
        w' := w'.WriteHeader(StatusNotFound);
      }
    }
  }
}
