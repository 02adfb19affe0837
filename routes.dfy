/** The route table every router derived from one root shares. It stands in
    for the path matcher, whose pattern language (":name" segments, "..."
    subtrees, most-specific match) is not part of this model: the table keeps
    every binding it was given, in registration order, and the stand-in lookup
    matches a method and a path against the stored (method, full pattern)
    keys exactly and extracts no parameters. */
module Routes {
  import opened Http
  import opened Handlers

  datatype Binding = Binding(verb: string, pattern: string, handler: Handler)

  /** The matcher's answer (handler, params, found), as one value. */
  datatype Match = NotFound | Found(handler: Handler, params: map<string, string>)

  predicate Matches(b: Binding, verb: string, path: string) {
    b.verb == verb && b.pattern == path
  }

  /** Exact-key lookup: a hit exactly when some binding has this key, and
      then the handler of such a binding (the most recent one). */
  function Find(bs: seq<Binding>, verb: string, path: string): (r: Match)
    ensures r.NotFound? <==> forall i :: 0 <= i < |bs| ==> !Matches(bs[i], verb, path)
    ensures r.Found? ==> r.params == map[]
    ensures r.Found? ==> exists i :: 0 <= i < |bs| && Matches(bs[i], verb, path) && bs[i].handler == r.handler
    decreases |bs|
  {
    if bs == [] then NotFound
    else if Matches(bs[|bs| - 1], verb, path) then Found(bs[|bs| - 1].handler, map[])
    else Find(bs[..|bs| - 1], verb, path)
  }

  class RouteTable {
    var bindings: seq<Binding>

    /** sage.NewRoutesTrie(): an empty table. */
    constructor ()
      ensures bindings == []
    {
      bindings := [];
    }

    /** routes.Add(method, pattern, h): one more binding, nothing else. */
    method Add(verb: string, pattern: string, h: Handler)
      modifies this
      ensures bindings == old(bindings) + [Binding(verb, pattern, h)]
    {
      bindings := bindings + [Binding(verb, pattern, h)];
    }

    /** routes.Lookup(req) */
    function Lookup(verb: string, path: string): Match
      reads this
    {
      Find(bindings, verb, path)
    }
  }
}
