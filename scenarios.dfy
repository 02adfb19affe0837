/** The behaviours router_test.go checks, as clients of the model. The route
    table's stand-in lookup is exact-key, so requests are given paths equal to
    the full patterns the router stores, and where a test relies on the
    matcher's own pattern language (":name", "...") the matcher's answer is
    written out and handed to Dispatch. */
module Scenarios {
  import opened Http
  import opened Handlers
  import opened Routes
  import opened Paths
  import opened Brisk

  /** The `h` of TestRouter_Middleware: appends "h", writes nothing, returns nil. */
  const TRACE_H: Handler := Endpoint(Effect("h", "h", [], None, "", None))

  const GLOBAL: seq<Middleware> := [Tracer("1"), Tracer("2")]
  const PER_CALL: seq<Middleware> := [Tracer("3"), Tracer("4")]
  const PER_GROUP: seq<Middleware> := [Tracer("5"), Tracer("6")]
  const PER_GROUP_CALL: seq<Middleware> := [Tracer("7"), Tracer("8")]

  /** Dispatching a handler wrapped in `ms` around TRACE_H appends the texts of
      `ms` and then "h" to the trace. */
  lemma TraceOfWrapped(ms: seq<Middleware>, eh: Option<ErrorHook>, req: Request, x: Exec)
    ensures Invoke(Wrap(ms, TRACE_H), eh, req, x).trace == x.trace + Symbols(ms) + "h"
  {
    WrapShape(ms, TRACE_H);
    assert ms + [] == ms;
  }

  lemma SymbolsOfPair(a: string, b: string)
    ensures Symbols([Tracer(a), Tracer(b)]) == a + b
  {
    var s := [Tracer(a), Tracer(b)];
    assert s[1..] == [Tracer(b)] && s[1..][1..] == [];
    assert Symbols(s[1..][1..]) == "";
    assert Symbols(s[1..]) == b + "" == b;
  }

  /** The root route of TestRouter_Middleware is wrapped in 1, 2, 3, 4. */
  lemma RootTrace()
    ensures Symbols(GLOBAL + PER_CALL) == "1234"
  {
    SymbolsOfPair("1", "2");
    SymbolsOfPair("3", "4");
    SymbolsAppend(GLOBAL, PER_CALL);
  }

  /** The group route of TestRouter_Middleware is wrapped in 1, 2, 5, 6, 7, 8. */
  lemma GroupTrace()
    ensures Symbols(GLOBAL + PER_GROUP + PER_GROUP_CALL) == "125678"
  {
    SymbolsOfPair("1", "2");
    SymbolsOfPair("5", "6");
    SymbolsOfPair("7", "8");
    SymbolsAppend(GLOBAL, PER_GROUP);
    SymbolsAppend(GLOBAL + PER_GROUP, PER_GROUP_CALL);
  }

  /** A proof step, not a property of the router: the two dispatches'
      traces, one after the other, spelled as one literal. */
  lemma BothTraces(first: string, second: string)
    requires first == "" + "1234" + "h" && second == first + "125678" + "h"
    ensures second == "1234h125678h"
  {
  }

  /** A table of two bindings under the same method and different patterns
      finds each of them under its own pattern. */
  lemma FindEachOfTwo(bs: seq<Binding>)
    requires |bs| == 2 && bs[0].verb == bs[1].verb && bs[0].pattern != bs[1].pattern
    ensures Find(bs, bs[0].verb, bs[0].pattern) == Found(bs[0].handler, map[])
    ensures Find(bs, bs[1].verb, bs[1].pattern) == Found(bs[1].handler, map[])
  {
    assert Find(bs, bs[0].verb, bs[0].pattern) == Find(bs[..1], bs[0].verb, bs[0].pattern);
  }

  /** A proof step, not a property of the router: the full patterns of a
      "/" route on the root and on a group `name`, as literals. */
  lemma RootAndGroupPatterns(name: string)
    requires name != ""
    ensures "/" + "" + "/" == "//"
    ensures "/" + name + "/" != "//"
  {
    assert |"/" + name + "/"| > 2;
  }

  /** The registrations of TestRouter_Middleware, for any middleware lists
      and any plain group name: a root route "/" and a group route "/", each
      found in the one shared table under its full pattern. */
  method RegisterRootAndGroup(global: seq<Middleware>, perCall: seq<Middleware>, name: string,
                              perGroup: seq<Middleware>, perGroupCall: seq<Middleware>, h: Handler)
    returns (r: Router, rootPath: string, groupPath: string)
    requires Trimmed(name) && name != ""
    ensures r.ErrorHandler == None
    ensures rootPath == "//" && groupPath == "/" + name + "/"
    ensures r.routes.Lookup("GET", rootPath) == Found(Wrap(global + perCall, h), map[])
    ensures r.routes.Lookup("GET", groupPath) == Found(Wrap(global + perGroup + perGroupCall, h), map[])
  {
    r := RegisterRoot(global, perCall, h);
    var group := RegisterThroughGroup(r, name, perGroup, "GET", "/", h, perGroupCall);
    GroupPrefixOfRoot(name);
    TrimTrimmed(name);
    rootPath := "/" + r.prefix + "/";
    groupPath := "/" + group.prefix + "/";
    RootAndGroupPatterns(name);
    ghost var bs := r.routes.bindings;
    assert bs[0] == Binding("GET", rootPath, Wrap(global + perCall, h));
    assert bs[1] == Binding("GET", groupPath, Wrap(global + perGroup + perGroupCall, h));
    FindEachOfTwo(bs);
  }

  /** NewRouter(global...) with one GET "/" route wrapped in `perCall`. */
  method RegisterRoot(global: seq<Middleware>, perCall: seq<Middleware>, h: Handler) returns (r: Router)
    ensures fresh(r) && fresh(r.routes)
    ensures r.NotFoundHandler == DEFAULT_NOT_FOUND && r.ErrorHandler == None
    ensures r.mw == global && r.prefix == ""
    ensures r.routes.bindings == [Binding("GET", "/" + r.prefix + "/", Wrap(global + perCall, h))]
  {
    r := new Router(global);
    r.Get("/", h, perCall);
  }

  /** Serving a GET request for a path whose route is TRACE_H wrapped in `ms`,
      with no error hook, appends the texts of `ms` and then "h". */
  method ServeTraced(r: Router, x: Exec, path: string, ms: seq<Middleware>) returns (out: Exec)
    requires r.ErrorHandler == None && r.routes.Lookup("GET", path) == Found(Wrap(ms, TRACE_H), map[])
    ensures out.trace == x.trace + Symbols(ms) + "h"
  {
    var bound;
    bound, out := r.ServeHTTP(x, Request("GET", path, []));
    TraceOfWrapped(ms, None, bound, x);
  }

  /** TestRouter_Middleware: global [1,2], per call [3,4], group [5,6] and
      group route [7,8]; dispatching the root route and then the group route
      leaves the trace "1234h125678h". */
  method MiddlewareOrder() returns (trace: string)
    ensures trace == "1234h125678h"
  {
    var r, rootPath, groupPath := RegisterRootAndGroup(GLOBAL, PER_CALL, "mygroup", PER_GROUP, PER_GROUP_CALL, TRACE_H);
    var first := ServeTraced(r, Exec(EMPTY_RESPONSE, "", []), rootPath, GLOBAL + PER_CALL);
    var second := ServeTraced(r, first, groupPath, GLOBAL + PER_GROUP + PER_GROUP_CALL);
    RootTrace();
    GroupTrace();
    BothTraces(first.trace, second.trace);
    trace := second.trace;
  }

  /** TestRouter_NotFoundHandler: with no route registered, a replaced
      NotFoundHandler answers every request. */
  method NotFoundOverride() returns (resp: Response)
    ensures resp.status == Some(404) && resp.body == "not found"
  {
    var r := new Router([]);
    r.NotFoundHandler := Endpoint(Effect("notFound", "", [], Some(404), "not found", None));
    var _, out := r.ServeHTTP(Exec(EMPTY_RESPONSE, "", []), Request("GET", "", []));
    resp := out.resp;
  }

  /** The default NotFoundHandler of a new router: 404, nosniff, no body. */
  method DefaultNotFound() returns (resp: Response, log: seq<Event>)
    ensures resp == Response(Some(404), map["X-Content-Type-Options" := "nosniff"], "")
    ensures log == [Served("default NotFoundHandler", Request("GET", "/missing", []))]
  {
    var r := new Router([]);
    var _, out := r.ServeHTTP(Exec(EMPTY_RESPONSE, "", []), Request("GET", "/missing", []));
    DefaultNotFoundResponds(None, Request("GET", "/missing", []), Exec(EMPTY_RESPONSE, "", []));
    resp, log := out.resp, out.log;
  }

  /** TestRouter_ErrorHandler: a route matched through the matcher's "..."
      subtree pattern returns an error; the configured error hook receives
      exactly that error and writes 500 and its message. */
  method ErrorHookReceivesError() returns (resp: Response, log: seq<Event>)
    ensures resp.status == Some(500) && resp.body == "some error"
    ensures log == [Served("failing", Request("GET", "", [])),
                    ErrorHandled("errorHandler", Request("GET", "", []), "some error")]
  {
    var r := new Router([]);
    r.ErrorHandler := Some(ErrorHook("errorHandler", Some(500), true));
    r.Get("/...", Endpoint(Effect("failing", "", [], None, "", Some("some error"))), []);
    // the matcher's answer for "" against the subtree pattern "//..."
    var m := Found(r.routes.bindings[0].handler, map[]);
    var _, out := r.Dispatch(m, Exec(EMPTY_RESPONSE, "", []), Request("GET", "", []));
    resp, log := out.resp, out.log;
  }

  /** Without an error hook the same error is dropped: nothing is written
      and no hook runs. */
  method ErrorDropped() returns (resp: Response, log: seq<Event>)
    ensures resp == EMPTY_RESPONSE
    ensures log == [Served("failing", Request("GET", "", []))]
  {
    var r := new Router([]);
    r.Get("/...", Endpoint(Effect("failing", "", [], None, "", Some("some error"))), []);
    var m := Found(r.routes.bindings[0].handler, map[]);
    var _, out := r.Dispatch(m, Exec(EMPTY_RESPONSE, "", []), Request("GET", "", []));
    resp, log := out.resp, out.log;
  }

  /** A proof step, not a property of the router: "id" is not one of the
      matched parameter names. */
  lemma UnmatchedName(params: map<string, string>)
    requires params == map["era" := "60s", "group" := "beatles", "member" := "lennon"]
    ensures "id" !in params
  {
    assert |"id"| == 2 && |"era"| == 3 && |"group"| == 5 && |"member"| == 6;
  }

  /** TestRouter, "/path-params/:era/:group/:member": the matcher's three
      parameters are readable through Param from the request the handler
      receives; a name that was not matched reads "". */
  method PathParams() returns (era: string, group: string, member: string, other: string)
    ensures era == "60s" && group == "beatles" && member == "lennon" && other == ""
  {
    var r := new Router([]);
    r.Handle("GET", "/path-params/:era/:group/:member", TRACE_H, []);
    var params := map["era" := "60s", "group" := "beatles", "member" := "lennon"];
    var m := Found(r.routes.bindings[0].handler, params);
    var req := Request("GET", "/path-params/60s/beatles/lennon", []);
    var bound, out := r.Dispatch(m, Exec(EMPTY_RESPONSE, "", []), req);
    assert out.log == [Served("h", bound)];
    ParamAfterBinding(req, params, bound, "era");
    ParamAfterBinding(req, params, bound, "group");
    ParamAfterBinding(req, params, bound, "member");
    ParamAfterBinding(req, params, bound, "id");
    UnmatchedName(params);
    era, group, member, other := Param(bound, "era"), Param(bound, "group"), Param(bound, "member"), Param(bound, "id");
  }

  /** A route registered through a group of `r` is in `r`'s table, under the
      group's prefix and wrapped in `r`'s middleware, the group's and the
      call's, so `r`'s own dispatch finds it. */
  method RegisterThroughGroup(r: Router, name: string, extra: seq<Middleware>,
                              verb: string, pattern: string, h: Handler, perCall: seq<Middleware>)
    returns (g: Router)
    modifies r.routes
    ensures fresh(g) && g.NotFoundHandler == r.NotFoundHandler && g.ErrorHandler == r.ErrorHandler
    ensures g.routes == r.routes && g.prefix == GroupPrefix(r.prefix, name)
    ensures r.routes.bindings == old(r.routes.bindings) + [Binding(verb, "/" + g.prefix + pattern, Wrap(r.mw + extra + perCall, h))]
    ensures r.routes.Lookup(verb, "/" + g.prefix + pattern).Found?
  {
    g := r.Group(name, extra);
    g.Handle(verb, pattern, h, perCall);
    assert Matches(r.routes.bindings[|r.routes.bindings| - 1], verb, "/" + g.prefix + pattern);
  }

  /** Hooks are copied when the group is made: replacing the parent's
      NotFoundHandler afterwards leaves the group's as it was, while both
      still share one table. */
  method HooksCopiedTableShared() returns (groupHook: Handler, rootSeesGroupRoute: bool)
    ensures groupHook == DEFAULT_NOT_FOUND && rootSeesGroupRoute
  {
    var r := new Router([]);
    var g := RegisterThroughGroup(r, "mygroup", [], "GET", "/", TRACE_H, []);
    r.NotFoundHandler := Endpoint(Effect("replaced", "", [], Some(404), "gone", None));
    groupHook := g.NotFoundHandler;
    rootSeesGroupRoute := r.routes.Lookup("GET", "/" + g.prefix + "/").Found?;
  }
}
