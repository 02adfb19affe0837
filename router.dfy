/** The brisk Router: registration with prefix and middleware inheritance,
    groups that share one route table, and dispatch with the not-found and
    error hooks. */
module Brisk {
  import opened Http
  import opened Handlers
  import opened Routes
  import opened Paths

  /** The NotFoundHandler NewRouter installs: sets
      "X-Content-Type-Options: nosniff", writes 404, no body, returns nil. */
  const DEFAULT_NOT_FOUND: Handler :=
    Endpoint(Effect("default NotFoundHandler", "", [("X-Content-Type-Options", "nosniff")], Some(404), "", None))

  /** Param(req, name): the parameter bound under ctxKey(name), or "". */
  function Param(req: Request, name: string): string {
    match Value(req.ctx, ParamKey(name))
    case Some(v) => v
    case None => ""
  }

  /** `bound` is `req` after the binding loop over `params`: one more context
      binding per parameter, each parameter key reads its value, and every
      other key reads what it read before. */
  ghost predicate Bound(req: Request, params: map<string, string>, bound: Request) {
    PartlyBound(req, params, params.Keys, bound)
  }

  /** What ServeHTTP does for the matcher's answer `m`: on a miss the
      not-found handler runs on the request as it came; on a hit the route's
      handler runs on the request with its parameters bound; in both cases
      the error hook follows as Invoke says. */
  ghost predicate Dispatched(nf: Handler, eh: Option<ErrorHook>, m: Match, x: Exec,
                             req: Request, bound: Request, out: Exec)
  {
    match m
    case NotFound => bound == req && out == Invoke(nf, eh, req, x)
    case Found(h, params) => Bound(req, params, bound) && out == Invoke(h, eh, bound, x)
  }

  /** `bound` is `req` after the keys `done` of `params` were bound, in any
      order: the loop invariant of BindParams. */
  ghost predicate PartlyBound(req: Request, params: map<string, string>, done: set<string>, bound: Request) {
    && bound.verb == req.verb && bound.path == req.path
    && |bound.ctx| == |req.ctx| + |done| && bound.ctx[..|req.ctx|] == req.ctx
    && (forall k :: k in done ==> k in params && Value(bound.ctx, ParamKey(k)) == Some(params[k]))
    && (forall key: CtxKey :: !(key.ParamKey? && key.name in done) ==> Value(bound.ctx, key) == Value(req.ctx, key))
  }

  /** One iteration of the binding loop keeps the invariant for one more key. */
  lemma BindOne(req: Request, params: map<string, string>, done: set<string>, bound: Request, k: string)
    requires PartlyBound(req, params, done, bound) && k in params && k !in done
    ensures PartlyBound(req, params, done + {k}, WithValue(bound, ParamKey(k), params[k]))
  {
    var next := WithValue(bound, ParamKey(k), params[k]);
    forall key
      ensures Value(next.ctx, key) == if key == ParamKey(k) then Some(params[k]) else Value(bound.ctx, key)
    {
      ValueWith(bound.ctx, ParamKey(k), params[k], key);
    }
    assert next.ctx[..|req.ctx|] == bound.ctx[..|req.ctx|];
  }

  /** The loop of ServeHTTP that binds each matched parameter into the
      request context, one context.WithValue and req.WithContext per key, in
      whatever order the map is iterated. */
  method BindParams(req: Request, params: map<string, string>) returns (bound: Request)
    ensures Bound(req, params, bound)
  {
    bound := req;
    var pending := params.Keys;
    ghost var done: set<string> := {};
    while pending != {}
      invariant done + pending == params.Keys && done !! pending
      invariant PartlyBound(req, params, done, bound)
      decreases pending
    {
      var k :| k in pending;
      BindOne(req, params, done, bound, k);
      bound := WithValue(bound, ParamKey(k), params[k]);
      pending := pending - {k};
      done := done + {k};
    }
    assert done == params.Keys;
  }

  class Router {
    var NotFoundHandler: Handler
    var ErrorHandler: Option<ErrorHook>
    const mw: seq<Middleware>
    const prefix: string
    const routes: RouteTable

    /** The prefix has no leading or trailing "/". */
    ghost predicate Valid()
      reads this
    {
      Trimmed(prefix)
    }

    /** NewRouter(mw...) */
    constructor (mw: seq<Middleware>)
      ensures Valid()
      ensures NotFoundHandler == DEFAULT_NOT_FOUND && ErrorHandler == None
      ensures this.mw == mw && prefix == ""
      ensures fresh(routes) && routes.bindings == []
    {
      NotFoundHandler := DEFAULT_NOT_FOUND;
      ErrorHandler := None;
      this.mw := mw;
      prefix := "";
      routes := new RouteTable();
    }

    /** The router literal that Group returns. */
    constructor Derived(nf: Handler, eh: Option<ErrorHook>, mw: seq<Middleware>, prefix: string, routes: RouteTable)
      requires Trimmed(prefix)
      ensures Valid()
      ensures NotFoundHandler == nf && ErrorHandler == eh
      ensures this.mw == mw && this.prefix == prefix && this.routes == routes
    {
      NotFoundHandler := nf;
      ErrorHandler := eh;
      this.mw := mw;
      this.prefix := prefix;
      this.routes := routes;
    }

    /** Handle(method, pattern, h, extra...): wraps h in the call's middleware,
        then in the router's, and adds exactly one binding under
        "/" + prefix + pattern to the shared table; the router itself is left
        as it was. */
    method Handle(verb: string, pattern: string, h: Handler, extra: seq<Middleware>)
      modifies routes
      ensures routes.bindings == old(routes.bindings) + [Binding(verb, "/" + prefix + pattern, Wrap(mw + extra, h))]
      ensures unchanged(this)
    {
      var wrapped := Wrap(extra, h);
      wrapped := Wrap(mw, wrapped);
      WrapAppend(mw, extra, h);
      routes.Add(verb, "/" + prefix + pattern, wrapped);
    }

    method Delete(pattern: string, h: Handler, extra: seq<Middleware>)
      modifies routes
      ensures routes.bindings == old(routes.bindings) + [Binding("DELETE", "/" + prefix + pattern, Wrap(mw + extra, h))]
      ensures unchanged(this)
    {
      Handle("DELETE", pattern, h, extra);
    }

    method Get(pattern: string, h: Handler, extra: seq<Middleware>)
      modifies routes
      ensures routes.bindings == old(routes.bindings) + [Binding("GET", "/" + prefix + pattern, Wrap(mw + extra, h))]
      ensures unchanged(this)
    {
      Handle("GET", pattern, h, extra);
    }

    method Patch(pattern: string, h: Handler, extra: seq<Middleware>)
      modifies routes
      ensures routes.bindings == old(routes.bindings) + [Binding("PATCH", "/" + prefix + pattern, Wrap(mw + extra, h))]
      ensures unchanged(this)
    {
      Handle("PATCH", pattern, h, extra);
    }

    method Post(pattern: string, h: Handler, extra: seq<Middleware>)
      modifies routes
      ensures routes.bindings == old(routes.bindings) + [Binding("POST", "/" + prefix + pattern, Wrap(mw + extra, h))]
      ensures unchanged(this)
    {
      Handle("POST", pattern, h, extra);
    }

    method Put(pattern: string, h: Handler, extra: seq<Middleware>)
      modifies routes
      ensures routes.bindings == old(routes.bindings) + [Binding("PUT", "/" + prefix + pattern, Wrap(mw + extra, h))]
      ensures unchanged(this)
    {
      Handle("PUT", pattern, h, extra);
    }

    /** The body of ServeHTTP once the matcher has answered `m`: the decision
        between the not-found path and the route, the loop that binds every
        parameter into the request context (in whatever order the map is
        iterated), and the error hook. */
    method Dispatch(m: Match, x: Exec, req: Request) returns (bound: Request, out: Exec)
      ensures Dispatched(NotFoundHandler, ErrorHandler, m, x, req, bound, out)
    {
      bound := req;
      if m.NotFound? {
        out := Invoke(NotFoundHandler, ErrorHandler, req, x);
        return;
      }
      bound := BindParams(req, m.params);
      out := Invoke(m.handler, ErrorHandler, bound, x);
    }

    /** ServeHTTP(w, req): look the request up in the shared table, then dispatch. */
    method ServeHTTP(x: Exec, req: Request) returns (bound: Request, out: Exec)
      ensures Dispatched(NotFoundHandler, ErrorHandler, routes.Lookup(req.verb, req.path), x, req, bound, out)
    {
      var m := routes.Lookup(req.verb, req.path);
      bound, out := Dispatch(m, x, req);
    }

    /** Group(name, extra...): a new router with the same table, a copy of the
        middleware list with `extra` appended, the trimmed joined prefix and
        the current hooks copied by value. */
    method Group(name: string, extra: seq<Middleware>) returns (g: Router)
      ensures fresh(g) && g.Valid()
      ensures g.routes == routes
      ensures g.mw == mw + extra && g.prefix == GroupPrefix(prefix, name)
      ensures g.NotFoundHandler == NotFoundHandler && g.ErrorHandler == ErrorHandler
    {
      g := new Router.Derived(NotFoundHandler, ErrorHandler, mw + extra, GroupPrefix(prefix, name), routes);
    }
  }

  /** After dispatch, Param reads each matched parameter's value, and any
      other name what it read before. */
  lemma ParamAfterBinding(req: Request, params: map<string, string>, bound: Request, name: string)
    requires Bound(req, params, bound)
    ensures Param(bound, name) == if name in params then params[name] else Param(req, name)
  {
  }

  /** The order in which the parameters are bound does not matter: any two
      bound requests read the same value under every key. */
  lemma BindingOrderIrrelevant(req: Request, params: map<string, string>, b1: Request, b2: Request, key: CtxKey)
    requires Bound(req, params, b1) && Bound(req, params, b2)
    ensures Value(b1.ctx, key) == Value(b2.ctx, key)
  {
  }

  /** Which handlers run in one dispatch: exactly one endpoint (the route's on
      a hit, the not-found handler's on a miss) with the request it was given,
      then the error hook once with exactly the returned error if that error
      is non-nil and the hook is set, and nothing else. */
  lemma DispatchEvents(nf: Handler, eh: Option<ErrorHook>, m: Match, x: Exec,
                       req: Request, bound: Request, out: Exec)
    requires Dispatched(nf, eh, m, x, req, bound, out)
    ensures var h := if m.Found? then m.handler else nf;
            var e := Base(h);
            out.log == x.log + [Served(e.name, bound)]
                       + (if e.err.Some? && eh.Some? then [ErrorHandled(eh.value.name, bound, e.err.value)] else [])
            && out.trace == x.trace + Symbols(Chain(h)) + e.trace
    ensures m.NotFound? ==> bound == req
  {
  }

  /** The default not-found handler on a fresh response: 404, the nosniff
      header, no body, a nil error, so no error hook runs. */
  lemma DefaultNotFoundResponds(eh: Option<ErrorHook>, req: Request, x: Exec)
    requires x.resp.status.None?
    ensures var out := Invoke(DEFAULT_NOT_FOUND, eh, req, x);
            && out.resp.status == Some(404)
            && out.resp.headers == x.resp.headers["X-Content-Type-Options" := "nosniff"]
            && out.resp.body == x.resp.body
            && out.log == x.log + [Served(Base(DEFAULT_NOT_FOUND).name, req)]
            && out.trace == x.trace
  {
  }
}
