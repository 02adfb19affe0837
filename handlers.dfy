/** Handlers, middleware and their composition.

    A handler is data: an endpoint (what the terminal handler does) wrapped in
    zero or more middleware. Running a handler threads an execution record
    through it: the response written so far, the trace the trace-appending
    middleware of the tests build, and a log of which endpoints and error
    hooks ran, with the request each of them received. */
module Handlers {
  import opened Http

  /** A middleware that appends `text` to the trace and then calls the next
      handler, as the middleware of router_test.go do. */
  datatype Middleware = Tracer(text: string)

  /** What a terminal handler does when called: append `trace`, set the
      headers in order, write the status (if any) and the body (if not empty),
      and return `err`. */
  datatype Effect = Effect(
    name: string,
    trace: string,
    headers: seq<(string, string)>,
    status: Option<int>,
    body: string,
    err: Option<Error>)

  datatype Handler = Endpoint(effect: Effect) | Wrapped(mw: Middleware, next: Handler)

  /** A replaceable Router.ErrorHandler: writes `status` (if any) and, when
      `echo` holds, the error's message as the body. */
  datatype ErrorHook = ErrorHook(name: string, status: Option<int>, echo: bool)

  datatype Event =
    | Served(endpoint: string, req: Request)
    | ErrorHandled(hook: string, req: Request, err: Error)

  datatype Exec = Exec(resp: Response, trace: string, log: seq<Event>)

  /** A middleware applied to a handler: the wrapped handler. */
  function Apply(m: Middleware, next: Handler): Handler {
    Wrapped(m, next)
  }

  /** The composition of a middleware list around a handler: element 0 is
      the outermost wrapper, i.e. Wrap([m1, .., mn], h) == m1(..(mn(h))..). */
  function Wrap(ms: seq<Middleware>, h: Handler): Handler
    decreases |ms|
  {
    if ms == [] then h else Apply(ms[0], Wrap(ms[1..], h))
  }

  /** The middleware a handler is wrapped in, outermost first. */
  function Chain(h: Handler): seq<Middleware> {
    match h
    case Endpoint(_) => []
    case Wrapped(m, next) => [m] + Chain(next)
  }

  /** The endpoint at the core of a handler. */
  function Base(h: Handler): Effect {
    match h
    case Endpoint(e) => e
    case Wrapped(_, next) => Base(next)
  }

  /** The trace a middleware list appends, in order. */
  function Symbols(ms: seq<Middleware>): string
    decreases |ms|
  {
    if ms == [] then "" else ms[0].text + Symbols(ms[1..])
  }

  function SetHeaders(w: Response, hs: seq<(string, string)>): Response
    decreases |hs|
  {
    if hs == [] then w else SetHeaders(SetHeader(w, hs[0].0, hs[0].1), hs[1..])
  }

  /** The response after an endpoint wrote on `w`. */
  function Respond(e: Effect, w: Response): Response {
    var v := SetHeaders(w, e.headers);
    var v := if e.status.Some? then WriteHeader(v, e.status.value) else v;
    if e.body != "" then Write(v, e.body) else v
  }

  /** Calling an endpoint once with `req`. */
  function Perform(e: Effect, req: Request, x: Exec): (Exec, Option<Error>) {
    (Exec(Respond(e, x.resp), x.trace + e.trace, x.log + [Served(e.name, req)]), e.err)
  }

  /** Calling a handler: every middleware in its chain appends its text,
      outermost first, and then its endpoint runs exactly once. */
  function Run(h: Handler, req: Request, x: Exec): (r: (Exec, Option<Error>))
    ensures r == Perform(Base(h), req, x.(trace := x.trace + Symbols(Chain(h))))
    decreases h
  {
    match h
    case Endpoint(e) =>
      assert x.(trace := x.trace + Symbols(Chain(h))) == x;
      Perform(e, req, x)
    case Wrapped(m, next) =>
      assert ([m] + Chain(next))[0] == m && ([m] + Chain(next))[1..] == Chain(next);
      assert Symbols(Chain(h)) == m.text + Symbols(Chain(next));
      assert x.trace + Symbols(Chain(h)) == (x.trace + m.text) + Symbols(Chain(next));
      Run(next, req, x.(trace := x.trace + m.text))
  }

  /** The error hook's call r.ErrorHandler(w, req, err). */
  function HandleError(eh: ErrorHook, req: Request, err: Error, x: Exec): Exec {
    var w := if eh.status.Some? then WriteHeader(x.resp, eh.status.value) else x.resp;
    var w := if eh.echo then Write(w, err) else w;
    x.(resp := w, log := x.log + [ErrorHandled(eh.name, req, err)])
  }

  /** `if err := h(w, req); err != nil && r.ErrorHandler != nil { r.ErrorHandler(w, req, err) }`:
      the handler runs once; the hook, if set, runs once more on exactly the
      returned error; a nil error, or an unset hook, adds nothing. */
  function Invoke(h: Handler, eh: Option<ErrorHook>, req: Request, x: Exec): (r: Exec)
    ensures r.trace == x.trace + Symbols(Chain(h)) + Base(h).trace
    ensures r.log == x.log + [Served(Base(h).name, req)]
                     + (if Base(h).err.Some? && eh.Some?
                        then [ErrorHandled(eh.value.name, req, Base(h).err.value)] else [])
    ensures Base(h).err.None? || eh.None? ==> r.resp == Respond(Base(h), x.resp)
  {
    var (y, err) := Run(h, req, x);
    if err.Some? && eh.Some? then HandleError(eh.value, req, err.value, y) else y
  }

  lemma {:induction false} SymbolsAppend(a: seq<Middleware>, b: seq<Middleware>)
    ensures Symbols(a + b) == Symbols(a) + Symbols(b)
    decreases |a|
  {
    if a != [] {
      assert (a + b)[0] == a[0] && (a + b)[1..] == a[1..] + b;
      SymbolsAppend(a[1..], b);
      calc {
        Symbols(a + b);
        a[0].text + Symbols(a[1..] + b);
        a[0].text + (Symbols(a[1..]) + Symbols(b));
        (a[0].text + Symbols(a[1..])) + Symbols(b);
      }
    } else {
      assert a + b == b;
    }
  }

  /** Wrapping puts the list in front of the handler's own chain and keeps its
      endpoint. */
  lemma {:induction false} WrapShape(ms: seq<Middleware>, h: Handler)
    ensures Chain(Wrap(ms, h)) == ms + Chain(h)
    ensures Base(Wrap(ms, h)) == Base(h)
    decreases |ms|
  {
    if ms != [] {
      WrapShape(ms[1..], h);
      assert ms == [ms[0]] + ms[1..];
    }
  }

  /** Wrapping with `a` a handler already wrapped with `b` is wrapping once
      with `a + b`: `a` stays outside `b`. */
  lemma {:induction false} WrapAppend(a: seq<Middleware>, b: seq<Middleware>, h: Handler)
    ensures Wrap(a, Wrap(b, h)) == Wrap(a + b, h)
    decreases |a|
  {
    if a != [] {
      WrapAppend(a[1..], b, h);
      assert (a + b)[0] == a[0] && (a + b)[1..] == a[1..] + b;
      calc {
        Wrap(a, Wrap(b, h));
        Apply(a[0], Wrap(a[1..], Wrap(b, h)));
        Apply(a[0], Wrap(a[1..] + b, h));
        Wrap(a + b, h);
      }
    } else {
      assert a + b == b;
    }
  }

  /** Running a wrapped handler: the list's texts are appended in list order
      before the inner handler runs. */
  lemma RunWrap(ms: seq<Middleware>, h: Handler, req: Request, x: Exec)
    ensures Run(Wrap(ms, h), req, x) == Run(h, req, x.(trace := x.trace + Symbols(ms)))
  {
    var w := Wrap(ms, h);
    var y := x.(trace := x.trace + Symbols(ms));
    WrapShape(ms, h);
    SymbolsAppend(ms, Chain(h));
    assert x.trace + Symbols(Chain(w)) == y.trace + Symbols(Chain(h));
    calc {
      Run(w, req, x);
      Perform(Base(w), req, x.(trace := x.trace + Symbols(Chain(w))));
      Perform(Base(h), req, y.(trace := y.trace + Symbols(Chain(h))));
      Run(h, req, y);
    }
  }
}
