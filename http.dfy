/** Plain records standing in for the parts of net/http and context that the
    router touches: a response record, a request carrying its context, and the
    context itself as an association list whose lookup returns the latest
    binding of a key (the observable behaviour of chained context.WithValue). */
module Http {

  datatype Option<+T> = None | Some(value: T)

  /** The message of a non-nil Go error; a nil error is `None`. */
  type Error = string

  /** What a handler has written so far: the status code (None until the
      first WriteHeader), the header map and the body. */
  datatype Response = Response(status: Option<int>, headers: map<string, string>, body: string)

  const EMPTY_RESPONSE: Response := Response(None, map[], "")

  /** w.Header().Set(key, value) */
  function SetHeader(w: Response, key: string, value: string): Response {
    w.(headers := w.headers[key := value])
  }

  /** w.WriteHeader(code): only the first call sets the status. */
  function WriteHeader(w: Response, code: int): Response {
    if w.status.None? then w.(status := Some(code)) else w
  }

  /** w.Write(b): an implicit WriteHeader(200) if nothing was written yet. */
  function Write(w: Response, b: string): Response {
    var v := WriteHeader(w, 200);
    v.(body := v.body + b)
  }

  /** Keys of the request context: the router's own parameter keys (the
      unexported ctxKey type, so they never collide with anybody else's) and
      keys put there by other code. */
  datatype CtxKey = ParamKey(name: string) | ForeignKey(tag: string)

  /** Bindings in the order they were made, oldest first. */
  type Context = seq<(CtxKey, string)>

  /** The request line (`verb` is Go's Request.Method) and the request context. */
  datatype Request = Request(verb: string, path: string, ctx: Context)

  /** req.WithContext(context.WithValue(req.Context(), key, value)) */
  function WithValue(req: Request, key: CtxKey, value: string): Request {
    req.(ctx := req.ctx + [(key, value)])
  }

  /** ctx.Value(key): the value of the most recent binding of `key`. */
  function Value(ctx: Context, key: CtxKey): Option<string>
    decreases |ctx|
  {
    if ctx == [] then None
    else if ctx[|ctx| - 1].0 == key then Some(ctx[|ctx| - 1].1)
    else Value(ctx[..|ctx| - 1], key)
  }

  /** Value finds nothing exactly when no binding has the key, and otherwise
      the value of a binding of the key that no later binding shadows. */
  lemma {:induction false} ValueLatest(ctx: Context, key: CtxKey)
    ensures Value(ctx, key).None? <==> forall i :: 0 <= i < |ctx| ==> ctx[i].0 != key
    ensures Value(ctx, key).Some? ==>
              exists i :: 0 <= i < |ctx| && ctx[i] == (key, Value(ctx, key).value)
                          && forall j :: i < j < |ctx| ==> ctx[j].0 != key
    decreases |ctx|
  {
    if ctx != [] && ctx[|ctx| - 1].0 != key {
      var init := ctx[..|ctx| - 1];
      ValueLatest(init, key);
      assert forall i :: 0 <= i < |init| ==> init[i] == ctx[i];
    }
  }

  /** Binding one more key shadows that key and leaves every other key alone. */
  lemma ValueWith(ctx: Context, key: CtxKey, value: string, k: CtxKey)
    ensures Value(ctx + [(key, value)], k) == if k == key then Some(value) else Value(ctx, k)
  {
    assert (ctx + [(key, value)])[..|ctx|] == ctx;
  }
}
