# brisk router, modelled in Dafny

The model covers the dispatch and composition core of the `brisk` HTTP router (`router.go`):

- `NewRouter` builds a router with a default not-found handler and no error handler.
- `Handle` and its per-method shorthands register a handler. The handler is wrapped first in the call's own middleware, then in the router's middleware. It is stored under `"/" + prefix + pattern` in the route table.
- `Group` makes a sub-router. It shares the route table with its parent, gets a copy of the parent's middleware list with its own appended, and gets a prefix equal to `strings.Trim(parent + "/" + name, "/")`. The two hooks are copied when the group is made.
- `ServeHTTP` asks the matcher for a handler and its parameters.
  - On a miss it runs the not-found handler.
  - On a hit it binds every parameter into the request context, in whatever order the map yields them, and then runs the handler.
  - In both cases a returned non-nil error is passed to the error handler, if one is set.

The six files mirror that structure:

| file | module | models |
|---|---|---|
| http.dfy | `Http` | The response record, the request and its context. The context is an association list whose lookup returns the latest binding. |
| paths.dfy | `Paths` | `strings.Trim(_, "/")` and the group prefix. |
| handlers.dfy | `Handlers` | Handlers as data: an endpoint wrapped in a list of middleware. Composition (`Wrap`), running a handler, and the error-hook call. |
| routes.dfy | `Routes` | The shared route table, as a class holding the bindings in registration order, with an exact-key lookup. |
| router.dfy | `Brisk` | The `Router` class with `NewRouter`, `Handle`, `Delete`/`Get`/`Patch`/`Post`/`Put`, `Group`, `ServeHTTP` and its parameter-binding loop. |
| scenarios.dfy | `Scenarios` | The behaviours `router_test.go` checks, written as clients of the class. |

How the model represents things:

- A handler runs on an execution record (`Exec`) holding three things:
  - the response written so far;
  - a trace string, which the trace-appending middleware of the tests extend;
  - a log of `Served` and `ErrorHandled` events, each with the request that handler received.
- Several dispatch properties are therefore stated directly: one endpoint runs, the hook runs at most once with exactly the returned error, and the bound request reaches the handler.
- `Dispatch` takes the matcher's answer as a parameter and is proved for every possible answer. The parameter-binding properties therefore do not depend on the matcher.
- `ServeHTTP` feeds `Dispatch` with the table's own lookup.

Three consequences of the code as written:

- Only the two ends of the joined prefix are trimmed, so an inner doubled separator survives: `GroupPrefix("api", "/v1") == "api//v1"` (`Paths.GroupPrefixKeepsInnerSlashes`).
- A route registered as `"/"` on the root router is stored under `"//"`, because `"/" + "" + "/"` is `"//"`. Matching `"/"` to it is the matcher's business.
- The doc comments of all five per-method shorthands name `Post`. Each shorthand uses its own method constant, and `Delete` registers `"DELETE"`.

## Model

| member | source | states |
|---|---|---|
| Http.ValueLatest | router.go:98-101 | The stand-in for the context read that `Param` performs (`Param` is defined outside `router.go`) on the context this loop builds: the lookup returns `None` exactly when no binding has the key. Otherwise it returns the value of a binding with that key that no later binding shadows. |
| Http.ValueWith | router.go:99-100 | One more `context.WithValue` binding makes its key read the new value and leaves every other key's value unchanged. |
| Paths.TrimLeftShape | router.go:118 | `strings.TrimLeft(_, "/")` returns a suffix of the input. Only slashes were dropped, and the result does not start with a slash. |
| Paths.TrimRightShape | router.go:118 | `strings.TrimRight(_, "/")` returns a prefix of the input. Only slashes were dropped, and the result does not end with a slash. |
| Paths.Trim | router.go:118 | `strings.Trim(_, "/")` yields a string with no leading and no trailing slash, the prefix invariant stated at router.go:23. |
| Paths.GroupPrefix | router.go:118 | A group's prefix satisfies the same no-leading/no-trailing-slash invariant. |
| Paths.TrimIsSlice | router.go:118 | Trim returns a contiguous slice of its input with only slashes on either side. |
| Paths.TrimUnique | router.go:118 | Conversely, any slice with slash-only margins and no slash at either end is exactly what Trim returns. Together with `TrimIsSlice` this characterises Trim completely. |
| Paths.TrimTrimmed | router.go:118 | A prefix already in the normal form of router.go:23 is left unchanged by Trim. |
| Paths.TrimIdempotent | router.go:118 | Trimming twice is trimming once. |
| Paths.GroupPrefixJoin | router.go:118 | Below a non-empty prefix, a plain name is joined with exactly one slash: `parent + "/" + name`. |
| Paths.GroupPrefixOfRoot | router.go:118 | A group of a router with an empty prefix gets the trimmed name as its prefix. |
| Paths.GroupPrefixMygroup | router_test.go:98 | The group "mygroup" of a new router has prefix "mygroup". |
| Paths.GroupPrefixKeepsInnerSlashes | router.go:118 | Only the ends are trimmed: parent "api" and name "/v1" give "api//v1". |
| Handlers.Run | router.go:103 | Calling a handler: the texts of every middleware in its chain are appended outermost first, then its endpoint runs exactly once on the given request and returns its error. |
| Handlers.Invoke | router.go:103-105 | The handler runs once. The error hook runs once more, on exactly the returned error and the same request, precisely when the error is non-nil and a hook is set. Otherwise the response is the endpoint's. |
| Handlers.SymbolsAppend | router.go:42-44 | The trace of a concatenated middleware list is the concatenation of the traces, in list order. |
| Handlers.WrapShape | router.go:57-59 | Wrapping puts the list, in order, in front of the handler's own chain and keeps its endpoint. |
| Handlers.WrapAppend | router.go:58-59 | Wrapping in the call's middleware and then in the router's equals one wrapping in router middleware followed by call middleware. |
| Handlers.RunWrap | router.go:42-44 | Running a wrapped handler appends the list's texts in list order before the inner handler runs. |
| Routes.Find | router.go:90 | The stand-in lookup reports a miss exactly when no binding has the request's method and path. A hit returns the handler of such a binding and no parameters. |
| Routes.RouteTable.constructor | router.go:38 | A new table holds no bindings. |
| Routes.RouteTable.Add | router.go:60 | Registration appends exactly one binding and changes nothing else. |
| Brisk.BindOne | router.go:99-100 | One iteration of the binding loop binds one more key. That key reads its value, and all other keys are unaffected. |
| Brisk.BindParams | router.go:98-101 | Whatever the map's iteration order, the loop adds one context binding per parameter and keeps the original context as a prefix. Every parameter reads its value, and every other key reads what it read before. |
| Brisk.Router.constructor | router.go:30-40 | `NewRouter(mw...)` gives: the default not-found handler (nosniff header, 404, nil error), no error handler, the given middleware, an empty prefix and a fresh empty table. |
| Brisk.Router.Derived | router.go:113-119 | The router literal built by `Group` has exactly the given hooks, middleware, prefix and table, and satisfies the prefix invariant. |
| Brisk.Router.Handle | router.go:57-61 | Exactly one binding is added to the shared table. It is stored under `"/" + prefix + pattern`, with the handler wrapped in router middleware then call middleware, outermost first. The router's own fields are unchanged. |
| Brisk.Router.Delete | router.go:63-66 | `Handle` with method "DELETE". |
| Brisk.Router.Get | router.go:68-71 | `Handle` with method "GET". |
| Brisk.Router.Patch | router.go:73-76 | `Handle` with method "PATCH". |
| Brisk.Router.Post | router.go:78-81 | `Handle` with method "POST". |
| Brisk.Router.Put | router.go:83-86 | `Handle` with method "PUT". |
| Brisk.Router.Dispatch | router.go:91-105 | For any matcher answer: on a miss, the not-found handler runs on the request as it came. On a hit, the route's handler runs on the request with all parameters bound. The error hook follows as in `Invoke`. |
| Brisk.Router.ServeHTTP | router.go:89-106 | `Dispatch` of the answer the shared table gives for the request's method and path. |
| Brisk.Router.Group | router.go:112-120 | A fresh router on the same table, with a copy of the middleware list with `extra` appended and the trimmed joined prefix. The current hooks are copied by value. |
| Brisk.ParamAfterBinding | router.go:98-101 | After dispatch, `Param` reads each matched parameter's value, and any other name reads what it read before. |
| Brisk.BindingOrderIrrelevant | router.go:98 | Two binding orders of the same parameters give contexts that agree on every key. |
| Brisk.DispatchEvents | router.go:91-105 | One dispatch runs exactly one endpoint (the route's on a hit, the not-found handler's on a miss) with the request it was given. The hook follows once when the error is non-nil and a hook is set, and nothing else runs. On a miss the request is unchanged. |
| Brisk.DefaultNotFoundResponds | router.go:32-36 | On a fresh response, the default not-found handler sets the nosniff header, writes 404 and no body, and returns nil, so no hook runs. |
| Scenarios.TraceOfWrapped | router_test.go:83-94 | Dispatching `h` wrapped in a list of trace middleware appends the list's texts and then "h". |
| Scenarios.SymbolsOfPair | router_test.go:83-90 | Two trace middleware append their texts in order. |
| Scenarios.RootTrace | router_test.go:96-97 | The root route's middleware, [1,2] and then [3,4], trace "1234". |
| Scenarios.GroupTrace | router_test.go:96-99 | The group route's middleware, [1,2], then [5,6], then [7,8], trace "125678". |
| Scenarios.ServeTraced | router_test.go:101-105 | Serving a GET request whose route is `h` wrapped in a list of trace middleware, with no error hook, appends the list's texts and then "h". |
| Scenarios.RegisterRoot | router_test.go:96-97 | `NewRouter(1, 2)` followed by `Get("/", h, 3, 4)` gives one binding under "//", wrapped in [1,2] then [3,4]. The router keeps the default hooks and an empty prefix. |
| Scenarios.RegisterRootAndGroup | router_test.go:96-99 | For any middleware lists and any plain group name, both registrations land in the one table. The root route sits under "//" and the group route under "/" + name + "/", each with its full middleware chain. |
| Scenarios.MiddlewareOrder | router_test.go:81-111 | Dispatching the root route and then the group route gives the trace "1234h125678h". |
| Scenarios.NotFoundOverride | router_test.go:113-135 | With a replaced not-found handler and no routes, a request gets 404 and "not found". |
| Scenarios.DefaultNotFound | router.go:32-36 | A new router answers an unknown path with 404, the nosniff header and no body. Only the not-found handler runs. |
| Scenarios.ErrorHookReceivesError | router_test.go:137-160 | The error a route's handler returns reaches the error hook, which writes 500 and "some error". |
| Scenarios.ErrorDropped | router.go:103-105 | Without an error hook, the same error is dropped: nothing is written and no hook runs. |
| Scenarios.PathParams | router_test.go:41-46 | The three parameters of "/path-params/:era/:group/:member" read back as "60s", "beatles" and "lennon", and an unmatched name reads "". |
| Scenarios.RegisterThroughGroup | router.go:112-120 | A route registered through a group is in the parent's table under the group's prefix. It is wrapped in the parent's middleware, then the group's, then the call's, and the parent's lookup finds it. The group's hooks equal the parent's. |
| Scenarios.HooksCopiedTableShared | router.go:114-117 | Replacing the parent's not-found handler after `Group` leaves the group's handler as it was, while the parent still sees the group's routes. |

## Left out

- The path matcher (`sage.RoutesTrie`): its pattern language is not part of this model. That covers ":name" segments, "..." subtrees, most-specific matching, extracting parameters and the handling of "//". `Routes.Find` is an exact-key stand-in. `Dispatch` is proved for any matcher answer, and the scenarios that rely on patterns hand the matcher's answer to `Dispatch` directly.
- Routes.Find: when a method and pattern are registered twice it returns the most recent binding. No claim is made that this is what the matcher does, and the table itself keeps every binding.
- `Param`, `ctxKey`, `Middleware` and `wrapMiddleware` are defined outside `router.go` and are not part of this model. The model uses a context lookup keyed by a private key type, and middleware composition with element 0 outermost, as the doc comments of `Handle` and `Group` describe.
- Middleware are limited to ones that append to a trace and then call the next handler, which is what the tests use. Middleware that short-circuit, rewrite the request or wrap the writer are not modelled.
- Handlers are limited to endpoints that set headers, write a status and a body, and return an error. Arbitrary handler code, panics, and a nil `NotFoundHandler` (which panics in Go) are left out.
- `http.ResponseWriter` is a plain record. The first `WriteHeader` wins, and `Write` implies 200. Header canonicalisation, flushing and the implicit final 200 of `net/http` are left out.
- Concurrent `ServeHTTP` calls, and registration racing with dispatch, are left out. The model is sequential.
- Go slice aliasing from `append` is left out. Middleware lists are values, so the copy `Group` makes is implicit.
- Scenarios.MiddlewareOrder: dispatches the paths the table stores ("//" and "/mygroup/"), not "/". Mapping "/" to the "//" pattern is the matcher's job.
