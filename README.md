# Lever router: a Dafny model

This project models the request router of Lever (`router.go`). It is a small
HTTP router. A route binds an HTTP method, a regular expression wrapped in `^`...`$`, a
handler factory and a collapsed middleware chain. A router is the sequence of
its routes. To serve a request, the router scans the routes in declaration
order:

- it skips a route whose expression does not match the path;
- it records the method of a route whose path matches under a different method
  (and that is not `*`), then goes on;
- it dispatches the first route whose path and method match both.

If no route dispatches, it answers 405 with an `Allow` header when it recorded
any method, and 404 otherwise.

Modules: the first four mirror the parts of `router.go`; `Scenarios` and `Wrappers` support them.

- `Middleware` (`middleware.dfy`): middlewares are opaque labels. The handler a
  chain builds is the term `Base(h) | Wrap(m, s, next)`. `Collapse` is the
  reverse-copy loop, proved to produce the reversal `Reverse` of the chain.
  `Apply` is the fold loop of the closure that `Collapse` returns. It and
  `CollapseAndApply` are proved against `Nest`, where the first declared
  middleware is the outermost.
- `Routes` (`routes.dfy`): the `route` record, `newRoute` and the five
  convenience constructors.
- `Header` (`header.dfy`): `strings.Join(allow, ", ")` for the `Allow` header,
  with a splitter that recovers the list from the header.
- `Router` (`router.dfy`): the outcome datatype, the pure scan `ScanFrom` and
  `Dispatch`, reference definitions (`Allowed`, `FirstServing`) with the lemmas
  connecting them, and `ServeHTTP` as a loop proved equal to `Dispatch`.
- `Scenarios` (`scenarios.dfy`): the repository's test, plus route tables that
  share a path.
- `Wrappers` (`wrappers.dfy`): `Option`.

Modelling choices:

- The regular-expression library is not modelled. A compiled expression is its
  source text plus an opaque `FindStringSubmatch` function. That function
  returns the empty sequence for no match, and otherwise the whole match
  followed by the groups. So the model keeps the code's own tests:
  `len(matches) == 0` for no match, and `matches[1:]` for the captures.
- Compilation is the parameter `compile: string -> Option<Matcher>`.
  `regexp.MustCompile` panics on an invalid pattern. Here that becomes the
  precondition of `NewRoute` that `compile("^" + pattern + "$")` succeeds.
- The request is given by its effective method and its URL path.
  The `_method` form override (router.go:69-75) only runs after a path has
  matched. After it runs, the field is gone, so the method stays fixed for the
  rest of the scan. Taking the overridden method as the input is therefore
  equivalent.
- `ServeHTTP` returns the `Outcome` and the `Response` it takes effect with.
  The response is either the handler term it runs, or the status and `Allow`
  header it writes. Two ghost results record how many routes' expressions
  were run and which factories were called.
- `Allow` keeps every mismatching method in scan order, duplicates included
  (router.go:76-78); `Scenarios.SamePathSameVerb` shows `Allow: GET, GET`.
- A middleware is `func(*state, http.HandlerFunc) http.HandlerFunc`
  (router.go:10); it wraps the next handler.

## Model

| member | source | states |
|---|---|---|
| `Middleware.Reverse` | router.go:16-19 | the reversed copy has the chain's length and element `i` is element `len-1-i` of the chain |
| `Middleware.Nest` | router.go:20-25 | the declared-order meaning of a chain: the result's layers, outermost first, are the chain followed by the inner handler's layers; the innermost handler is unchanged and every layer gets the same state |
| `Middleware.NestAppend` | router.go:15-26 | collapsing `a ++ b` around `h` is collapsing `a` around the collapse of `b` around `h` |
| `Middleware.NestUnique` | router.go:20-25 | a handler term is determined by its layers, its innermost handler and its state, so the contract of `Nest` pins its result down |
| `Middleware.Collapse` | router.go:15-19 | the loop copies the chain back to front: same length, `reversed[i] == mid[len-1-i]`, and reversing it again gives the chain; the chain is a value and is not changed |
| `Middleware.Apply` | router.go:20-25 | folding `next = mid(s, next)` over the reversed copy gives the declared-order nesting; with no middleware it returns `next` unchanged |
| `Middleware.CollapseAndApply` | router.go:15-26 | collapsing and then calling with `(s, h)` gives `m0(s, m1(s, ... h))`: the layers are the chain in declaration order and the first declared is outermost |
| `Routes.Anchored` | router.go:58 | the compiled expression is the pattern wrapped in `^`...`$`: it starts with `^`, ends with `$`, and the pattern is what lies between |
| `Routes.NewRoute` | router.go:57-59 | the route stores the method, the anchored expression with its compiled matcher, the factory unchanged, and a collapsed middleware whose reversal is the given chain |
| `Routes.Post` | router.go:41-43 | builds the route `newRoute` builds with method `POST` |
| `Routes.Get` | router.go:44-46 | builds the route `newRoute` builds with method `GET` |
| `Routes.Put` | router.go:47-49 | builds the route `newRoute` builds with method `PUT` |
| `Routes.Del` | router.go:50-52 | builds the route `newRoute` builds with method `DELETE` |
| `Routes.All` | router.go:53-55 | builds the route `newRoute` builds with method `*` |
| `Header.JoinShape` | router.go:85 | the header `strings.Join(allow, ", ")` (`Header.Join`) of a non-empty list starts with the first method and ends with the last, and with two or more methods `", "` follows the first |
| `Header.JoinSnoc` | router.go:85 | appending a method to a non-empty list appends `", "` and the method to the header |
| `Header.SplitJoin` | router.go:85 | splitting the header at `", "` gives back the non-empty list when no method contains a comma |
| `Router.PathMatches` | router.go:64-65 | a route's path matches when `FindStringSubmatch` returns a non-empty list (no contract: a predicate on the opaque matcher) |
| `Router.MethodAccepts` | router.go:76 | a `*` route accepts every method; any other route accepts exactly its own method |
| `Router.Captures` | router.go:80 | the factory gets `matches[1:]`: one fewer element than the submatch list, element `g` being submatch `g + 1` |
| `Router.Allowed` | router.go:76-78 | reference definition of `allow`: the methods of the path-matching, method-mismatching routes in order, duplicates kept; at most one entry per route |
| `Router.ScanFrom` | router.go:62-90 | the scan from route `i` with accumulated `allow`: a dispatch is to a serving route at or after `i` with its captures; a 405 carries a non-empty list that extends `allow`; NotFound only when nothing was accumulated |
| `Router.Dispatch` | router.go:61-91 | the scan from the first route with an empty `allow`: a dispatch is to a serving route of the table with its captures, and a 405 lists at least one method |
| `Router.Runs` | router.go:80-81 | the handler a dispatched route runs has the route's chain as layers, the factory's handler as its core, and the factory's state in every layer |
| `Router.ScanFromCorrect` | router.go:62-90 | from any point of the scan: a dispatch picks the first serving route at or after it, with the submatches minus the whole match; otherwise no later route serves, and the answer is 405 exactly when the accumulated list plus the later mismatching methods is non-empty, carrying that list |
| `Router.DispatchCorrect` | router.go:61-91 | dispatch goes to the first route, in declaration order, that matches path and method, with its captures; there is no dispatch iff no route serves; 405 iff no dispatch and `Allowed` is non-empty, with `Allow` equal to `Allowed`; NotFound iff no dispatch and `Allowed` is empty |
| `Router.DispatchFirstServing` | router.go:76-82 | the first serving route is the one dispatched, with its captures |
| `Router.AllowedExcludes` | router.go:76-78 | `Allow` never lists `*` nor the request's own method |
| `Router.AllowedEmpty` | router.go:76-78 | `Allow` is empty iff every path-matching route accepts the method |
| `Router.NotFoundIff` | router.go:84-90 | the answer is NotFound iff no route's expression matches the path |
| `Router.LaterRoutesIgnored` | router.go:80-82 | once a table dispatches, appending routes to it changes nothing |
| `Router.AllowedInsert` | router.go:64-67 | inserting a route whose expression does not match the path leaves `Allow` unchanged |
| `Router.NonMatchingSkipped` | router.go:64-67 | inserting anywhere a route whose expression does not match the path changes the outcome only by shifting the dispatched index |
| `Router.ServeHTTP` | router.go:61-91 | the scan loop's outcome equals `Dispatch`; a dispatch runs the route's collapsed middleware around its factory's handler; with no dispatch the reply is 405 with `Allow: join(allow, ", ")` or 404; exactly the routes up to the dispatched one are examined, and at most one factory, the dispatched route's, is called |
| `Scenarios.GetRootWithMiddleware` | router_test.go:18-43 | one GET `/` route with one middleware, requested with `GET /`, runs that middleware around the factory's handler |
| `Scenarios.SamePathTwoVerbs` | router.go:76-88 | two routes on one path under GET and POST: each method reaches its own route, and PUT gets 405 with `Allow: GET, POST` |
| `Scenarios.SamePathSameVerb` | router.go:76-85 | two GET routes on one path: the first shadows the second, and POST gets 405 with `Allow: GET, GET` (no deduplication) |
| `Scenarios.ItemsRoute` | router.go:61-90 | `GET /items/([0-9]+)`: `GET /items/42` dispatches with captures `["42"]`, `GET /items/abc` is NotFound, `POST /items/42` gets 405 with `Allow: GET` |

## Left out

- Routes.Anchored: wrapping the pattern in `^`...`$` anchors the whole path only when the pattern has no top-level alternation (`/a|/b` compiles to `^/a|/b$`, which also matches `/a/x`); the opaque matcher does not capture this, and the contract states only the shape of the expression.
- Regular-expression compilation and matching (`regexp.MustCompile`, `FindStringSubmatch`) are an external library. They are opaque functions here, and an invalid pattern is a precondition of `NewRoute` rather than a panic.
- The `_method` form override (router.go:69-75) depends on form parsing and mutates the request. The effective method is an input instead.
- Response writing and logging (`http.Error` and its body text, `http.NotFound`, `w.Header().Set`, `fmt.Println`) are not modelled. The model returns the status and the `Allow` value instead.
- The package variable `NotFound` can be reassigned in Go. The model always answers 404.
- What concrete middlewares and handlers do is not modelled, including a middleware that short-circuits by never calling `next`. They are opaque labels and values, so the model stops at the handler term that would run.
- `abort` (router.go:37-39) is a factory that no route in the core uses. It is not modelled.
- `strings.Join` is Go's standard library. `Header.Join` states its result for the separator `", "`.
- The generic `Middlewares[T]` API that router_test.go uses is not part of this model. That test is modelled with the `router.go` API.
- Concurrent serving is not modelled. The route table is read only, and each request is one call.
