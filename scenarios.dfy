/**
 * Concrete route tables: the repository's test of a GET route with one
 * middleware (router_test.go:18-43) and tables with shared paths.
 */
module Scenarios {
  import opened Wrappers
  import opened Middleware
  import opened Routes
  import opened Header
  import opened Router

  /**
   * One GET "/" route with one middleware, requested with `GET /`: the
   * router runs the middleware around the factory's handler and nothing else.
   */
  method GetRootWithMiddleware<M, S, H>(m: M, factory: Factory<S, H>, compile: string -> Option<Matcher>)
    returns (response: Response<M, S, H>)
    requires compile(Anchored("/")).Some?
    requires |compile(Anchored("/")).value("/")| > 0
    ensures var captures := compile(Anchored("/")).value("/")[1..];
      response == Invoke(Wrap(m, factory(captures).0, Base(factory(captures).1)))
    ensures response.Invoke? && Layers(response.run) == [m] && Core(response.run) == factory(compile(Anchored("/")).value("/")[1..]).1
  {
    var route := Get([m], "/", factory, compile);
    var o;
    ghost var examined, calls;
    o, response, examined, calls := ServeHTTP([route], "GET", "/");
    assert Serves(route, "GET", "/");
    DispatchFirstServing([route], "GET", "/", 0);
    assert Reverse(route.mid.reversed) == [m];
    assert [m][1..] == [];
  }

  /**
   * Two routes for one path under different verbs: each verb reaches its own
   * route, and a third verb is refused with both verbs listed in order.
   */
  lemma SamePathTwoVerbs<M, S, H>(get: Route<M, S, H>, post: Route<M, S, H>, path: string)
    requires get.verb == "GET" && post.verb == "POST"
    requires PathMatches(get, path) && PathMatches(post, path)
    ensures Dispatch([get, post], "GET", path) == Dispatched(0, Captures(get, path))
    ensures Dispatch([get, post], "POST", path) == Dispatched(1, Captures(post, path))
    ensures Dispatch([get, post], "PUT", path) == MethodNotAllowed(["GET", "POST"])
    ensures Join(["GET", "POST"]) == "GET, POST"
  {
    DispatchFirstServing([get, post], "GET", path, 0);
    DispatchFirstServing([get, post], "POST", path, 1);
    var routes := [get, post];
    assert [] + ["GET"] == ["GET"] && ["GET"] + ["POST"] == ["GET", "POST"];
    assert Dispatch(routes, "PUT", path) == ScanFrom(routes, "PUT", path, 1, ["GET"]);
    assert ScanFrom(routes, "PUT", path, 1, ["GET"]) == ScanFrom(routes, "PUT", path, 2, ["GET", "POST"]);
  }

  /**
   * Two GET routes for one path: the earlier one shadows the later, and a
   * POST is refused with GET listed twice, since the list is not deduplicated.
   */
  lemma SamePathSameVerb<M, S, H>(first: Route<M, S, H>, second: Route<M, S, H>, path: string)
    requires first.verb == "GET" && second.verb == "GET"
    requires PathMatches(first, path) && PathMatches(second, path)
    ensures Dispatch([first, second], "GET", path) == Dispatched(0, Captures(first, path))
    ensures Dispatch([first, second], "POST", path) == MethodNotAllowed(["GET", "GET"])
    ensures Join(["GET", "GET"]) == "GET, GET"
  {
    DispatchFirstServing([first, second], "GET", path, 0);
    var routes := [first, second];
    assert [] + ["GET"] == ["GET"] && ["GET"] + ["GET"] == ["GET", "GET"];
    assert Dispatch(routes, "POST", path) == ScanFrom(routes, "POST", path, 1, ["GET"]);
    assert ScanFrom(routes, "POST", path, 1, ["GET"]) == ScanFrom(routes, "POST", path, 2, ["GET", "GET"]);
  }

  /**
   * `GET /items/([0-9]+)`: `GET /items/42` reaches the route with the one
   * capture "42", `GET /items/abc` is not found and `POST /items/42` is refused
   * with `Allow: GET`.
   */
  lemma ItemsRoute<M, S, H>(items: Route<M, S, H>)
    requires items.verb == "GET"
    requires items.regex.find("/items/42") == ["/items/42", "42"]
    requires items.regex.find("/items/abc") == []
    ensures Dispatch([items], "GET", "/items/42") == Dispatched(0, ["42"])
    ensures Dispatch([items], "GET", "/items/abc") == NotFound
    ensures Dispatch([items], "POST", "/items/42") == MethodNotAllowed(["GET"])
    ensures Join(["GET"]) == "GET"
  {
    assert ["/items/42", "42"][1..] == ["42"];
    DispatchFirstServing([items], "GET", "/items/42", 0);
    assert ScanFrom([items], "GET", "/items/abc", 0, []) == ScanFrom([items], "GET", "/items/abc", 1, []);
    assert ScanFrom([items], "POST", "/items/42", 0, []) == ScanFrom([items], "POST", "/items/42", 1, ["GET"]);
  }
}
