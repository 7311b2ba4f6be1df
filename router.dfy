/**
 * Request dispatch (router.go:35, 61-91).
 *
 * A router is the sequence of its routes in declaration order. It is only
 * read while serving. The request is given by its effective method and its
 * URL path; the router's answer is an `Outcome`, and `ServeHTTP` also says
 * what it runs or writes.
 */
module Router {
  import opened Wrappers
  import opened Middleware
  import opened Routes
  import opened Header

  datatype Outcome =
    | Dispatched(index: nat, captures: seq<string>)
    | MethodNotAllowed(allow: seq<string>)
    | NotFound

  /** What `ServeHTTP` does to the response: run a route's handler, or write an error status. */
  datatype Response<M, S, H> = Invoke(run: Handler<M, S, H>) | Reply(status: int, allowHeader: Option<string>)

  const StatusNotFound: int := 404
  const StatusMethodNotAllowed: int := 405

  /** `len(route.regex.FindStringSubmatch(path)) != 0` (router.go:64-65). */
  predicate PathMatches<M, S, H>(r: Route<M, S, H>, path: string)
  {
    |r.regex.find(path)| > 0
  }

  /** The negation of the mismatch test of router.go:76. */
  predicate MethodAccepts<M, S, H>(r: Route<M, S, H>, verb: string)
    ensures r.verb == "*" ==> MethodAccepts(r, verb)
    ensures r.verb != "*" ==> (MethodAccepts(r, verb) <==> verb == r.verb)
  {
    verb == r.verb || r.verb == "*"
  }

  /** A route that serves the request: path and method both match. */
  predicate Serves<M, S, H>(r: Route<M, S, H>, verb: string, path: string)
  {
    PathMatches(r, path) && MethodAccepts(r, verb)
  }

  /** The captures handed to the factory: the submatches without the whole match (router.go:80). */
  function Captures<M, S, H>(r: Route<M, S, H>, path: string): (c: seq<string>)
    requires PathMatches(r, path)
    ensures |c| + 1 == |r.regex.find(path)|
    ensures forall g :: 0 <= g < |c| ==> c[g] == r.regex.find(path)[g + 1]
  {
    r.regex.find(path)[1..]
  }

  /**
   * Reference definition of the `Allow` list: the verbs of the routes whose
   * path matches and whose method does not, in order, duplicates kept.
   */
  function Allowed<M, S, H>(routes: seq<Route<M, S, H>>, verb: string, path: string): (a: seq<string>)
    ensures |a| <= |routes|
  {
    if routes == [] then []
    else
      (if PathMatches(routes[0], path) && !MethodAccepts(routes[0], verb) then [routes[0].verb] else [])
      + Allowed(routes[1..], verb, path)
  }

  /** `k` is the first route, in declaration order, that serves the request. */
  ghost predicate FirstServing<M, S, H>(routes: seq<Route<M, S, H>>, verb: string, path: string, k: int)
  {
    && 0 <= k < |routes|
    && Serves(routes[k], verb, path)
    && forall j :: 0 <= j < k ==> !Serves(routes[j], verb, path)
  }

  /**
   * The scan of router.go:62-90 as a state machine: `Scanning(routes[i..], allow)`
   * steps to the next route, or ends in one of the three outcomes.
   */
  function ScanFrom<M, S, H>(routes: seq<Route<M, S, H>>, verb: string, path: string, i: nat, allow: seq<string>): Outcome
    requires i <= |routes|
    ensures var o := ScanFrom(routes, verb, path, i, allow);
      && (o.Dispatched? ==> i <= o.index < |routes| && Serves(routes[o.index], verb, path)
                            && o.captures == Captures(routes[o.index], path))
      && (o.MethodNotAllowed? ==> o.allow != [] && |allow| <= |o.allow| && o.allow[..|allow|] == allow)
      && (o.NotFound? ==> allow == [])
    decreases |routes| - i
  {
    if i == |routes| then
      if |allow| > 0 then MethodNotAllowed(allow) else NotFound
    else if !PathMatches(routes[i], path) then
      ScanFrom(routes, verb, path, i + 1, allow)
    else if !MethodAccepts(routes[i], verb) then
      ScanFrom(routes, verb, path, i + 1, allow + [routes[i].verb])
    else
      Dispatched(i, Captures(routes[i], path))
  }

  /** The outcome of serving `verb path` with `routes`. */
  function Dispatch<M, S, H>(routes: seq<Route<M, S, H>>, verb: string, path: string): (o: Outcome)
    ensures o.Dispatched? ==> o.index < |routes| && Serves(routes[o.index], verb, path)
                              && o.captures == Captures(routes[o.index], path)
    ensures o.MethodNotAllowed? ==> o.allow != []
  {
    ScanFrom(routes, verb, path, 0, [])
  }

  /** The handler a dispatched route runs: its factory's handler inside its collapsed middleware. */
  function Runs<M, S, H>(r: Route<M, S, H>, captures: seq<string>): (h: Handler<M, S, H>)
    ensures Layers(h) == Reverse(r.mid.reversed)
    ensures Core(h) == r.handler(captures).1
    ensures SharesState(h, r.handler(captures).0)
  {
    var (state, handler) := r.handler(captures);
    Nest(Reverse(r.mid.reversed), state, Base(handler))
  }

  lemma {:induction false} AllowedAppend<M, S, H>(a: seq<Route<M, S, H>>, b: seq<Route<M, S, H>>, verb: string, path: string)
    ensures Allowed(a + b, verb, path) == Allowed(a, verb, path) + Allowed(b, verb, path)
  {
    if a == [] {
      assert a + b == b;
    } else {
      assert (a + b)[0] == a[0];
      assert (a + b)[1..] == a[1..] + b;
      AllowedAppend(a[1..], b, verb, path);
    }
  }

  /** The scan from `i` with accumulated `allow` agrees with the reference definitions. */
  lemma {:induction false} ScanFromCorrect<M, S, H>(routes: seq<Route<M, S, H>>, verb: string, path: string, i: nat, allow: seq<string>)
    requires i <= |routes|
    ensures var o := ScanFrom(routes, verb, path, i, allow);
      && (o.Dispatched? ==>
            && i <= o.index < |routes|
            && Serves(routes[o.index], verb, path)
            && (forall j :: i <= j < o.index ==> !Serves(routes[j], verb, path))
            && o.captures == Captures(routes[o.index], path))
      && (!o.Dispatched? ==> forall j :: i <= j < |routes| ==> !Serves(routes[j], verb, path))
      && (o.MethodNotAllowed? <==> !o.Dispatched? && allow + Allowed(routes[i..], verb, path) != [])
      && (o.MethodNotAllowed? ==> o.allow == allow + Allowed(routes[i..], verb, path))
    decreases |routes| - i
  {
    if i < |routes| {
      assert routes[i..][0] == routes[i];
      assert routes[i..][1..] == routes[i + 1..];
      if !PathMatches(routes[i], path) {
        ScanFromCorrect(routes, verb, path, i + 1, allow);
      } else if !MethodAccepts(routes[i], verb) {
        ScanFromCorrect(routes, verb, path, i + 1, allow + [routes[i].verb]);
      }
    }
  }

  /**
   * Dispatch picks the first serving route and hands it its captures;
   * otherwise it answers 405 exactly when the `Allow` list is non-empty,
   * with that list, and NotFound when it is empty.
   */
  lemma DispatchCorrect<M, S, H>(routes: seq<Route<M, S, H>>, verb: string, path: string)
    ensures var o := Dispatch(routes, verb, path);
      && (o.Dispatched? ==>
            FirstServing(routes, verb, path, o.index) && o.captures == Captures(routes[o.index], path))
      && (!o.Dispatched? <==> forall j :: 0 <= j < |routes| ==> !Serves(routes[j], verb, path))
      && (o.MethodNotAllowed? <==> !o.Dispatched? && Allowed(routes, verb, path) != [])
      && (o.MethodNotAllowed? ==> o.allow == Allowed(routes, verb, path))
      && (o.NotFound? <==> !o.Dispatched? && Allowed(routes, verb, path) == [])
  {
    ScanFromCorrect(routes, verb, path, 0, []);
    assert routes[0..] == routes;
  }

  /** The first serving route is the dispatched one. */
  lemma DispatchFirstServing<M, S, H>(routes: seq<Route<M, S, H>>, verb: string, path: string, k: int)
    requires FirstServing(routes, verb, path, k)
    ensures Dispatch(routes, verb, path) == Dispatched(k, Captures(routes[k], path))
  {
    DispatchCorrect(routes, verb, path);
    var o := Dispatch(routes, verb, path);
    assert o.Dispatched? by {
      assert Serves(routes[k], verb, path);
    }
    assert !(o.index < k) && !(k < o.index);
  }

  /** Neither the wildcard nor the request's own method is ever listed in `Allow`. */
  lemma {:induction false} AllowedExcludes<M, S, H>(routes: seq<Route<M, S, H>>, verb: string, path: string)
    ensures forall i :: 0 <= i < |Allowed(routes, verb, path)| ==>
      Allowed(routes, verb, path)[i] != "*" && Allowed(routes, verb, path)[i] != verb
  {
    if routes != [] {
      AllowedExcludes(routes[1..], verb, path);
    }
  }

  /** The `Allow` list is empty exactly when every path-matching route accepts the method. */
  lemma {:induction false} AllowedEmpty<M, S, H>(routes: seq<Route<M, S, H>>, verb: string, path: string)
    ensures Allowed(routes, verb, path) == [] <==>
      forall j :: 0 <= j < |routes| && PathMatches(routes[j], path) ==> MethodAccepts(routes[j], verb)
  {
    if routes != [] {
      AllowedEmpty(routes[1..], verb, path);
      assert forall j :: 1 <= j < |routes| ==> routes[j] == routes[1..][j - 1];
    }
  }

  /** NotFound is answered exactly when no route's pattern matches the path. */
  lemma NotFoundIff<M, S, H>(routes: seq<Route<M, S, H>>, verb: string, path: string)
    ensures Dispatch(routes, verb, path).NotFound? <==>
      forall j :: 0 <= j < |routes| ==> !PathMatches(routes[j], path)
  {
    DispatchCorrect(routes, verb, path);
    AllowedEmpty(routes, verb, path);
  }

  /** Routes after the dispatched one are never consulted. */
  lemma LaterRoutesIgnored<M, S, H>(routes: seq<Route<M, S, H>>, more: seq<Route<M, S, H>>, verb: string, path: string)
    requires Dispatch(routes, verb, path).Dispatched?
    ensures Dispatch(routes + more, verb, path) == Dispatch(routes, verb, path)
  {
    DispatchCorrect(routes, verb, path);
    var k := Dispatch(routes, verb, path).index;
    assert FirstServing(routes + more, verb, path, k) by {
      assert (routes + more)[k] == routes[k];
      assert forall j :: 0 <= j < k ==> (routes + more)[j] == routes[j];
    }
    DispatchFirstServing(routes + more, verb, path, k);
  }

  /** The outcome once a route is inserted at position `j`, when that route takes no part. */
  function ShiftFrom(o: Outcome, j: nat): Outcome
  {
    if o.Dispatched? && o.index >= j then Dispatched(o.index + 1, o.captures) else o
  }

  function Insert<T>(xs: seq<T>, j: nat, x: T): (r: seq<T>)
    requires j <= |xs|
    ensures |r| == |xs| + 1
    ensures forall i :: 0 <= i < j ==> r[i] == xs[i]
    ensures r[j] == x
    ensures forall i :: j < i < |r| ==> r[i] == xs[i - 1]
  {
    xs[..j] + [x] + xs[j..]
  }

  lemma AllowedInsert<M, S, H>(routes: seq<Route<M, S, H>>, j: nat, r: Route<M, S, H>, verb: string, path: string)
    requires j <= |routes|
    requires !PathMatches(r, path)
    ensures Allowed(Insert(routes, j, r), verb, path) == Allowed(routes, verb, path)
  {
    AllowedAppend(routes[..j] + [r], routes[j..], verb, path);
    AllowedAppend(routes[..j], [r], verb, path);
    AllowedAppend(routes[..j], routes[j..], verb, path);
    assert routes[..j] + routes[j..] == routes;
    assert [r][1..] == [];
  }

  /**
   * A route whose pattern does not match the path is skipped: inserting it
   * anywhere changes neither the `Allow` list nor which route serves.
   */
  lemma NonMatchingSkipped<M, S, H>(routes: seq<Route<M, S, H>>, j: nat, r: Route<M, S, H>, verb: string, path: string)
    requires j <= |routes|
    requires !PathMatches(r, path)
    ensures Dispatch(Insert(routes, j, r), verb, path) == ShiftFrom(Dispatch(routes, verb, path), j)
  {
    var routes' := Insert(routes, j, r);
    AllowedInsert(routes, j, r, verb, path);
    var o := Dispatch(routes, verb, path);
    DispatchCorrect(routes, verb, path);
    if o.Dispatched? {
      var k := if o.index < j then o.index else o.index + 1;
      assert FirstServing(routes', verb, path, k) by {
        forall x | 0 <= x < k ensures !Serves(routes'[x], verb, path) {
          if x > j {
            assert routes'[x] == routes[x - 1];
          }
        }
      }
      DispatchFirstServing(routes', verb, path, k);
    } else {
      DispatchCorrect(routes', verb, path);
      forall x | 0 <= x < |routes'| ensures !Serves(routes'[x], verb, path) {
        if x > j {
          assert routes'[x] == routes[x - 1];
        }
      }
    }
  }

  /**
   * router.go:61-91. Scans the routes in order, skipping those whose pattern
   * does not match, recording the verbs of those that match with another
   * method, and dispatching the first that serves. The ghost results record
   * how many routes' patterns were run and whose factory was called.
   */
  method ServeHTTP<M, S, H>(router: seq<Route<M, S, H>>, verb: string, path: string)
    returns (o: Outcome, response: Response<M, S, H>, ghost examined: nat, ghost factoryCalls: seq<nat>)
    ensures o == Dispatch(router, verb, path)
    ensures o.Dispatched? ==> o.index < |router| && response == Invoke(Runs(router[o.index], o.captures))
    ensures o.MethodNotAllowed? ==> response == Reply(StatusMethodNotAllowed, Some(Join(o.allow)))
    ensures o.NotFound? ==> response == Reply(StatusNotFound, None)
    ensures examined == if o.Dispatched? then o.index + 1 else |router|
    ensures factoryCalls == if o.Dispatched? then [o.index] else []
  {
    var allow: seq<string> := [];
    examined, factoryCalls := 0, [];
    for i := 0 to |router|
      invariant ScanFrom(router, verb, path, i, allow) == Dispatch(router, verb, path)
      invariant allow == Allowed(router[..i], verb, path)
      invariant examined == i && factoryCalls == []
    {
      AllowedAppend(router[..i], [router[i]], verb, path);
      assert router[..i + 1] == router[..i] + [router[i]];
      assert [router[i]][1..] == [];
      examined := examined + 1;
      var matches := router[i].regex.find(path);
      if |matches| == 0 {
        continue;
      }
      if verb != router[i].verb && router[i].verb != "*" {
        allow := allow + [router[i].verb];
        continue;
      }
      var (state, handler) := router[i].handler(matches[1..]);
      factoryCalls := [i];
      var run := Apply(router[i].mid, state, Base(handler));
      o, response := Dispatched(i, matches[1..]), Invoke(run);
      return;
    }
    if |allow| > 0 {
      o, response := MethodNotAllowed(allow), Reply(StatusMethodNotAllowed, Some(Join(allow)));
      return;
    }
    o, response := NotFound, Reply(StatusNotFound, None);
  }
}
