/**
 * Routes and their constructors (router.go:28-59).
 *
 * The regular-expression engine is a library outside this model. A compiled
 * expression is represented by its source text and its `FindStringSubmatch`
 * function: the empty sequence when the path does not match, otherwise the
 * whole match followed by the capture groups.
 */
module Routes {
  import opened Wrappers
  import opened Middleware

  /** `(*regexp.Regexp).FindStringSubmatch`, as an opaque function of the path. */
  type Matcher = string -> seq<string>

  datatype Regexp = Regexp(expr: string, find: Matcher)

  /** A handler factory turns the captures into the per-request state and the terminal handler. */
  type Factory<S, H> = seq<string> -> (S, H)

  datatype Route<M, S, H> = Route(verb: string, regex: Regexp, handler: Factory<S, H>, mid: Collapsed<M>)

  /**
   * The expression compiled for `pattern`: the pattern wrapped in `^`...`$`.
   * This anchors the whole path only when the pattern has no top-level `|`.
   */
  function Anchored(pattern: string): (e: string)
    ensures |e| == |pattern| + 2
    ensures e[0] == '^' && e[|e| - 1] == '$' && e[1..|e| - 1] == pattern
  {
    "^" + pattern + "$"
  }

  /**
   * `r` is the route that `newRoute(verb, pattern, handler, mid)` builds when
   * `compile` is `regexp.MustCompile`'s compiler.
   */
  ghost predicate Built<M, S, H>(r: Route<M, S, H>, verb: string, pattern: string, handler: Factory<S, H>,
                                 mid: seq<M>, compile: string -> Option<Matcher>)
  {
    && r.verb == verb
    && r.regex.expr == Anchored(pattern)
    && compile(Anchored(pattern)) == Some(r.regex.find)
    && r.handler == handler
    && Reverse(r.mid.reversed) == mid
  }

  /**
   * router.go:57-59. A pattern that does not compile makes `MustCompile`
   * panic at table-construction time; here that is the precondition.
   */
  method NewRoute<M, S, H>(verb: string, pattern: string, handler: Factory<S, H>, mid: seq<M>,
                           compile: string -> Option<Matcher>) returns (r: Route<M, S, H>)
    requires compile(Anchored(pattern)).Some?
    ensures Built(r, verb, pattern, handler, mid, compile)
  {
    var collapsed := Collapse(mid);
    r := Route(verb, Regexp(Anchored(pattern), compile(Anchored(pattern)).value), handler, collapsed);
  }

  /** router.go:41-43 */
  method Post<M, S, H>(m: seq<M>, pattern: string, handler: Factory<S, H>,
                       compile: string -> Option<Matcher>) returns (r: Route<M, S, H>)
    requires compile(Anchored(pattern)).Some?
    ensures Built(r, "POST", pattern, handler, m, compile)
  {
    r := NewRoute("POST", pattern, handler, m, compile);
  }

  /** router.go:44-46 */
  method Get<M, S, H>(m: seq<M>, pattern: string, handler: Factory<S, H>,
                      compile: string -> Option<Matcher>) returns (r: Route<M, S, H>)
    requires compile(Anchored(pattern)).Some?
    ensures Built(r, "GET", pattern, handler, m, compile)
  {
    r := NewRoute("GET", pattern, handler, m, compile);
  }

  /** router.go:47-49 */
  method Put<M, S, H>(m: seq<M>, pattern: string, handler: Factory<S, H>,
                      compile: string -> Option<Matcher>) returns (r: Route<M, S, H>)
    requires compile(Anchored(pattern)).Some?
    ensures Built(r, "PUT", pattern, handler, m, compile)
  {
    r := NewRoute("PUT", pattern, handler, m, compile);
  }

  /** router.go:50-52 */
  method Del<M, S, H>(m: seq<M>, pattern: string, handler: Factory<S, H>,
                      compile: string -> Option<Matcher>) returns (r: Route<M, S, H>)
    requires compile(Anchored(pattern)).Some?
    ensures Built(r, "DELETE", pattern, handler, m, compile)
  {
    r := NewRoute("DELETE", pattern, handler, m, compile);
  }

  /** router.go:53-55: the wildcard method accepts every request method. */
  method All<M, S, H>(m: seq<M>, pattern: string, handler: Factory<S, H>,
                      compile: string -> Option<Matcher>) returns (r: Route<M, S, H>)
    requires compile(Anchored(pattern)).Some?
    ensures Built(r, "*", pattern, handler, m, compile)
  {
    r := NewRoute("*", pattern, handler, m, compile);
  }
}
