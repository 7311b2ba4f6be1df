/**
 * Middleware chains (router.go:10-26).
 *
 * A middleware takes the per-request state and the next handler and returns
 * a new handler wrapping it. Concrete middlewares are opaque here: a chain is
 * a sequence of labels, and applying a middleware `m` with state `s` to a
 * handler `next` builds the term `Wrap(m, s, next)`.
 */
module Middleware {

  /** The handler a chain builds around the terminal handler `h`. */
  datatype Handler<M, S, H> = Base(h: H) | Wrap(mid: M, state: S, next: Handler<M, S, H>)

  /** The middlewares of a handler, outermost first. */
  function Layers<M, S, H>(h: Handler<M, S, H>): seq<M>
  {
    match h
    case Base(_) => []
    case Wrap(m, _, next) => [m] + Layers(next)
  }

  /** The terminal handler at the centre of a handler. */
  function Core<M, S, H>(h: Handler<M, S, H>): H
  {
    match h
    case Base(t) => t
    case Wrap(_, _, next) => Core(next)
  }

  /** Every layer of `h` was applied with the state `s`. */
  ghost predicate SharesState<M, S, H>(h: Handler<M, S, H>, s: S)
  {
    match h
    case Base(_) => true
    case Wrap(_, s', next) => s' == s && SharesState(next, s)
  }

  function Reverse<T>(xs: seq<T>): (r: seq<T>)
    ensures |r| == |xs|
    ensures forall i :: 0 <= i < |xs| ==> r[i] == xs[|xs| - 1 - i]
  {
    if xs == [] then [] else Reverse(xs[1..]) + [xs[0]]
  }

  /** Stated on its own so that the loop of `Apply` can cite it; `Reverse`'s contract proves it. */
  lemma ReverseSnoc<T>(xs: seq<T>, x: T)
    ensures Reverse(xs + [x]) == [x] + Reverse(xs)
  {
  }

  /**
   * The meaning of a chain in declaration order: `chain[0]` is the outermost
   * wrapper, so it is the first to run, and `h` is innermost.
   */
  function Nest<M, S, H>(chain: seq<M>, s: S, h: Handler<M, S, H>): (r: Handler<M, S, H>)
    ensures Layers(r) == chain + Layers(h)
    ensures Core(r) == Core(h)
    ensures SharesState(h, s) ==> SharesState(r, s)
  {
    if chain == [] then h
    else
      var inner := Nest(chain[1..], s, h);
      assert chain + Layers(h) == [chain[0]] + (chain[1..] + Layers(h));
      Wrap(chain[0], s, inner)
  }

  /** Collapsing a concatenation is collapsing the front around the collapsed back. */
  lemma {:induction false} NestAppend<M, S, H>(a: seq<M>, b: seq<M>, s: S, h: Handler<M, S, H>)
    ensures Nest(a + b, s, h) == Nest(a, s, Nest(b, s, h))
  {
    if a != [] {
      assert (a + b)[0] == a[0];
      assert (a + b)[1..] == a[1..] + b;
      NestAppend(a[1..], b, s, h);
    } else {
      assert a + b == b;
    }
  }

  /** A handler is determined by its layers, its core and its shared state. */
  lemma {:induction false} NestUnique<M, S, H>(chain: seq<M>, s: S, t: H, h: Handler<M, S, H>)
    requires Layers(h) == chain && Core(h) == t && SharesState(h, s)
    ensures h == Nest(chain, s, Base(t))
  {
    match h
    case Base(_) =>
    case Wrap(m, _, next) =>
      assert chain == [m] + Layers(next);
      assert chain[1..] == Layers(next);
      NestUnique(chain[1..], s, t, next);
  }

  /**
   * The value of `middlewares.Collapse()`: the closure it returns captures the
   * chain copied in reverse order.
   */
  datatype Collapsed<M> = Collapsed(reversed: seq<M>)

  /** router.go:15-19: copy the chain back to front; the chain itself is a value and is left as it was. */
  method Collapse<M>(mid: seq<M>) returns (c: Collapsed<M>)
    ensures |c.reversed| == |mid|
    ensures forall i :: 0 <= i < |mid| ==> c.reversed[i] == mid[|mid| - 1 - i]
    ensures Reverse(c.reversed) == mid
  {
    var reversed: seq<M> := [];
    var i := |mid| - 1;
    while i >= 0
      invariant -1 <= i < |mid|
      invariant |reversed| == |mid| - 1 - i
      invariant forall k :: 0 <= k < |reversed| ==> reversed[k] == mid[|mid| - 1 - k]
    {
      reversed := reversed + [mid[i]];
      i := i - 1;
    }
    c := Collapsed(reversed);
    assert Reverse(c.reversed) == mid by {
      forall k | 0 <= k < |mid| ensures Reverse(c.reversed)[k] == mid[k] {
        assert Reverse(c.reversed)[k] == reversed[|mid| - 1 - k];
      }
    }
  }

  /**
   * router.go:20-25: calling the collapsed middleware with state `s` and
   * handler `next` wraps `next` once per captured middleware, in the captured
   * (reversed) order, so the last wrapper applied is the first declared one.
   */
  method Apply<M, S, H>(c: Collapsed<M>, s: S, next: Handler<M, S, H>) returns (r: Handler<M, S, H>)
    ensures r == Nest(Reverse(c.reversed), s, next)
    ensures Layers(r) == Reverse(c.reversed) + Layers(next)
    ensures c.reversed == [] ==> r == next
  {
    r := next;
    for i := 0 to |c.reversed|
      invariant r == Nest(Reverse(c.reversed[..i]), s, next)
    {
      assert c.reversed[..i + 1] == c.reversed[..i] + [c.reversed[i]];
      ReverseSnoc(c.reversed[..i], c.reversed[i]);
      assert ([c.reversed[i]] + Reverse(c.reversed[..i]))[1..] == Reverse(c.reversed[..i]);
      r := Wrap(c.reversed[i], s, r);
    }
    assert c.reversed[..|c.reversed|] == c.reversed;
  }

  /**
   * What a route runs: collapse `mid` and call the result with `s` and the
   * terminal handler `h`. The first declared middleware is outermost.
   */
  method CollapseAndApply<M, S, H>(mid: seq<M>, s: S, h: H) returns (r: Handler<M, S, H>)
    ensures r == Nest(mid, s, Base(h))
    ensures Layers(r) == mid && Core(r) == h && SharesState(r, s)
    ensures |mid| > 0 ==> r.Wrap? && r.mid == mid[0]
  {
    var c := Collapse(mid);
    r := Apply(c, s, Base(h));
  }
}
