// A whole dispatch: the onion over the chain of a slice.

module Dispatch {
  import opened Basics
  import opened KernelState
  import opened Pipeline
  import Operations
  import opened Onion

  /** The behaviours behind a chain of registrations. */
  function Layers<I, O>(chain: seq<Middleware>, handlers: Middleware -> Layer<I, O>): (layers: seq<Layer<I, O>>)
    ensures |layers| == |chain| && forall i :: 0 <= i < |chain| ==> layers[i] == handlers(chain[i])
  {
    seq(|chain|, i requires 0 <= i < |chain| => handlers(chain[i]))
  }

  /** Runs the registrations `ms` of the slice around the built-in behaviour. */
  function Dispatched<I, O>(slice: seq<RealmId>, ms: seq<Middleware>, handlers: Middleware -> Layer<I, O>,
                            fallback: I -> O, input: I): O
  {
    Run(Layers(DequeChain(slice, ms), handlers), 0, fallback, input)
  }

  lemma {:induction false} DequeChainSplits(a: seq<RealmId>, b: seq<RealmId>, ms: seq<Middleware>)
    ensures DequeChain(a + b, ms) == DequeChain(a, ms) + DequeChain(b, ms)
  {
    if b == [] {
      assert a + b == a;
    } else {
      var last := |b| - 1;
      assert (a + b)[..|a + b| - 1] == a + b[..last] && (a + b)[|a + b| - 1] == b[last];
      DequeChainSplits(a, b[..last], ms);
      Associate(DequeChain(a, ms), DequeChain(b[..last], ms), Deque(ms, b[last]));
    }
  }

  /** The chain of some realms depends on the registrations of these realms only. */
  lemma {:induction false} ChainOfRealms(a: seq<RealmId>, ms: seq<Middleware>, ms': seq<Middleware>)
    requires forall r :: r in a ==> Deque(ms, r) == Deque(ms', r)
    ensures DequeChain(a, ms) == DequeChain(a, ms')
  {
    if a != [] {
      assert a[|a| - 1] in a;
      ChainOfRealms(a[..|a| - 1], ms, ms');
    }
  }

  lemma LayersSplit<I, O>(a: seq<Middleware>, b: seq<Middleware>, handlers: Middleware -> Layer<I, O>)
    ensures Layers(a + b, handlers) == Layers(a, handlers) + Layers(b, handlers)
  {
  }

  /** Outer realms wrap inner ones: a dispatch is the outer part run around the dispatch over the inner part. */
  lemma OuterRealmsWrap<I(!new), O>(a: seq<RealmId>, b: seq<RealmId>, ms: seq<Middleware>,
                                    handlers: Middleware -> Layer<I, O>, fallback: I -> O, input: I)
    ensures Dispatched(a + b, ms, handlers, fallback, input)
         == Dispatched(a, ms, handlers, payload => Dispatched(b, ms, handlers, fallback, payload), input)
  {
    var outer, inner := Layers(DequeChain(a, ms), handlers), Layers(DequeChain(b, ms), handlers);
    DequeChainSplits(a, b, ms);
    LayersSplit(DequeChain(a, ms), DequeChain(b, ms), handlers);
    RunComposes(outer, inner, fallback, input);
    var left := payload => Run(inner, 0, fallback, payload);
    var right := payload => Dispatched(b, ms, handlers, fallback, payload);
    assert Same(left, right);
    RunIsFold(outer, 0, left, input);
    RunIsFold(outer, 0, right, input);
    SameFallbackSameFold(outer[0..], left, right);
  }

  /**
   * A veto in an outer realm hides every inner realm: whatever is registered there, and whatever the built-in
   * behaviour is, the result is the same.
   */
  lemma VetoHidesInnerRealms<I(!new), O>(a: seq<RealmId>, b: seq<RealmId>, c: seq<RealmId>, ms: seq<Middleware>,
                                         ms': seq<Middleware>, handlers: Middleware -> Layer<I, O>, m: Middleware,
                                         f: I -> O, g: I -> O, input: I)
    requires m in DequeChain(a, ms) && Vetoes(handlers(m))
    requires forall r :: r in a ==> Deque(ms, r) == Deque(ms', r)
    ensures Dispatched(a + b, ms, handlers, f, input) == Dispatched(a + c, ms', handlers, g, input)
  {
    ChainOfRealms(a, ms, ms');
    DequeChainSplits(a, b, ms);
    DequeChainSplits(a, c, ms');
    VetoInside(DequeChain(a, ms), m, DequeChain(b, ms), DequeChain(c, ms'), handlers, f, g, input);
  }

  lemma VetoInside<I(!new), O>(chain: seq<Middleware>, m: Middleware, b: seq<Middleware>, c: seq<Middleware>,
                               handlers: Middleware -> Layer<I, O>, f: I -> O, g: I -> O, input: I)
    requires m in chain && Vetoes(handlers(m))
    ensures Run(Layers(chain + b, handlers), 0, f, input) == Run(Layers(chain + c, handlers), 0, g, input)
  {
    var i :| 0 <= i < |chain| && chain[i] == m;
    var outer, rest := chain[..i], chain[i + 1..];
    VetoInChain(outer, m, rest + b, rest + c, handlers, f, g, input);
    assert chain + b == outer + [m] + (rest + b) && chain + c == outer + [m] + (rest + c);
  }

  lemma VetoInChain<I(!new), O>(outer: seq<Middleware>, m: Middleware, b: seq<Middleware>, c: seq<Middleware>,
                                handlers: Middleware -> Layer<I, O>, f: I -> O, g: I -> O, input: I)
    requires Vetoes(handlers(m))
    ensures Run(Layers(outer + [m] + b, handlers), 0, f, input) == Run(Layers(outer + [m] + c, handlers), 0, g, input)
  {
    LayersSplit(outer + [m], b, handlers);
    LayersSplit(outer + [m], c, handlers);
    LayersSplit(outer, [m], handlers);
    assert Layers([m], handlers) == [handlers(m)];
    VetoHidesTheRest(Layers(outer, handlers), handlers(m), Layers(b, handlers), Layers(c, handlers), f, g, input);
  }

  // ---- where a new registration goes ----

  /**
   * A new middleware is the first of its realm if it was prepended and the last of it otherwise; the other realms
   * and the other extension points keep their chains.
   */
  lemma NewcomerPlace(s: State, ctx: Ctx, p: Point, prepend: bool, r: RealmId)
    ensures var t, m := Operations.AddMiddleware(s, ctx, p, prepend),
                        Middleware(ctx.realm, ctx.fiber, s.nextHandler, prepend);
            && Deque(Operations.Middlewares(t, p), r)
               == (if r != ctx.realm then Deque(Operations.Middlewares(s, p), r)
                   else if prepend then [m] + Deque(Operations.Middlewares(s, p), r)
                   else Deque(Operations.Middlewares(s, p), r) + [m])
            && forall q :: q != p ==> Operations.Middlewares(t, q) == Operations.Middlewares(s, q)
  {
    var t, m := Operations.AddMiddleware(s, ctx, p, prepend), Middleware(ctx.realm, ctx.fiber, s.nextHandler, prepend);
    assert Operations.Middlewares(t, p) == Operations.Middlewares(s, p) + [m];
    assert (Operations.Middlewares(s, p) + [m])[..|Operations.Middlewares(s, p)|] == Operations.Middlewares(s, p);
  }
}
