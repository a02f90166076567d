// The onion: running a chain of middlewares around a built-in behavior.

module Onion {

  /** What a middleware does next: continue into the rest of the chain, or answer. */
  datatype Action<+I, +O> = CallNext(payload: I) | Answer(output: O)

  /**
   * A middleware as data. Given its input and the outputs its calls of `next` returned so far, `act`
   * decides what to do; after `calls(input)` calls it must answer with `finish`. A middleware may call
   * `next` never, once, or repeatedly, with payloads of its choice.
   */
  datatype Layer<!I, !O> = Layer(calls: I -> nat, act: (I, seq<O>) -> Action<I, O>, finish: (I, seq<O>) -> O)

  function RunLayer<I, O>(layer: Layer<I, O>, input: I, seen: seq<O>, next: I -> O): O
    decreases layer.calls(input) - |seen|
  {
    if |seen| >= layer.calls(input) then layer.finish(input, seen)
    else
      match layer.act(input, seen)
      case Answer(output) => output
      case CallNext(payload) => RunLayer(layer, input, seen + [next(payload)], next)
  }

  /** `Next::run`: walks the snapshot by index and ends at the fallback. */
  function Run<I, O>(chain: seq<Layer<I, O>>, index: nat, fallback: I -> O, input: I): O
    decreases |chain| - index
  {
    if index >= |chain| then fallback(input)
    else RunLayer(chain[index], input, [], payload => Run(chain, index + 1, fallback, payload))
  }

  function Wrap<I, O>(layer: Layer<I, O>, inner: I -> O): I -> O
  {
    input => RunLayer(layer, input, [], inner)
  }

  /** The right fold of the chain around the fallback. */
  function Fold<I, O>(chain: seq<Layer<I, O>>, fallback: I -> O): I -> O
  {
    if chain == [] then fallback else Wrap(chain[0], Fold(chain[1..], fallback))
  }

  ghost predicate Same<I(!new), O>(f: I -> O, g: I -> O)
  {
    forall x :: f(x) == g(x)
  }

  /** A middleware only sees what `next` returns. */
  lemma {:induction false} SameNextSameResult<I(!new), O>(layer: Layer<I, O>, input: I, seen: seq<O>,
                                             f: I -> O, g: I -> O)
    requires Same(f, g)
    ensures RunLayer(layer, input, seen, f) == RunLayer(layer, input, seen, g)
    decreases layer.calls(input) - |seen|
  {
    if |seen| < layer.calls(input) && layer.act(input, seen).CallNext? {
      SameNextSameResult(layer, input, seen + [f(layer.act(input, seen).payload)], f, g);
    }
  }

  lemma {:induction false} SameFallbackSameFold<I(!new), O>(chain: seq<Layer<I, O>>, f: I -> O, g: I -> O)
    requires Same(f, g)
    ensures Same(Fold(chain, f), Fold(chain, g))
  {
    if chain != [] {
      SameFallbackSameFold(chain[1..], f, g);
      forall x ensures Fold(chain, f)(x) == Fold(chain, g)(x) {
        SameNextSameResult(chain[0], x, [], Fold(chain[1..], f), Fold(chain[1..], g));
      }
    }
  }

  /** Walking the chain by index is the right fold of what is left of it. */
  lemma {:induction false} RunIsFold<I(!new), O>(chain: seq<Layer<I, O>>, index: nat, fallback: I -> O, input: I)
    requires index <= |chain|
    ensures Run(chain, index, fallback, input) == Fold(chain[index..], fallback)(input)
    decreases |chain| - index
  {
    if index < |chain| {
      var walk := payload => Run(chain, index + 1, fallback, payload);
      var fold := Fold(chain[index + 1..], fallback);
      forall x ensures walk(x) == fold(x) {
        RunIsFold(chain, index + 1, fallback, x);
      }
      SameNextSameResult(chain[index], input, [], walk, fold);
      assert chain[index..][0] == chain[index] && chain[index..][1..] == chain[index + 1..];
    }
  }

  lemma {:induction false} FoldSplits<I(!new), O>(a: seq<Layer<I, O>>, b: seq<Layer<I, O>>, fallback: I -> O)
    ensures Same(Fold(a + b, fallback), Fold(a, Fold(b, fallback)))
  {
    if a == [] {
      assert a + b == b;
    } else {
      assert (a + b)[0] == a[0] && (a + b)[1..] == a[1..] + b;
      FoldSplits(a[1..], b, fallback);
      forall x ensures Fold(a + b, fallback)(x) == Fold(a, Fold(b, fallback))(x) {
        SameNextSameResult(a[0], x, [], Fold(a[1..] + b, fallback), Fold(a[1..], Fold(b, fallback)));
      }
    }
  }

  /** Composition: a chain in two parts is the outer part run around the inner part. */
  lemma RunComposes<I(!new), O>(a: seq<Layer<I, O>>, b: seq<Layer<I, O>>, fallback: I -> O, input: I)
    ensures Run(a + b, 0, fallback, input) == Run(a, 0, payload => Run(b, 0, fallback, payload), input)
  {
    var inner := payload => Run(b, 0, fallback, payload);
    assert (a + b)[0..] == a + b && a[0..] == a && b[0..] == b;
    RunIsFold(a + b, 0, fallback, input);
    RunIsFold(a, 0, inner, input);
    forall x ensures inner(x) == Fold(b, fallback)(x) {
      RunIsFold(b, 0, fallback, x);
    }
    FoldSplits(a, b, fallback);
    SameFallbackSameFold(a, inner, Fold(b, fallback));
  }

  /** The layer answers every input without calling `next`. */
  ghost predicate Vetoes<I(!new), O>(layer: Layer<I, O>)
  {
    forall x :: layer.calls(x) == 0 || layer.act(x, []).Answer?
  }

  lemma VetoIgnoresInside<I(!new), O>(layer: Layer<I, O>, f: I -> O, g: I -> O)
    requires Vetoes(layer)
    ensures Same(Wrap(layer, f), Wrap(layer, g))
  {
  }

  /** A veto hides everything inside it: neither the layers below nor the fallback can change the result. */
  lemma VetoHidesTheRest<I(!new), O>(outer: seq<Layer<I, O>>, layer: Layer<I, O>,
                                       b: seq<Layer<I, O>>, c: seq<Layer<I, O>>,
                                     f: I -> O, g: I -> O, input: I)
    requires Vetoes(layer)
    ensures Run(outer + [layer] + b, 0, f, input) == Run(outer + [layer] + c, 0, g, input)
  {
    var left, right := [layer] + b, [layer] + c;
    assert outer + [layer] + b == outer + left && outer + [layer] + c == outer + right;
    RunIsFold(outer + left, 0, f, input);
    RunIsFold(outer + right, 0, g, input);
    assert (outer + left)[0..] == outer + left && (outer + right)[0..] == outer + right;
    FoldSplits(outer, left, f);
    FoldSplits(outer, right, g);
    assert left[1..] == b && right[1..] == c;
    VetoIgnoresInside(layer, Fold(b, f), Fold(c, g));
    SameFallbackSameFold(outer, Fold(left, f), Fold(right, g));
  }

  // ---- what a middleware passes on and gets back ----

  /**
   * A middleware that calls `next` twice: with `first` of its input, then with `second` of its input and the first
   * output; and joins its input and both outputs. (`idle` only makes the functions total.)
   */
  function Twice<I, O>(first: I -> I, second: (I, O) -> I, join: (I, O, O) -> O, idle: O): Layer<I, O>
  {
    Layer(_ => 2,
          (input: I, seen: seq<O>) => CallNext(if seen == [] then first(input) else second(input, seen[0])),
          (input: I, seen: seq<O>) => if |seen| == 2 then join(input, seen[0], seen[1]) else idle)
  }

  /** Each call gets the payload chosen for it, and the outputs come back in the order of the calls. */
  lemma TwiceSeesBoth<I(!new), O>(first: I -> I, second: (I, O) -> I, join: (I, O, O) -> O, idle: O,
                                  chain: seq<Layer<I, O>>, fallback: I -> O, input: I)
    ensures var one := Run(chain, 0, fallback, first(input));
            var two := Run(chain, 0, fallback, second(input, one));
            Run([Twice(first, second, join, idle)] + chain, 0, fallback, input) == join(input, one, two)
  {
    var layer := Twice(first, second, join, idle);
    var inner := payload => Run(chain, 0, fallback, payload);
    RunComposes([layer], chain, fallback, input);
    RunIsFold([layer], 0, inner, input);
    assert [layer][0..] == [layer] && [layer][1..] == [];
    assert Fold([layer], inner)(input) == RunLayer(layer, input, [], inner);
    var one := inner(first(input));
    var two := inner(second(input, one));
    assert [] + [one] == [one] && [one] + [two] == [one, two];
    assert layer.act(input, []) == CallNext(first(input));
    assert layer.act(input, [one]) == CallNext(second(input, one));
    assert RunLayer(layer, input, [one], inner) == RunLayer(layer, input, [one, two], inner);
  }

  /** A middleware that rewrites its input on the way in and the output on the way out. */
  function Rewriting<I, O>(into: I -> I, out: O -> O, idle: O): Layer<I, O>
  {
    Layer(_ => 1, (input: I, seen: seq<O>) => CallNext(into(input)),
          (input: I, seen: seq<O>) => if |seen| == 1 then out(seen[0]) else idle)
  }

  lemma RewritingRewrites<I(!new), O>(into: I -> I, out: O -> O, idle: O, chain: seq<Layer<I, O>>, fallback: I -> O,
                                      input: I)
    ensures Run([Rewriting(into, out, idle)] + chain, 0, fallback, input) == out(Run(chain, 0, fallback, into(input)))
  {
    var layer := Rewriting(into, out, idle);
    var inner := payload => Run(chain, 0, fallback, payload);
    RunComposes([layer], chain, fallback, input);
    RunIsFold([layer], 0, inner, input);
    assert [layer][0..] == [layer] && [layer][1..] == [];
    assert Fold([layer], inner)(input) == RunLayer(layer, input, [], inner);
    assert RunLayer(layer, input, [], inner) == RunLayer(layer, input, [inner(into(input))], inner);
  }
}
