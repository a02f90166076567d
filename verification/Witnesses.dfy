// Runs that exhibit what the documentation leaves open.

module Witnesses {
  import opened Basics
  import opened Realms
  import opened KernelState
  import opened Disposal
  import opened Teardown
  import opened Start
  import opened Operations
  import opened Runs
  import opened Values

  const ROOT: Ctx := Ctx(ROOT_FIBER, ROOT_REALM)

  lemma NobodyToWake(s: State)
    requires s.pending == []
    ensures Wake(s) == s
  {
  }

  // ---- one operation of a run ----

  lemma OneMore(ops: seq<Op>, n: nat)
    requires n < |ops|
    ensures ops[..n + 1] == ops[..n] + [ops[n]]
  {
  }

  lemma NextOp(ops: seq<Op>, n: nat, s: State, op: Op)
    requires n < |ops| && ops[n] == op && Run(ops[..n], s) && IsFresh(s) && Enabled(s, op)
    ensures Run(ops[..n + 1], Apply(s, op))
  {
    OneMore(ops, n);
    RunGoesOn(ops[..n], s, op);
  }

  /** Providing without replacing anything, with nobody waiting, is binding. */
  lemma BindNext(ops: seq<Op>, n: nat, s: State, ctx: Ctx, k: Key, v: Value)
    requires n < |ops| && ops[n] == OpProvide(ctx, k, v) && Run(ops[..n], s) && IsFresh(s) && Known(s, ctx)
    requires Active(s, ctx.fiber) && s.pending == [] && !Replaces(s, ctx, k, v)
    ensures Run(ops[..n + 1], Bind(s, ctx, k, v))
  {
    NobodyToWake(Bind(s, ctx, k, v));
    NextOp(ops, n, s, ops[n]);
  }

  lemma RunBegins(ops: seq<Op>)
    ensures Run(ops[..0], Init())
  {
  }

  lemma WholeRun(ops: seq<Op>)
    ensures ops[..|ops|] == ops
  {
  }

  // ---- shadowing ----

  /** The root provides service 5, and a plugin that needs it starts in a realm derived from the root realm. */
  const SHADOWING: seq<Op> :=
    [OpProvide(ROOT, 5, 1), OpDerive(ROOT), OpRegister(Ctx(ROOT_FIBER, 1), Plugin([Hard(5)], []))]

  function Bound(): State
  {
    Bind(Init(), ROOT, 5, 1)
  }

  function Derived(): State
    requires IsFresh(Bound())
  {
    Derive(Bound(), ROOT)
  }

  function Nested(): State
    requires IsFresh(Bound())
  {
    Register(Derived(), Ctx(ROOT_FIBER, 1), Plugin([Hard(5)], []))
  }

  lemma NestedRuns()
    ensures IsFresh(Bound()) && IsFresh(Derived()) && IsFresh(Nested())
    ensures RunsOn(Nested(), 1, 5) && Reads(Nested(), 1, 5) == Some(1) && Nested().pending == []
    ensures Nested().registry == {0, 1} && Nested().realms == Derived().realms && Nested().arena[1].realm == 1
    ensures Active(Nested(), ROOT_FIBER)
  {
    var t, plugin := CreateFiber(Derived(), Ctx(ROOT_FIBER, 1)), Plugin([Hard(5)], []);
    assert Lookup(t.realms, 1, 5) == Some(1);
    assert Satisfied(t, 1, 1, plugin, []);
    assert HardKeys(plugin.inject) == [5] by { HardKeysMembers(plugin.inject, 5); }
    assert Nested() == StartFiber(t, Entry(1, plugin));
  }

  lemma ShadowingRun()
    ensures IsFresh(Bound()) && Run(SHADOWING, Nested())
  {
    NestedRuns();
    RunBegins(SHADOWING);
    BindNext(SHADOWING, 0, Init(), ROOT, 5, 1);
    NextOp(SHADOWING, 1, Bound(), OpDerive(ROOT));
    NextOp(SHADOWING, 2, Derived(), OpRegister(Ctx(ROOT_FIBER, 1), Plugin([Hard(5)], [])));
    WholeRun(SHADOWING);
  }

  /**
   * Shadowing from the nested realm: the running fiber stays registered and reads 2 where it started on 1.
   */
  lemma ShadowingChangesTheValue() returns (s: State)
    ensures Run(SHADOWING, s) && RunsOn(s, 1, 5) && Reads(s, 1, 5) == Some(1)
    ensures var op := OpProvide(Ctx(ROOT_FIBER, 1), 5, 2);
            && IsFresh(s) && Enabled(s, op) && 1 in Apply(s, op).registry && 1 in Apply(s, op).arena
            && Reads(Apply(s, op), 1, 5) == Some(2)
  {
    NestedRuns();
    ShadowingRun();
    s := Nested();
    EveryRunKeepsInv(SHADOWING, s);
    var ctx := Ctx(ROOT_FIBER, 1);
    NobodyToWake(Bind(s, ctx, 5, 2));
    ProvideChangesValue(s, ctx, 5, 2, 1, 5);
  }

  // ---- middlewares without an owner ----

  /** A middleware registered through the context of an unregistered fiber outlives the kernel. */
  lemma OrphanStays(s: State, ctx: Ctx, p: Point, prepend: bool)
    requires Core(s) && Known(s, ctx) && ctx.fiber !in s.registry
    ensures var t := DisposeState(AddMiddleware(s, ctx, p, prepend), ROOT_FIBER, Disposed);
            p in t.pipelines && Middleware(ctx.realm, ctx.fiber, s.nextHandler, prepend) in t.pipelines[p]
  {
    MiddlewareKeepsCore(s, ctx, p, prepend);
    OnlyOrphanMiddlewaresRemain(AddMiddleware(s, ctx, p, prepend), p,
                                Middleware(ctx.realm, ctx.fiber, s.nextHandler, prepend));
  }

  const FORKED: Ctx := Ctx(1, ROOT_REALM)

  const ORPHANING: seq<Op> := [OpFork(ROOT), OpDispose(1), OpMiddleware(FORKED, 9, false), OpDispose(ROOT_FIBER)]

  lemma ForkIsGone(s1: State) returns (s: State)
    requires s1 == Fork(Init(), ROOT)
    ensures Run(ORPHANING[..2], s) && Core(s) && Known(s, FORKED) && FORKED.fiber !in s.registry && s.nextHandler == 0
  {
    RunBegins(ORPHANING);
    NextOp(ORPHANING, 0, Init(), OpFork(ROOT));
    NextOp(ORPHANING, 1, s1, OpDispose(1));
    s := DisposeState(s1, 1, Disposed);
    EveryRunKeepsInv(ORPHANING[..2], s);
    DoomedIsClosed(s1, 1);
  }

  lemma RootGoes(s: State)
    requires Run(ORPHANING[..3], s) && Core(s)
    ensures Run(ORPHANING, DisposeState(s, ROOT_FIBER, Disposed))
    ensures DisposeState(s, ROOT_FIBER, Disposed).registry == {}
  {
    NextOp(ORPHANING, 3, s, OpDispose(ROOT_FIBER));
    WholeRun(ORPHANING);
    RootTakesEverything(s);
  }

  /** Fork, dispose the fork, register a middleware through its context, dispose the root: it is still there. */
  lemma OrphanRun() returns (t: State)
    ensures Run(ORPHANING, t) && t.registry == {}
    ensures 9 in t.pipelines && Middleware(ROOT_REALM, 1, 0, false) in t.pipelines[9]
  {
    var s := ForkIsGone(Fork(Init(), ROOT));
    NextOp(ORPHANING, 2, s, OpMiddleware(FORKED, 9, false));
    EveryRunKeepsInv(ORPHANING[..3], AddMiddleware(s, FORKED, 9, false));
    RootGoes(AddMiddleware(s, FORKED, 9, false));
    t := DisposeState(AddMiddleware(s, FORKED, 9, false), ROOT_FIBER, Disposed);
    OrphanStays(s, FORKED, 9, false);
  }

  // ---- one value provided twice ----

  const FIRST: Ctx := Ctx(1, ROOT_REALM)
  const SECOND: Ctx := Ctx(2, ROOT_REALM)

  /** Two forks provide the same value under the same key. */
  const SHARING: seq<Op> :=
    [OpFork(ROOT), OpFork(ROOT), OpProvide(FIRST, 5, 7), OpProvide(SECOND, 5, 7)]

  function TwoForks(): State
  {
    Fork(Fork(Init(), ROOT), ROOT)
  }

  function Shared(): State
  {
    Bind(Bind(TwoForks(), FIRST, 5, 7), SECOND, 5, 7)
  }

  /** Both forks stand, and nothing is bound or queued. */
  lemma TwoForksStand()
    ensures IsFresh(TwoForks()) && Known(TwoForks(), FIRST) && Known(TwoForks(), SECOND)
    ensures Active(TwoForks(), 1) && Active(TwoForks(), 2) && TwoForks().pending == []
    ensures TwoForks().realms[ROOT_REALM].services == map[]
  {
  }

  lemma ForksRun()
    ensures Run(SHARING[..2], TwoForks())
  {
    RunBegins(SHARING);
    NextOp(SHARING, 0, Init(), OpFork(ROOT));
    NextOp(SHARING, 1, Fork(Init(), ROOT), OpFork(ROOT));
  }

  lemma SharingRun()
    ensures Run(SHARING, Shared())
  {
    TwoForksStand();
    ForksRun();
    BindNext(SHARING, 2, TwoForks(), FIRST, 5, 7);
    BindNext(SHARING, 3, Bind(TwoForks(), FIRST, 5, 7), SECOND, 5, 7);
    WholeRun(SHARING);
  }

  lemma OnlyTheFirstFalls()
    ensures Live(Shared(), 1) && Doomed(Shared(), 1) == {1}
  {
    var s := Shared();
    forall b ensures !Edge(s, 1, b) {
    }
    DoomedIsClosed(s, 1);
    DoomedIsLeast(s, 1, {1});
  }

  /**
   * Disposing the first provider takes the service away although the second one, which provided the same value
   * and still holds its cleanup, stays Ready and is otherwise untouched.
   */
  lemma SharedValueIsLost() returns (s: State, t: State)
    ensures Run(SHARING, s) && Core(s) && t == DisposeState(s, 1, Disposed)
    ensures 2 in s.registry && 2 in s.arena && RemoveService(ROOT_REALM, 5, 7) in s.arena[2].disposables
    ensures Lookup(s.realms, ROOT_REALM, 5) == Some(7)
    ensures 2 in t.registry && 2 in t.arena && t.arena[2] == s.arena[2] && t.arena[2].phase.Ready?
    ensures Lookup(t.realms, ROOT_REALM, 5) == None
  {
    s := Shared();
    SharingRun();
    EveryRunKeepsInv(SHARING, s);
    t := DisposeState(s, 1, Disposed);
    OnlyTheFirstFalls();
    SurvivorKeepsRecord(s, 1, Disposed, 2);
    assert RemoveService(ROOT_REALM, 5, 7) in s.arena[1].disposables;
    BindingStaysIff(s, 1, Disposed, ROOT_REALM, 5);
  }
}
