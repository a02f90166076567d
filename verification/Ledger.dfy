// What a fiber holds is what it was given, in the order it was given; and it is undone in the reverse order.

module Ledger {
  import opened Basics
  import opened KernelState
  import opened Disposal
  import opened Teardown
  import opened Trace
  import opened Start
  import opened Operations
  import opened Runs
  import opened Closure
  import opened Readiness
  import opened History

  /** The cleanups an operation gives to the fiber. */
  function GivenCleanups(s: State, op: Op, f: FiberId): seq<Effect>
  {
    match op
    case OpProvide(ctx, k, v) => if ctx.fiber == f then [RemoveService(ctx.realm, k, v)] else []
    case OpEffect(g, token) => if g == f then [Cleanup(token)] else []
    case OpMiddleware(ctx, p, _) => if ctx.fiber == f then [RemoveMiddleware(p, s.nextHandler)] else []
    case _ => []
  }

  /** The services an operation has the fiber provide. */
  function GivenServices(op: Op, f: FiberId): seq<Provided>
  {
    match op
    case OpProvide(ctx, k, _) => if ctx.fiber == f then [Provided(k, ctx.realm)] else []
    case _ => []
  }

  /** If the fiber is registered in `t`, it holds there what it held in `s`, then `es` and `ps`. */
  ghost predicate Holds(s: State, t: State, f: FiberId, es: seq<Effect>, ps: seq<Provided>)
  {
    f in s.arena && f in t.registry ==>
      && f in t.arena
      && t.arena[f].disposables == s.arena[f].disposables + es && t.arena[f].provided == s.arena[f].provided + ps
  }

  lemma HoldsOnward(s: State, t: State, u: State, f: FiberId, es: seq<Effect>, ps: seq<Provided>)
    requires Holds(s, t, f, es, ps) && Holds(t, u, f, [], []) && (f in u.registry ==> f in t.registry)
    ensures Holds(s, u, f, es, ps)
  {
  }

  lemma HoldsSame(s: State, f: FiberId)
    requires s.registry <= s.arena.Keys
    ensures Holds(s, s, f, [], [])
  {
  }

  lemma TornHolds(s: State, dead: set<FiberId>, root: FiberId, final: Phase, f: FiberId)
    ensures Holds(s, Torn(s, dead, root, final), f, [], [])
    ensures f in Torn(s, dead, root, final).registry ==> f in s.registry
  {
    var t := Torn(s, dead, root, final);
    if f in s.arena && f in t.registry { assert t.arena[f] == s.arena[f]; }
  }

  lemma DisposalHolds(s: State, g: FiberId, final: Phase, f: FiberId)
    requires s.registry <= s.arena.Keys
    ensures Holds(s, DisposeState(s, g, final), f, [], [])
  {
    HoldsSame(s, f);
    if Live(s, g) { TornHolds(s, Doomed(s, g), g, final, f); }
  }

  lemma WakeHolds(s: State, f: FiberId)
    requires Core(s)
    ensures Holds(s, Wake(s), f, [], []) && Wake(s).registry == s.registry
  {
    WakeIsPass(s);
    PassRecords(s, Woken(s), Wake(s));
    if f in s.arena { assert SameButPhase(s.arena[f], Wake(s).arena[f]); }
  }

  lemma ProvideHolds(s: State, ctx: Ctx, k: Key, v: Value, f: FiberId)
    requires Core(s) && Known(s, ctx)
    ensures Holds(s, Provide(s, ctx, k, v), f, GivenCleanups(s, OpProvide(ctx, k, v), f),
                  GivenServices(OpProvide(ctx, k, v), f))
  {
    if Active(s, ctx.fiber) {
      var t := Bind(s, ctx, k, v);
      var dead := DoomedAll(t, Dependents(t, ctx.realm, k, ctx.fiber));
      var u := if Replaces(s, ctx, k, v) then Gone(t, dead) else t;
      BoundHolds(s, ctx, k, v, f);
      BoundIsCore(s, ctx, k, v);
      if Replaces(s, ctx, k, v) {
        TornHolds(t, dead, ROOT_FIBER, Disposed, f);
        HoldsOnward(s, t, u, f, GivenCleanups(s, OpProvide(ctx, k, v), f), GivenServices(OpProvide(ctx, k, v), f));
      }
      WakeHolds(u, f);
      HoldsOnward(s, u, Wake(u), f, GivenCleanups(s, OpProvide(ctx, k, v), f), GivenServices(OpProvide(ctx, k, v), f));
    } else {
      InactiveIsUnregistered(s, ctx.fiber);
    }
  }

  lemma BoundHolds(s: State, ctx: Ctx, k: Key, v: Value, f: FiberId)
    requires Known(s, ctx)
    ensures Holds(s, Bind(s, ctx, k, v), f, GivenCleanups(s, OpProvide(ctx, k, v), f),
                  GivenServices(OpProvide(ctx, k, v), f))
  {
  }

  /** Between two operations a registered fiber is active. */
  lemma InactiveIsUnregistered(s: State, f: FiberId)
    requires IdsOk(s) && Quiescent(s) && !Active(s, f)
    ensures f !in s.registry
  {
  }

  lemma {:induction false} EnqueueAllHolds(s: State, ctx: Ctx, plugins: seq<Plugin>, f: FiberId)
    requires Core(s) && Known(s, ctx)
    ensures Holds(s, EnqueueAll(s, ctx, plugins), f, [], [])
  {
    if plugins == [] {
      HoldsSame(s, f);
    } else {
      var before := EnqueueAll(s, ctx, plugins[..|plugins| - 1]);
      EnqueueAllHolds(s, ctx, plugins[..|plugins| - 1], f);
      EnqueueAllKeeps(s, ctx, plugins[..|plugins| - 1]);
      EnqueueAllTracks(s, ctx, plugins[..|plugins| - 1], f);
      EnqueueHolds(before, ctx, plugins[|plugins| - 1], f);
      HoldsIfKnown(s, before, EnqueueAll(s, ctx, plugins), f);
    }
  }

  lemma HoldsIfKnown(s: State, t: State, u: State, f: FiberId)
    requires Holds(s, t, f, [], []) && GoesOn(s, t, f) && Holds(t, u, f, [], [])
    requires f in t.arena && f in u.registry ==> f in t.registry
    ensures Holds(s, u, f, [], [])
  {
  }

  lemma EnqueueHolds(s: State, ctx: Ctx, plugin: Plugin, f: FiberId)
    requires IdsOk(s)
    ensures Holds(s, Enqueue(s, ctx, plugin), f, [], [])
    ensures f in s.arena && f in Enqueue(s, ctx, plugin).registry ==> f in s.registry
  {
  }

  lemma BatchHolds(s: State, ctx: Ctx, plugins: seq<Plugin>, f: FiberId)
    requires Core(s) && Known(s, ctx)
    ensures Holds(s, RegisterBatch(s, ctx, plugins), f, [], [])
  {
    EnqueueAllHolds(s, ctx, plugins, f);
    EnqueueAllKeeps(s, ctx, plugins);
    WakeHolds(EnqueueAll(s, ctx, plugins), f);
    HoldsOnward(s, EnqueueAll(s, ctx, plugins), RegisterBatch(s, ctx, plugins), f, [], []);
  }

  lemma RegisterHolds(s: State, ctx: Ctx, plugin: Plugin, f: FiberId)
    requires IdsOk(s)
    ensures Holds(s, Register(s, ctx, plugin), f, [], [])
  {
  }

  lemma SetupDoneHolds(s: State, g: FiberId, f: FiberId)
    requires Core(s) && IsStarting(s, g)
    ensures Holds(s, SetupDone(s, g), f, [], [])
  {
    var t := if s.arena[g].disposalStarted then s else s.(arena := s.arena[g := s.arena[g].(phase := Ready)]);
    ReadyIsCore(s, g, t);
    WakeHolds(t, f);
    ReadyHolds(s, g, t, f);
    HoldsOnward(s, t, Wake(t), f, [], []);
  }

  lemma ReadyHolds(s: State, g: FiberId, t: State, f: FiberId)
    requires IsStarting(s, g) && s.registry <= s.arena.Keys
    requires t == if s.arena[g].disposalStarted then s else s.(arena := s.arena[g := s.arena[g].(phase := Ready)])
    ensures Holds(s, t, f, [], [])
  {
  }

  lemma EffectHolds(s: State, g: FiberId, e: Effect, f: FiberId)
    requires s.registry <= s.arena.Keys
    ensures Holds(s, AddEffect(s, g, e), f, if g == f then [e] else [], [])
  {
  }

  /** The ledger: an operation adds exactly what it gives, at the end, for every fiber that outlives it. */
  lemma OpHolds(s: State, op: Op, f: FiberId)
    requires Core(s) && Enabled(s, op)
    ensures Holds(s, Apply(s, op), f, GivenCleanups(s, op, f), GivenServices(op, f))
  {
    match op
    case OpProvide(ctx, k, v) => ProvideHolds(s, ctx, k, v, f);
    case OpRegister(ctx, plugin) => RegisterHolds(s, ctx, plugin, f);
    case OpBatch(ctx, plugins) => BatchHolds(s, ctx, plugins, f);
    case OpFork(ctx) => ForkHolds(s, ctx, f);
    case OpDerive(ctx) => HoldsSame(s, f);
    case OpEffect(g, token) => EffectHolds(s, g, Cleanup(token), f);
    case OpMiddleware(ctx, p, prepend) =>
      EffectHolds(WithMiddleware(s, ctx, p, prepend), ctx.fiber, RemoveMiddleware(p, s.nextHandler), f);
    case OpSetupDone(g) => SetupDoneHolds(s, g, f);
    case OpSetupFailed(g) => DisposalHolds(s, g, Failed, f);
    case OpDispose(g) => DisposalHolds(s, g, Disposed, f);
  }

  lemma ForkHolds(s: State, ctx: Ctx, f: FiberId)
    requires IdsOk(s)
    ensures Holds(s, Fork(s, ctx), f, [], [])
  {
  }

  // ---- undone in reverse ----

  /** What was given last runs first, whatever kind of cleanup it is. */
  lemma NewestRunsFirst(s: State, op: Op, f: FiberId, e: Effect, t: seq<Event>)
    requires Core(s) && Enabled(s, op) && f in s.arena && f in Apply(s, op).registry && GivenCleanups(s, op, f) == [e]
    requires Replay(Apply(s, op), t).Some? && Ended(f) in t
    ensures EffectsOf(t, f) != [] && EffectsOf(t, f)[0] == e
  {
    var u := Apply(s, op);
    OpHolds(s, op, f);
    EffectsRunOnceLifo(u, t, f);
    ReverseLast(u.arena[f].disposables);
  }

  /** Of two cleanups the later one runs earlier, whatever happens between, after, and in the teardown itself. */
  lemma LaterRunsEarlier(s0: State, op1: Op, between: seq<Op>, s2: State, op2: Op, rest: seq<Op>, s4: State,
                         f: FiberId, e1: Effect, e2: Effect, t: seq<Event>) returns (i: nat, j: nat)
    requires Inv(s0) && Enabled(s0, op1) && f in s0.arena && GivenCleanups(s0, op1, f) == [e1]
    requires Leads(Apply(s0, op1), between, s2)
    requires Inv(s2) && Enabled(s2, op2) && f in s2.arena && GivenCleanups(s2, op2, f) == [e2]
    requires Leads(Apply(s2, op2), rest, s4) && f in s4.registry
    requires Replay(s4, t).Some? && Ended(f) in t
    ensures i < j < |EffectsOf(t, f)| && EffectsOf(t, f)[i] == e2 && EffectsOf(t, f)[j] == e1
  {
    GivenIsHeld(s2, op2, rest, s4, f, e2);
    GivenIsHeld(s0, op1, between, s2, f, e1);
    var all := s4.arena[f].disposables;
    i, j := InReverse(all, |s0.arena[f].disposables|, |s2.arena[f].disposables|);
    EffectsRunOnceLifo(s4, t, f);
  }

  /** What was given is held at its place as long as the fiber is registered. */
  lemma GivenIsHeld(s: State, op: Op, rest: seq<Op>, t: State, f: FiberId, e: Effect)
    requires Inv(s) && Enabled(s, op) && f in s.arena && GivenCleanups(s, op, f) == [e]
    requires Leads(Apply(s, op), rest, t) && f in t.registry
    ensures f in s.registry && f in t.arena && s.arena[f].disposables + [e] <= t.arena[f].disposables
  {
    OneOp(s, op, f);
    LeadsTracks(Apply(s, op), rest, t, f);
  }

  lemma OneOp(s: State, op: Op, f: FiberId)
    requires Inv(s) && Enabled(s, op)
    ensures Inv(Apply(s, op)) && GoesOn(s, Apply(s, op), f)
    ensures Holds(s, Apply(s, op), f, GivenCleanups(s, op, f), GivenServices(op, f))
  {
    ApplyKeepsInv(s, op);
    OpTracks(s, op, f);
    OpHolds(s, op, f);
  }

  lemma InReverse(all: seq<Effect>, a: nat, b: nat) returns (i: nat, j: nat)
    requires a < b < |all|
    ensures i < j < |Reverse(all)| && Reverse(all)[i] == all[b] && Reverse(all)[j] == all[a]
  {
    ReverseAt(all, a);
    ReverseAt(all, b);
    i, j := |all| - 1 - b, |all| - 1 - a;
  }
}
