// What running fibers read: which operation changes the value behind an injected key, and for whom.

module Values {
  import opened Basics
  import opened Realms
  import opened KernelState
  import opened Disposal
  import opened Teardown
  import opened Start
  import opened Operations
  import opened Runs
  import opened Closure

  /** The value the fiber `x` reads for `k`. */
  function Reads(s: State, x: FiberId, k: Key): Option<Value>
    requires x in s.arena
  {
    Lookup(s.realms, s.arena[x].realm, k)
  }

  /** The fiber runs, and injected `k`. */
  ghost predicate RunsOn(s: State, x: FiberId, k: Key)
  {
    && x in s.registry && Live(s, x)
    && (s.arena[x].phase.Starting? || s.arena[x].phase.Ready?)
    && k in s.arena[x].injected
  }

  // ---- teardown ----

  /** A teardown changes no value a survivor injected. */
  lemma TeardownKeepsValues(s: State, dead: set<FiberId>, root: FiberId, final: Phase, x: FiberId, k: Key)
    requires CleanupsOk(s) && ClosedInto(s, dead, dead) && RunsOn(s, x, k) && x !in dead
    ensures x in Torn(s, dead, root, final).arena
    ensures Reads(Torn(s, dead, root, final), x, k) == Reads(s, x, k)
  {
    ResolutionStable(s, dead, dead, x, k);
  }

  // ---- binding ----

  /** A new binding is read exactly where nothing nearer shadows it. */
  lemma BindIsReadUnshadowed(s: State, ctx: Ctx, k: Key, v: Value, r: RealmId, j: Key)
    requires Known(s, ctx)
    ensures Lookup(Bind(s, ctx, k, v).realms, r, j)
         == if j == k && Unshadowed(s.realms, r, ctx.realm, k) then Some(v) else Lookup(s.realms, r, j)
  {
    ChangeIsIsolated(s.realms, Bind(s, ctx, k, v).realms, ctx.realm, k, r, j);
  }

  lemma {:induction false} StartAllKeepsRealms(s: State, ready: seq<Entry>)
    ensures var t := StartAll(s, ready);
            && t.realms == s.realms && t.registry == s.registry && t.arena.Keys == s.arena.Keys
            && forall f :: f in s.arena ==> t.arena[f].realm == s.arena[f].realm
    decreases ready
  {
    if ready != [] { StartAllKeepsRealms(StartFiber(s, ready[0]), ready[1..]); }
  }

  lemma WakeKeepsValues(s: State, x: FiberId, k: Key)
    requires x in s.arena
    ensures x in Wake(s).arena && Reads(Wake(s), x, k) == Reads(s, x, k) && Wake(s).registry == s.registry
  {
    StartAllKeepsRealms(s.(pending := RestOf(s, s.pending)), ReadyOf(s, s.pending));
  }

  /** Replacing a binding changes nobody's resolving realm. */
  lemma ReplacingKeepsRoutes(s: State, ctx: Ctx, k: Key, v: Value, r: RealmId)
    requires Known(s, ctx) && k in s.realms[ctx.realm].services
    ensures Resolve(Bind(s, ctx, k, v).realms, r, k) == Resolve(s.realms, r, k)
  {
    FewerBindings(Bind(s, ctx, k, v).realms, s.realms, r, k);
  }

  /** Whoever reads the replaced binding is disposed, except the provider itself. */
  lemma ReadersOfReplacedFall(s: State, ctx: Ctx, k: Key, v: Value, x: FiberId)
    requires Known(s, ctx) && RunsOn(s, x, k) && x != ctx.fiber
    requires k in s.realms[ctx.realm].services && Unshadowed(s.realms, s.arena[x].realm, ctx.realm, k)
    ensures var t := Bind(s, ctx, k, v); x in DoomedAll(t, Dependents(t, ctx.realm, k, ctx.fiber))
  {
    var t := Bind(s, ctx, k, v);
    ResolvesThere(s.realms, s.arena[x].realm, ctx.realm, k);
    ReplacingKeepsRoutes(s, ctx, k, v, s.arena[x].realm);
    assert t.arena[x] == s.arena[x];
    assert x in Dependents(t, ctx.realm, k, ctx.fiber);
    DoomedIsClosed(t, x);
  }

  // ---- provide ----

  /** Everything before the wake-up of a `provide` by an active fiber. */
  ghost function BeforeWake(s: State, ctx: Ctx, k: Key, v: Value): State
    requires Known(s, ctx)
  {
    var t := Bind(s, ctx, k, v);
    if Replaces(s, ctx, k, v) then Gone(t, DoomedAll(t, Dependents(t, ctx.realm, k, ctx.fiber))) else t
  }

  lemma BeforeWakeReads(s: State, ctx: Ctx, k: Key, v: Value, x: FiberId, j: Key)
    requires Core(s) && Known(s, ctx) && Active(s, ctx.fiber) && RunsOn(s, x, j)
    requires x in BeforeWake(s, ctx, k, v).registry
    ensures x in BeforeWake(s, ctx, k, v).arena
    ensures Reads(BeforeWake(s, ctx, k, v), x, j)
         == if j == k && Unshadowed(s.realms, s.arena[x].realm, ctx.realm, k) then Some(v) else Reads(s, x, j)
  {
    var t := Bind(s, ctx, k, v);
    BindIsReadUnshadowed(s, ctx, k, v, s.arena[x].realm, j);
    assert RunsOn(t, x, j) && t.arena[x].realm == s.arena[x].realm;
    if Replaces(s, ctx, k, v) {
      var users := Dependents(t, ctx.realm, k, ctx.fiber);
      BindKeepsCore(s, ctx, k, v);
      DoomedAllIsClosed(t, users);
      TeardownKeepsValues(t, DoomedAll(t, users), ROOT_FIBER, Disposed, x, j);
    }
  }

  /** The provided value becomes what the running fiber `x` reads for `j`, and is not what it read before. */
  ghost predicate Overtakes(s: State, ctx: Ctx, k: Key, v: Value, x: FiberId, j: Key)
    requires Known(s, ctx) && x in s.arena
  {
    && Active(s, ctx.fiber) && j == k
    && Unshadowed(s.realms, s.arena[x].realm, ctx.realm, k)
    && Reads(s, x, k) != Some(v)
    && (k !in s.realms[ctx.realm].services || x == ctx.fiber)
  }

  /**
   * A `provide` changes what a surviving fiber reads for an injected key if and only if the new binding is
   * unshadowed from the fiber and differs from what it read, and either the binding is fresh, so that it
   * shadows a farther one, or the fiber replaces its own service.
   */
  lemma ProvideChangesValue(s: State, ctx: Ctx, k: Key, v: Value, x: FiberId, j: Key)
    requires Core(s) && Known(s, ctx) && RunsOn(s, x, j) && x in Provide(s, ctx, k, v).registry
    ensures x in Provide(s, ctx, k, v).arena
    ensures Reads(Provide(s, ctx, k, v), x, j) == if Overtakes(s, ctx, k, v, x, j) then Some(v) else Reads(s, x, j)
  {
    if Active(s, ctx.fiber) {
      var u := BeforeWake(s, ctx, k, v);
      StartAllKeepsRealms(u.(pending := RestOf(u, u.pending)), ReadyOf(u, u.pending));
      BeforeWakeReads(s, ctx, k, v, x, j);
      WakeKeepsValues(u, x, j);
      if j == k && Unshadowed(s.realms, s.arena[x].realm, ctx.realm, k) && k in s.realms[ctx.realm].services {
        ResolvesThere(s.realms, s.arena[x].realm, ctx.realm, k);
        if x != ctx.fiber { ReadersOfReplacedFall(s, ctx, k, v, x); }
      }
    }
  }

  // ---- every operation ----

  lemma ExtendingKeepsValues(s: State, t: State, x: FiberId, k: Key)
    requires Extends(s, t) && x in s.arena && s.arena[x].realm in s.realms
    ensures x in t.arena && Reads(t, x, k) == Reads(s, x, k)
  {
    DerivedRealmIsInvisible(s.realms, t.realms, s.arena[x].realm, k);
  }

  lemma EnqueueExtends(s: State, ctx: Ctx, plugin: Plugin)
    requires IdsOk(s)
    ensures Extends(s, Enqueue(s, ctx, plugin))
  {
    AddingExtends(s, Enqueue(s, ctx, plugin));
  }

  lemma ExtendsOnward(s: State, t: State, u: State)
    requires Extends(s, t) && Extends(t, u)
    ensures Extends(s, u)
  {
  }

  lemma {:induction false} EnqueueAllExtends(s: State, ctx: Ctx, plugins: seq<Plugin>)
    requires Core(s) && Known(s, ctx)
    ensures Extends(s, EnqueueAll(s, ctx, plugins))
  {
    if plugins != [] {
      var before := EnqueueAll(s, ctx, plugins[..|plugins| - 1]);
      EnqueueAllExtends(s, ctx, plugins[..|plugins| - 1]);
      EnqueueAllKeeps(s, ctx, plugins[..|plugins| - 1]);
      EnqueueExtends(before, ctx, plugins[|plugins| - 1]);
      ExtendsOnward(s, before, EnqueueAll(s, ctx, plugins));
    }
  }

  lemma BatchKeepsValues(s: State, ctx: Ctx, plugins: seq<Plugin>, x: FiberId, k: Key)
    requires Core(s) && Known(s, ctx) && x in s.arena
    ensures x in RegisterBatch(s, ctx, plugins).arena && Reads(RegisterBatch(s, ctx, plugins), x, k) == Reads(s, x, k)
  {
    EnqueueAllExtends(s, ctx, plugins);
    ExtendingKeepsValues(s, EnqueueAll(s, ctx, plugins), x, k);
    WakeKeepsValues(EnqueueAll(s, ctx, plugins), x, k);
  }

  /** Operations that only add registrations, realms, cleanups or middlewares. */
  predicate OnlyAdds(op: Op)
  {
    op.OpRegister? || op.OpFork? || op.OpDerive? || op.OpEffect? || op.OpMiddleware?
  }

  lemma AddingKeepsValues(s: State, op: Op, x: FiberId, k: Key)
    requires IdsOk(s) && Enabled(s, op) && OnlyAdds(op) && x in s.arena
    ensures x in Apply(s, op).arena && Reads(Apply(s, op), x, k) == Reads(s, x, k)
  {
    match op {
      case OpRegister(ctx, plugin) => RegisterExtends(s, ctx, plugin);
      case OpFork(ctx) => AddingExtends(s, Fork(s, ctx));
      case OpDerive(ctx) => assert Extends(s, Derive(s, ctx));
      case OpEffect(f, token) => AddEffectExtends(s, f, Cleanup(token));
      case OpMiddleware(ctx, p, prepend) =>
        AddEffectExtends(WithMiddleware(s, ctx, p, prepend), ctx.fiber, RemoveMiddleware(p, s.nextHandler));
    }
    ExtendingKeepsValues(s, Apply(s, op), x, k);
  }

  lemma SetupDoneKeepsValues(s: State, f: FiberId, x: FiberId, k: Key)
    requires f in s.arena && x in s.arena
    ensures x in SetupDone(s, f).arena && Reads(SetupDone(s, f), x, k) == Reads(s, x, k)
  {
    var t := if s.arena[f].disposalStarted then s else s.(arena := s.arena[f := s.arena[f].(phase := Ready)]);
    WakeKeepsValues(t, x, k);
  }

  lemma DisposalKeepsValues(s: State, f: FiberId, final: Phase, x: FiberId, k: Key)
    requires CleanupsOk(s) && RunsOn(s, x, k) && x in DisposeState(s, f, final).registry
    ensures x in DisposeState(s, f, final).arena && Reads(DisposeState(s, f, final), x, k) == Reads(s, x, k)
  {
    if Live(s, f) {
      DoomedIsClosed(s, f);
      TeardownKeepsValues(s, Doomed(s, f), f, final, x, k);
    }
  }

  /** No operation but `provide` changes what a surviving fiber reads for an injected key. */
  lemma OnlyProvideChangesValues(s: State, op: Op, x: FiberId, k: Key)
    requires Core(s) && Enabled(s, op) && !op.OpProvide?
    requires RunsOn(s, x, k) && x in Apply(s, op).registry
    ensures x in Apply(s, op).arena && Reads(Apply(s, op), x, k) == Reads(s, x, k)
  {
    if OnlyAdds(op) {
      AddingKeepsValues(s, op, x, k);
    } else {
      match op
      case OpBatch(ctx, plugins) => BatchKeepsValues(s, ctx, plugins, x, k);
      case OpSetupDone(f) => SetupDoneKeepsValues(s, f, x, k);
      case OpSetupFailed(f) => DisposalKeepsValues(s, f, Failed, x, k);
      case OpDispose(f) => DisposalKeepsValues(s, f, Disposed, x, k);
    }
  }

  /** Exactly when an operation changes what a surviving fiber reads for a key it injected. */
  lemma ValueChangesIff(s: State, op: Op, x: FiberId, j: Key)
    requires Core(s) && Enabled(s, op) && RunsOn(s, x, j) && x in Apply(s, op).registry
    ensures x in Apply(s, op).arena
    ensures Reads(Apply(s, op), x, j) != Reads(s, x, j)
       <==> op.OpProvide? && Overtakes(s, op.ctx, op.key, op.value, x, j)
  {
    if op.OpProvide? {
      ProvideChangesValue(s, op.ctx, op.key, op.value, x, j);
    } else {
      OnlyProvideChangesValues(s, op, x, j);
    }
  }

  // ---- derived realms ----

  /** From a derived realm every key is read as from the realm it was derived from. */
  lemma DerivedRealmFallsThrough(s: State, ctx: Ctx, k: Key)
    requires IdsOk(s) && Known(s, ctx)
    ensures var t := Derive(s, ctx);
            && s.nextRealm in t.realms && s.nextRealm !in s.realms
            && Chain(t.realms, s.nextRealm) == [s.nextRealm] + Chain(s.realms, ctx.realm)
            && Lookup(t.realms, s.nextRealm, k) == Lookup(s.realms, ctx.realm, k)
  {
    DerivedRealmIsInvisible(s.realms, Derive(s, ctx).realms, ctx.realm, k);
    OldChainsStay(s.realms, Derive(s, ctx).realms, ctx.realm);
  }

  lemma {:induction false} OldChainsStay(rs: RealmTree, rs': RealmTree, r: RealmId)
    requires rs.Keys <= rs'.Keys && r in rs && forall x :: x in rs ==> rs'[x] == rs[x]
    ensures Chain(rs', r) == Chain(rs, r)
    decreases r
  {
    if rs[r].parent.Some? { OldChainsStay(rs, rs', rs[r].parent.value); }
  }

  // ---- who falls when a service is replaced ----

  /** Another running fiber reads the binding of `k` held by the context's realm. */
  ghost predicate ReadsBinding(s: State, ctx: Ctx, k: Key, u: FiberId)
  {
    && u in s.registry && u in s.arena && u != ctx.fiber && IsRunning(s.arena[u]) && k in s.arena[u].injected
    && FirstBinder(s.realms, Chain(s.realms, s.arena[u].realm), ctx.realm, k)
  }

  lemma ReadersAreDependents(s: State, ctx: Ctx, k: Key, v: Value, u: FiberId)
    requires IdsOk(s) && Quiescent(s) && Known(s, ctx) && Replaces(s, ctx, k, v)
    ensures u in Dependents(Bind(s, ctx, k, v), ctx.realm, k, ctx.fiber) <==> ReadsBinding(s, ctx, k, u)
  {
    if u in s.arena && u != ctx.fiber {
      ReplacingKeepsRoutes(s, ctx, k, v, s.arena[u].realm);
      ResolveIsFirstOnChain(s.realms, s.arena[u].realm, k);
    }
  }

  /**
   * Exactly who falls in a `provide`: nobody, unless an active fiber replaces a bound value by another one; then
   * the other running readers of that binding, with everybody who falls with them.
   */
  lemma ProvideFellsIff(s: State, ctx: Ctx, k: Key, v: Value, x: FiberId)
    requires Core(s) && Known(s, ctx) && x in s.registry
    ensures x !in Provide(s, ctx, k, v).registry <==>
              && Active(s, ctx.fiber)
              && k in s.realms[ctx.realm].services && s.realms[ctx.realm].services[k] != v
              && exists u :: ReadsBinding(s, ctx, k, u) && x in Doomed(Bind(s, ctx, k, v), u)
  {
    if Active(s, ctx.fiber) {
      var t, u := Bind(s, ctx, k, v), BeforeWake(s, ctx, k, v);
      StartAllKeepsRealms(u.(pending := RestOf(u, u.pending)), ReadyOf(u, u.pending));
      if Replaces(s, ctx, k, v) {
        forall d ensures d in Dependents(t, ctx.realm, k, ctx.fiber) <==> ReadsBinding(s, ctx, k, d) {
          ReadersAreDependents(s, ctx, k, v, d);
        }
        assert x in DoomedAll(t, Dependents(t, ctx.realm, k, ctx.fiber)) <==>
               exists d :: ReadsBinding(s, ctx, k, d) && x in Doomed(t, d);
      }
    }
  }
}
