// Every operation keeps the invariant, so every run does; and when a queued fiber can miss its wake-up.

module Runs {
  import opened Basics
  import opened Realms
  import opened KernelState
  import opened Disposal
  import opened Teardown
  import opened Start
  import opened Operations

  // ---- disposal ----

  lemma DisposeKeeps(s: State, f: FiberId, final: Phase)
    requires Core(s) && final.Terminal()
    ensures Core(DisposeState(s, f, final))
    ensures QueueBlocked(s) ==> QueueBlocked(DisposeState(s, f, final))
  {
    if Live(s, f) {
      DoomedIsClosed(s, f);
      TornKeepsCore(s, Doomed(s, f), f, final);
      if QueueBlocked(s) { TornKeepsBlocked(s, Doomed(s, f), f, final); }
    }
  }

  // ---- provide ----

  lemma BindKeepsCore(s: State, ctx: Ctx, k: Key, v: Value)
    requires Core(s) && Known(s, ctx) && Active(s, ctx.fiber)
    ensures Core(Bind(s, ctx, k, v))
  {
    var t := Bind(s, ctx, k, v);
    assert forall f :: f in s.arena && f != ctx.fiber ==> t.arena[f] == s.arena[f];
    BindOwned(s, ctx, k, v);
    BindHardSound(s, ctx, k, v);
    BindMiddlewares(s, ctx, k, v);
  }

  lemma BindOwned(s: State, ctx: Ctx, k: Key, v: Value)
    requires BindingsOwned(s) && Known(s, ctx) && Active(s, ctx.fiber)
    ensures BindingsOwned(Bind(s, ctx, k, v))
  {
    var t := Bind(s, ctx, k, v);
    forall r, j | r in t.realms && j in t.realms[r].services ensures Owned(t, r, j, t.realms[r].services[j]) {
      if r == ctx.realm && j == k {
        assert RemoveService(r, j, v) in t.arena[ctx.fiber].disposables;
      } else {
        var w := s.realms[r].services[j];
        assert Owned(s, r, j, w);
        var f :| f in s.registry && f in s.arena && RemoveService(r, j, w) in s.arena[f].disposables;
        assert RemoveService(r, j, w) in t.arena[f].disposables;
      }
    }
  }

  lemma BindHardSound(s: State, ctx: Ctx, k: Key, v: Value)
    requires HardSound(s) && Known(s, ctx)
    ensures HardSound(Bind(s, ctx, k, v))
  {
    var t := Bind(s, ctx, k, v);
    forall f, j | f in t.registry && f in t.arena
                  && (t.arena[f].phase.Starting? || t.arena[f].phase.Ready?) && j in t.arena[f].injected
      ensures Resolve(t.realms, t.arena[f].realm, j).Some?
    {
      assert t.arena[f].injected == s.arena[f].injected;
      MoreBindings(s.realms, t.realms, s.arena[f].realm, j);
    }
  }

  lemma BindMiddlewares(s: State, ctx: Ctx, k: Key, v: Value)
    requires MiddlewaresOk(s) && Known(s, ctx)
    ensures MiddlewaresOk(Bind(s, ctx, k, v))
  {
    var t := Bind(s, ctx, k, v);
    forall f | f in s.arena
      ensures forall e: Effect :: !e.RemoveService? ==> (e in t.arena[f].disposables <==> e in s.arena[f].disposables)
    {
    }
    forall p, m | p in t.pipelines && m in t.pipelines[p] ensures MiddlewareOk(t, p, m) {
      assert MiddlewareOk(s, p, m);
    }
  }

  lemma ProvideKeeps(s: State, ctx: Ctx, k: Key, v: Value)
    requires Inv(s) && Known(s, ctx)
    ensures Inv(Provide(s, ctx, k, v))
    ensures Calm(s) || Active(s, ctx.fiber) ==> Calm(Provide(s, ctx, k, v))
  {
    if Active(s, ctx.fiber) {
      var t := Bind(s, ctx, k, v);
      BindKeepsCore(s, ctx, k, v);
      var users := Dependents(t, ctx.realm, k, ctx.fiber);
      DoomedAllIsClosed(t, users);
      TornKeepsCore(t, DoomedAll(t, users), ROOT_FIBER, Disposed);
      var u := if Replaces(s, ctx, k, v) then Gone(t, DoomedAll(t, users)) else t;
      WakeKeepsCore(u);
      WakeCalms(u);
    }
  }

  // ---- operations that only add ----

  /** `t` extends `s`: more realms, fibers and entries, and no more than cleanups added to old records. */
  ghost predicate Extends(s: State, t: State)
  {
    && (forall r :: r in s.realms ==> r in t.realms && t.realms[r] == s.realms[r])
    && (forall f :: f in s.arena ==> f in t.arena && t.arena[f] == s.arena[f].(disposables := t.arena[f].disposables))
    && s.registry <= t.registry
    && (forall e :: e in s.pending ==> e in t.pending)
  }

  lemma {:induction false} SameView(s: State, t: State, at: RealmId)
    requires Extends(s, t) && at in s.realms
    ensures forall from :: Visible(t.realms, from, at) == Visible(s.realms, from, at)
    decreases at
  {
    if s.realms[at].parent.Some? {
      assert t.realms[at] == s.realms[at];
      SameView(s, t, s.realms[at].parent.value);
    }
  }

  lemma ProviderStays(s: State, t: State, waiting: FiberId, realm: RealmId, key: Key)
    requires Extends(s, t) && realm in s.realms && HasDeclaredProvider(s, waiting, realm, key, [])
    ensures HasDeclaredProvider(t, waiting, realm, key, [])
  {
    SameView(s, t, realm);
    if i :| 0 <= i < |s.pending| && PendingDeclares(s, s.pending[i], waiting, realm, key) {
      assert s.pending[i] in t.pending;
      var j :| 0 <= j < |t.pending| && t.pending[j] == s.pending[i];
      assert PendingDeclares(t, t.pending[j], waiting, realm, key);
    } else {
      var f :| f in s.registry && StartingDeclares(s, f, waiting, realm, key);
      assert StartingDeclares(t, f, waiting, realm, key);
    }
  }

  lemma UnsatisfiedStays(s: State, t: State, waiting: FiberId, realm: RealmId, plugin: Plugin)
    requires Extends(s, t) && realm in s.realms
    requires !Satisfied(s, waiting, realm, plugin, [])
    ensures !Satisfied(t, waiting, realm, plugin, [])
    ensures exists d :: d in plugin.inject && Resolve(t.realms, realm, d.key).None?
  {
    var j :| 0 <= j < |plugin.inject| && !DependencySatisfied(s, waiting, realm, plugin.inject[j], []);
    var d := plugin.inject[j];
    DerivedRealmIsInvisible(s.realms, t.realms, realm, d.key);
    if d.Soft? { ProviderStays(s, t, waiting, realm, d.key); }
    assert !DependencySatisfied(t, waiting, realm, d, []);
  }

  lemma ExtendedQueue(s: State, t: State)
    requires IdsOk(s) && Quiescent(s) && QueueOk(s) && Extends(s, t) && t.pending == s.pending
    ensures QueueBlocked(s) ==> QueueBlocked(t)
    ensures Calm(s) ==> Calm(t)
  {
    forall i | 0 <= i < |t.pending|
      ensures Blocked(s, s.pending[i]) ==> Blocked(t, t.pending[i])
      ensures Calm(s) ==> !Satisfied(t, t.pending[i].fiber, t.arena[t.pending[i].fiber].realm, t.pending[i].plugin, [])
    {
      OldEntryWaits(s, t, i);
    }
  }

  lemma InvExtends(s: State, t: State)
    requires Inv(s) && Core(t) && Extends(s, t) && t.pending == s.pending
    ensures Inv(t) && (Calm(s) ==> Calm(t))
  {
    ExtendedQueue(s, t);
  }

  lemma NewcomerQueue(s: State, t: State, u: State, e: Entry)
    requires IdsOk(s) && Quiescent(s) && QueueOk(s) && Extends(s, t) && Extends(t, u) && Extends(s, u)
    requires u.pending == s.pending + [e] && e.fiber in t.arena && t.arena[e.fiber].realm in t.realms
    requires !Satisfied(t, e.fiber, t.arena[e.fiber].realm, e.plugin, [])
    ensures QueueBlocked(s) ==> QueueBlocked(u)
    ensures Calm(s) ==> Calm(u)
  {
    UnsatisfiedStays(t, u, e.fiber, t.arena[e.fiber].realm, e.plugin);
    forall i | 0 <= i < |u.pending|
      ensures QueueBlocked(s) ==> Blocked(u, u.pending[i])
      ensures Calm(s) ==> !Satisfied(u, u.pending[i].fiber, u.arena[u.pending[i].fiber].realm, u.pending[i].plugin, [])
    {
      if i < |s.pending| {
        OldEntryWaits(s, u, i);
      }
    }
  }

  lemma OldEntryWaits(s: State, u: State, i: nat)
    requires IdsOk(s) && Quiescent(s) && QueueOk(s) && Extends(s, u) && i < |s.pending|
    ensures s.pending[i].fiber in s.arena && s.pending[i].fiber in u.arena
    ensures u.arena[s.pending[i].fiber].realm == s.arena[s.pending[i].fiber].realm
    ensures Blocked(s, s.pending[i]) ==> Blocked(u, s.pending[i])
    ensures Calm(s) ==> !Satisfied(u, s.pending[i].fiber, s.arena[s.pending[i].fiber].realm, s.pending[i].plugin, [])
  {
    var e := s.pending[i];
    var realm := s.arena[e.fiber].realm;
    if Blocked(s, e) {
      var d :| d in e.plugin.inject && Resolve(s.realms, realm, d.key).None?;
      DerivedRealmIsInvisible(s.realms, u.realms, realm, d.key);
    }
    if Calm(s) {
      assert StillAlive(s, s.pending[i]);
      UnsatisfiedStays(s, u, e.fiber, realm, e.plugin);
    }
  }

  /** A step that leaves old records alone and only adds extends the state. */
  lemma AddingExtends(s: State, t: State)
    requires IdsOk(s) && t.realms == s.realms && s.registry <= t.registry && s.pending <= t.pending
    requires forall f :: f < s.nextFiber && f in s.arena ==> f in t.arena && t.arena[f] == s.arena[f]
    ensures Extends(s, t)
  {
  }

  lemma RegisterExtends(s: State, ctx: Ctx, plugin: Plugin)
    requires IdsOk(s)
    ensures Extends(s, CreateFiber(s, ctx)) && Extends(s, Register(s, ctx, plugin))
  {
    AddingExtends(s, CreateFiber(s, ctx));
    RegisterOnlyAdds(s, ctx, plugin);
    AddingExtends(s, Register(s, ctx, plugin));
  }

  lemma RegisterOnlyAdds(s: State, ctx: Ctx, plugin: Plugin)
    ensures var t := Register(s, ctx, plugin);
            && t.realms == s.realms && s.registry - {s.nextFiber} <= t.registry && s.pending <= t.pending
            && forall f :: f < s.nextFiber && f in s.arena ==> f in t.arena && t.arena[f] == s.arena[f]
  {
  }

  lemma RegisterKeeps(s: State, ctx: Ctx, plugin: Plugin)
    requires Inv(s) && Known(s, ctx)
    ensures Inv(Register(s, ctx, plugin))
    ensures Calm(s) ==> Calm(Register(s, ctx, plugin))
  {
    RegisterKeepsCore(s, ctx, plugin);
    RegisterExtends(s, ctx, plugin);
    var t, u := CreateFiber(s, ctx), Register(s, ctx, plugin);
    if Active(t, ctx.fiber) && !Satisfied(t, s.nextFiber, ctx.realm, plugin, []) {
      CreateExtendsTo(s, ctx, plugin);
      NewcomerQueue(s, t, u, Entry(s.nextFiber, plugin));
    } else {
      InvExtends(s, u);
    }
  }

  lemma CreateExtendsTo(s: State, ctx: Ctx, plugin: Plugin)
    requires Active(CreateFiber(s, ctx), ctx.fiber)
             && !Satisfied(CreateFiber(s, ctx), s.nextFiber, ctx.realm, plugin, [])
    ensures var t, u := CreateFiber(s, ctx), Register(s, ctx, plugin);
            Extends(t, u) && u.pending == s.pending + [Entry(s.nextFiber, plugin)]
  {
  }

  lemma ForkKeeps(s: State, ctx: Ctx)
    requires Inv(s) && Known(s, ctx)
    ensures Inv(Fork(s, ctx)) && (Calm(s) ==> Calm(Fork(s, ctx)))
  {
    ForkKeepsCore(s, ctx);
    AddingExtends(s, Fork(s, ctx));
    InvExtends(s, Fork(s, ctx));
  }

  lemma DeriveKeeps(s: State, ctx: Ctx)
    requires Inv(s) && Known(s, ctx)
    ensures Inv(Derive(s, ctx)) && (Calm(s) ==> Calm(Derive(s, ctx)))
  {
    DeriveKeepsCore(s, ctx);
    InvExtends(s, Derive(s, ctx));
  }

  lemma AddEffectExtends(s: State, f: FiberId, e: Effect)
    ensures Extends(s, AddEffect(s, f, e)) && AddEffect(s, f, e).pending == s.pending
  {
  }

  lemma EffectKeeps(s: State, f: FiberId, token: nat)
    requires Inv(s)
    ensures Inv(AddEffect(s, f, Cleanup(token))) && (Calm(s) ==> Calm(AddEffect(s, f, Cleanup(token))))
  {
    CleanupKeepsCore(s, f, token);
    AddEffectExtends(s, f, Cleanup(token));
    InvExtends(s, AddEffect(s, f, Cleanup(token)));
  }

  lemma MiddlewareKeeps(s: State, ctx: Ctx, p: Point, prepend: bool)
    requires Inv(s) && Known(s, ctx)
    ensures Inv(AddMiddleware(s, ctx, p, prepend)) && (Calm(s) ==> Calm(AddMiddleware(s, ctx, p, prepend)))
  {
    MiddlewareKeepsCore(s, ctx, p, prepend);
    AddEffectExtends(WithMiddleware(s, ctx, p, prepend), ctx.fiber, RemoveMiddleware(p, s.nextHandler));
    InvExtends(s, AddMiddleware(s, ctx, p, prepend));
  }

  lemma SetupDoneKeeps(s: State, f: FiberId)
    requires Inv(s) && IsStarting(s, f)
    ensures Inv(SetupDone(s, f)) && Calm(SetupDone(s, f))
  {
    var t := if s.arena[f].disposalStarted then s else s.(arena := s.arena[f := s.arena[f].(phase := Ready)]);
    assert SameHoldings(s, t);
    SameHoldingsKeep(s, t);
    assert Core(t);
    WakeKeepsCore(t);
    WakeCalms(t);
  }

  // ---- every run ----

  lemma ApplyKeepsInv(s: State, op: Op)
    requires Inv(s) && Enabled(s, op)
    ensures Inv(Apply(s, op))
  {
    match op
    case OpProvide(ctx, k, v) => ProvideKeeps(s, ctx, k, v);
    case OpRegister(ctx, plugin) => RegisterKeeps(s, ctx, plugin);
    case OpBatch(ctx, plugins) => BatchKeeps(s, ctx, plugins);
    case OpFork(ctx) => ForkKeeps(s, ctx);
    case OpDerive(ctx) => DeriveKeeps(s, ctx);
    case OpEffect(f, token) => EffectKeeps(s, f, token);
    case OpMiddleware(ctx, p, prepend) => MiddlewareKeeps(s, ctx, p, prepend);
    case OpSetupDone(f) => SetupDoneKeeps(s, f);
    case OpSetupFailed(f) => DisposeKeeps(s, f, Failed);
    case OpDispose(f) => DisposeKeeps(s, f, Disposed);
  }

  /**
   * Over all runs: hard dependencies of running fibers resolve, the registry is a tree, every binding has
   * a registered owner, and the queue holds exactly the live Pending fibers, each missing some key.
   */
  lemma {:induction false} EveryRunKeepsInv(ops: seq<Op>, s: State)
    requires Run(ops, s)
    ensures Inv(s)
    decreases |ops|
  {
    if ops == [] {
      InitInv();
    } else {
      var t :| Run(ops[..|ops| - 1], t) && IsFresh(t) && Enabled(t, ops[|ops| - 1]) && s == Apply(t, ops[|ops| - 1]);
      EveryRunKeepsInv(ops[..|ops| - 1], t);
      ApplyKeepsInv(t, ops[|ops| - 1]);
    }
  }

  // ---- lost wake-ups ----

  /** Every operation but a disposal leaves a calm kernel calm. */
  lemma ApplyKeepsCalm(s: State, op: Op)
    requires Inv(s) && Calm(s) && Enabled(s, op)
    requires !op.OpDispose? && !op.OpSetupFailed?
    ensures Calm(Apply(s, op))
  {
    match op
    case OpProvide(ctx, k, v) => ProvideKeeps(s, ctx, k, v);
    case OpRegister(ctx, plugin) => RegisterKeeps(s, ctx, plugin);
    case OpBatch(ctx, plugins) => BatchKeeps(s, ctx, plugins);
    case OpFork(ctx) => ForkKeeps(s, ctx);
    case OpDerive(ctx) => DeriveKeeps(s, ctx);
    case OpEffect(f, token) => EffectKeeps(s, f, token);
    case OpMiddleware(ctx, p, prepend) => MiddlewareKeeps(s, ctx, p, prepend);
    case OpSetupDone(f) => SetupDoneKeeps(s, f);
  }

  /** A declared provider that the teardown of `dead` leaves alive. */
  ghost predicate ProviderLeft(s: State, dead: set<FiberId>, waiting: FiberId, realm: RealmId, key: Key)
  {
    || (exists e :: e in s.pending && e.fiber !in dead && PendingDeclares(s, e, waiting, realm, key))
    || (exists f :: f in s.registry && f !in dead && StartingDeclares(s, f, waiting, realm, key))
  }

  /**
   * The teardown of `dead` strands a queued fiber: it survives, and each of its keys still resolves or is
   * soft and declared by no survivor. Nothing wakes it, since disposal starts nobody.
   */
  ghost predicate Stranded(s: State, dead: set<FiberId>, e: Entry)
    requires e.fiber in s.arena
  {
    && e.fiber !in dead
    && forall d :: d in e.plugin.inject ==>
                     || Resolve(KeepRealms(s, dead), s.arena[e.fiber].realm, d.key).Some?
                     || (d.Soft? && !ProviderLeft(s, dead, e.fiber, s.arena[e.fiber].realm, d.key))
  }

  /**
   * Before the teardown a stranded entry waited: some soft key of it did not resolve, a live plugin had
   * declared the key, and none that did survives.
   */
  lemma StrandedHadWaited(s: State, dead: set<FiberId>, e: Entry)
    requires QueueOk(s) && Quiescent(s) && Calm(s) && e in s.pending && e.fiber in s.arena && Stranded(s, dead, e)
    ensures exists k :: Soft(k) in e.plugin.inject
                        && Resolve(s.realms, s.arena[e.fiber].realm, k).None?
                        && HasDeclaredProvider(s, e.fiber, s.arena[e.fiber].realm, k, [])
                        && !ProviderLeft(s, dead, e.fiber, s.arena[e.fiber].realm, k)
  {
    var realm := s.arena[e.fiber].realm;
    var i :| 0 <= i < |s.pending| && s.pending[i] == e;
    assert StillAlive(s, s.pending[i]);
    var j :| 0 <= j < |e.plugin.inject| && !DependencySatisfied(s, e.fiber, realm, e.plugin.inject[j], []);
    var d := e.plugin.inject[j];
    assert d in e.plugin.inject && (d == Hard(d.key) || d == Soft(d.key));
    FewerBindings(s.realms, KeepRealms(s, dead), realm, d.key);
  }

  lemma ProviderLeftStays(s: State, dead: set<FiberId>, root: FiberId, final: Phase,
                            waiting: FiberId, realm: RealmId, key: Key)
    requires ProviderLeft(s, dead, waiting, realm, key)
    ensures HasDeclaredProvider(Torn(s, dead, root, final), waiting, realm, key, [])
  {
    var t := Torn(s, dead, root, final);
    SameShapeSameWalks(s.realms, t.realms, realm);
    if e :| e in s.pending && e.fiber !in dead && PendingDeclares(s, e, waiting, realm, key) {
      KeepQueueIsFilter(s.pending, dead);
      assert e in t.pending;
      var j :| 0 <= j < |t.pending| && t.pending[j] == e;
      assert t.arena[e.fiber] == s.arena[e.fiber];
      assert PendingDeclares(t, t.pending[j], waiting, realm, key);
    } else {
      var f :| f in s.registry && f !in dead && StartingDeclares(s, f, waiting, realm, key);
      assert t.arena[f] == s.arena[f] && f in t.registry;
      assert StartingDeclares(t, f, waiting, realm, key);
    }
  }

  lemma ProviderWasThere(s: State, dead: set<FiberId>, root: FiberId, final: Phase,
                           waiting: FiberId, realm: RealmId, key: Key)
    requires HasDeclaredProvider(Torn(s, dead, root, final), waiting, realm, key, [])
    ensures ProviderLeft(s, dead, waiting, realm, key)
  {
    var t := Torn(s, dead, root, final);
    SameShapeSameWalks(s.realms, t.realms, realm);
    if i :| 0 <= i < |t.pending| && PendingDeclares(t, t.pending[i], waiting, realm, key) {
      KeepQueueIsFilter(s.pending, dead);
      var e := t.pending[i];
      assert e in s.pending && e.fiber !in dead && t.arena[e.fiber] == s.arena[e.fiber];
      assert PendingDeclares(s, e, waiting, realm, key);
    } else {
      var f :| f in t.registry && StartingDeclares(t, f, waiting, realm, key);
      assert f !in dead && t.arena[f] == s.arena[f];
      assert StartingDeclares(s, f, waiting, realm, key);
    }
  }

  lemma StrandedIsSatisfied(s: State, dead: set<FiberId>, root: FiberId, final: Phase, e: Entry)
    requires e.fiber in s.arena && e.fiber !in dead
    ensures Stranded(s, dead, e) <==>
            Satisfied(Torn(s, dead, root, final), e.fiber, s.arena[e.fiber].realm, e.plugin, [])
  {
    var t, realm := Torn(s, dead, root, final), s.arena[e.fiber].realm;
    forall i | 0 <= i < |e.plugin.inject|
      ensures DependencySatisfied(t, e.fiber, realm, e.plugin.inject[i], []) <==>
              || Resolve(KeepRealms(s, dead), realm, e.plugin.inject[i].key).Some?
              || (e.plugin.inject[i].Soft? && !ProviderLeft(s, dead, e.fiber, realm, e.plugin.inject[i].key))
    {
      var k := e.plugin.inject[i].key;
      if ProviderLeft(s, dead, e.fiber, realm, k) {
        ProviderLeftStays(s, dead, root, final, e.fiber, realm, k);
      }
      if HasDeclaredProvider(t, e.fiber, realm, k, []) {
        ProviderWasThere(s, dead, root, final, e.fiber, realm, k);
      }
    }
    if Satisfied(t, e.fiber, realm, e.plugin, []) {
      forall d | d in e.plugin.inject
        ensures || Resolve(KeepRealms(s, dead), realm, d.key).Some?
                || (d.Soft? && !ProviderLeft(s, dead, e.fiber, realm, d.key))
      {
        var i :| 0 <= i < |e.plugin.inject| && e.plugin.inject[i] == d;
        assert DependencySatisfied(t, e.fiber, realm, e.plugin.inject[i], []);
      }
    }
  }

  lemma SurvivorsQueue(s: State, dead: set<FiberId>, root: FiberId, final: Phase, e: Entry)
    requires IdsOk(s) && QueueOk(s) && Quiescent(s)
    ensures e in Torn(s, dead, root, final).pending <==> e in s.pending && e.fiber !in dead
    ensures var t := Torn(s, dead, root, final);
            e in t.pending ==>
              e.fiber in s.arena && e.fiber in t.arena && StillAlive(t, e) && t.arena[e.fiber] == s.arena[e.fiber]
  {
    KeepQueueIsFilter(s.pending, dead);
    if e in s.pending {
      var i :| 0 <= i < |s.pending| && s.pending[i] == e;
    }
  }

  ghost predicate CouldStart(t: State, e: Entry)
  {
    StillAlive(t, e) && Satisfied(t, e.fiber, t.arena[e.fiber].realm, e.plugin, [])
  }

  lemma CalmByElements(t: State)
    ensures Calm(t) <==> forall e :: e in t.pending ==> !CouldStart(t, e)
  {
    if Calm(t) {
      forall e | e in t.pending ensures !CouldStart(t, e) {
        var i :| 0 <= i < |t.pending| && t.pending[i] == e;
        assert StillAlive(t, t.pending[i]) ==> !Satisfied(t, e.fiber, t.arena[e.fiber].realm, e.plugin, []);
      }
    } else {
      var i :| 0 <= i < |t.pending| && StillAlive(t, t.pending[i]) &&
               Satisfied(t, t.pending[i].fiber, t.arena[t.pending[i].fiber].realm, t.pending[i].plugin, []);
      assert CouldStart(t, t.pending[i]);
    }
  }

  lemma StrandedCouldStart(s: State, dead: set<FiberId>, root: FiberId, final: Phase, e: Entry)
    requires IdsOk(s) && QueueOk(s) && Quiescent(s) && e in s.pending
    ensures e.fiber in s.arena
    ensures var t := Torn(s, dead, root, final);
            Stranded(s, dead, e) <==> e in t.pending && CouldStart(t, e)
  {
    var i :| 0 <= i < |s.pending| && s.pending[i] == e;
    SurvivorsQueue(s, dead, root, final, e);
    if e.fiber !in dead {
      StrandedIsSatisfied(s, dead, root, final, e);
    }
  }

  /** Exactly when a teardown leaves a queued fiber that could start but is not woken. */
  lemma CalmUnlessStranded(s: State, dead: set<FiberId>, root: FiberId, final: Phase)
    requires IdsOk(s) && QueueOk(s) && Quiescent(s)
    ensures Calm(Torn(s, dead, root, final)) <==>
            forall e :: e in s.pending ==> e.fiber in s.arena && !Stranded(s, dead, e)
  {
    ghost var t := Torn(s, dead, root, final);
    CalmByElements(t);
    forall e | e in s.pending
      ensures e.fiber in s.arena && (Stranded(s, dead, e) <==> e in t.pending && CouldStart(t, e))
    {
      StrandedCouldStart(s, dead, root, final, e);
    }
    forall e | e in t.pending ensures e in s.pending {
      SurvivorsQueue(s, dead, root, final, e);
    }
  }

  /** A disposal leaves a calm kernel calm exactly if its closure strands nobody. */
  lemma DisposalStaysCalm(s: State, f: FiberId, final: Phase)
    requires IdsOk(s) && QueueOk(s) && Quiescent(s) && Calm(s)
    ensures Calm(DisposeState(s, f, final)) <==>
              !Live(s, f) || forall e :: e in s.pending ==> e.fiber in s.arena && !Stranded(s, Doomed(s, f), e)
  {
    CalmUnlessStranded(s, Doomed(s, f), f, final);
  }

  /** A run goes on with any enabled operation. */
  lemma RunGoesOn(ops: seq<Op>, s: State, op: Op)
    requires Run(ops, s) && IsFresh(s) && Enabled(s, op)
    ensures Run(ops + [op], Apply(s, op))
  {
    assert (ops + [op])[..|ops|] == ops;
  }
}
