// The public operations in closed form, and the invariant over all their runs.

module Operations {
  import opened Basics
  import opened Realms
  import opened KernelState
  import opened Disposal
  import opened Teardown
  import opened Start

  /** A context names a fiber and a realm the kernel created. */
  predicate Known(s: State, ctx: Ctx)
  {
    ctx.fiber in s.arena && ctx.realm in s.realms
  }

  /** A fresh, registered, Pending fiber below the context's fiber. */
  function CreateFiber(s: State, ctx: Ctx): State
  {
    s.(nextFiber := s.nextFiber + 1,
       arena := s.arena[s.nextFiber := Fiber(ctx.fiber, ctx.realm, Pending, false, [], [], [], [])],
       registry := s.registry + {s.nextFiber})
  }

  /** Below a fiber that is gone or going the child is born disposed. */
  function BornDisposed(s: State, ctx: Ctx): State
  {
    s.(nextFiber := s.nextFiber + 1,
       arena := s.arena[s.nextFiber := Fiber(ctx.fiber, ctx.realm, Disposed, true, [], [], [], [])])
  }

  function Register(s: State, ctx: Ctx, plugin: Plugin): State
  {
    var id := s.nextFiber;
    var t := CreateFiber(s, ctx);
    if !Active(t, ctx.fiber) then BornDisposed(s, ctx)
    else if Satisfied(t, id, ctx.realm, plugin, []) then StartFiber(t, Entry(id, plugin))
    else t.(pending := t.pending + [Entry(id, plugin)])
  }

  function Enqueue(s: State, ctx: Ctx, plugin: Plugin): State
  {
    var t := CreateFiber(s, ctx);
    if !Active(t, ctx.fiber) then BornDisposed(s, ctx)
    else t.(pending := t.pending + [Entry(s.nextFiber, plugin)])
  }

  function EnqueueAll(s: State, ctx: Ctx, plugins: seq<Plugin>): State
  {
    if plugins == [] then s
    else Enqueue(EnqueueAll(s, ctx, plugins[..|plugins| - 1]), ctx, plugins[|plugins| - 1])
  }

  function RegisterBatch(s: State, ctx: Ctx, plugins: seq<Plugin>): State
  {
    Wake(EnqueueAll(s, ctx, plugins))
  }

  function Fork(s: State, ctx: Ctx): State
  {
    var t := CreateFiber(s, ctx);
    if !Active(t, ctx.fiber) then BornDisposed(s, ctx)
    else t.(arena := t.arena[s.nextFiber := t.arena[s.nextFiber].(phase := Ready)])
  }

  function Derive(s: State, ctx: Ctx): State
    requires IsFresh(s) && Known(s, ctx)
  {
    s.(nextRealm := s.nextRealm + 1, realms := s.realms[s.nextRealm := Realm(Some(ctx.realm), map[])])
  }

  /** Fresh realm ids are younger than every realm. */
  ghost predicate IsFresh(s: State)
  {
    forall r :: r in s.realms ==> r < s.nextRealm
  }

  /** `Ctx::effect`: only a registered fiber accepts a cleanup. */
  function AddEffect(s: State, f: FiberId, e: Effect): State
  {
    if f in s.registry && f in s.arena
    then s.(arena := s.arena[f := s.arena[f].(disposables := s.arena[f].disposables + [e])])
    else s
  }

  function Middlewares(s: State, p: Point): seq<Middleware>
  {
    if p in s.pipelines then s.pipelines[p] else []
  }

  function AddMiddleware(s: State, ctx: Ctx, p: Point, prepend: bool): State
  {
    AddEffect(WithMiddleware(s, ctx, p, prepend), ctx.fiber, RemoveMiddleware(p, s.nextHandler))
  }

  function WithMiddleware(s: State, ctx: Ctx, p: Point, prepend: bool): State
  {
    s.(nextHandler := s.nextHandler + 1,
       pipelines := s.pipelines[p := Middlewares(s, p) + [Middleware(ctx.realm, ctx.fiber, s.nextHandler, prepend)]])
  }

  /** The first half of `provide`: bind the value and hand its cleanup to the fiber. */
  function Bind(s: State, ctx: Ctx, k: Key, v: Value): State
    requires Known(s, ctx)
  {
    var node := s.realms[ctx.realm];
    var rec := s.arena[ctx.fiber];
    s.(realms := s.realms[ctx.realm := node.(services := node.services[k := v])],
       arena := s.arena[ctx.fiber := rec.(provided := rec.provided + [Provided(k, ctx.realm)],
                                          disposables := rec.disposables + [RemoveService(ctx.realm, k, v)])])
  }

  predicate Replaces(s: State, ctx: Ctx, k: Key, v: Value)
    requires Known(s, ctx)
  {
    k in s.realms[ctx.realm].services && s.realms[ctx.realm].services[k] != v
  }

  ghost function Provide(s: State, ctx: Ctx, k: Key, v: Value): State
    requires Known(s, ctx)
  {
    if !Active(s, ctx.fiber) then s
    else
      var t := Bind(s, ctx, k, v);
      Wake(if Replaces(s, ctx, k, v) then Gone(t, DoomedAll(t, Dependents(t, ctx.realm, k, ctx.fiber))) else t)
  }

  predicate IsStarting(s: State, f: FiberId)
  {
    f in s.arena && s.arena[f].phase.Starting?
  }

  /** A setup task returned without an error. */
  function SetupDone(s: State, f: FiberId): State
    requires f in s.arena
  {
    Wake(if s.arena[f].disposalStarted then s else s.(arena := s.arena[f := s.arena[f].(phase := Ready)]))
  }

  // ---- runs ----

  datatype Op =
    | OpProvide(ctx: Ctx, key: Key, value: Value)
    | OpRegister(ctx: Ctx, plugin: Plugin)
    | OpBatch(ctx: Ctx, plugins: seq<Plugin>)
    | OpFork(ctx: Ctx)
    | OpDerive(ctx: Ctx)
    | OpEffect(fiber: FiberId, token: nat)
    | OpMiddleware(ctx: Ctx, point: Point, prepend: bool)
    | OpSetupDone(fiber: FiberId)
    | OpSetupFailed(fiber: FiberId)
    | OpDispose(fiber: FiberId)

  /** Contexts and handles come from the kernel; a setup task ends only while its fiber is Starting. */
  predicate Enabled(s: State, op: Op)
  {
    match op
    case OpProvide(ctx, _, _) => Known(s, ctx)
    case OpRegister(ctx, _) => Known(s, ctx)
    case OpBatch(ctx, _) => Known(s, ctx)
    case OpFork(ctx) => Known(s, ctx)
    case OpDerive(ctx) => Known(s, ctx)
    case OpEffect(_, _) => true
    case OpMiddleware(ctx, _, _) => Known(s, ctx)
    case OpSetupDone(f) => IsStarting(s, f)
    case OpSetupFailed(f) => IsStarting(s, f)
    case OpDispose(f) => f in s.arena
  }

  ghost function Apply(s: State, op: Op): State
    requires IsFresh(s) && Enabled(s, op)
  {
    match op
    case OpProvide(ctx, k, v) => Provide(s, ctx, k, v)
    case OpRegister(ctx, plugin) => Register(s, ctx, plugin)
    case OpBatch(ctx, plugins) => RegisterBatch(s, ctx, plugins)
    case OpFork(ctx) => Fork(s, ctx)
    case OpDerive(ctx) => Derive(s, ctx)
    case OpEffect(f, token) => AddEffect(s, f, Cleanup(token))
    case OpMiddleware(ctx, p, prepend) => AddMiddleware(s, ctx, p, prepend)
    case OpSetupDone(f) => SetupDone(s, f)
    case OpSetupFailed(f) => DisposeState(s, f, Failed)
    case OpDispose(f) => DisposeState(s, f, Disposed)
  }

  /** The states a kernel can be in between two operations. */
  ghost predicate Run(ops: seq<Op>, s: State)
  {
    if ops == [] then s == Init()
    else exists t :: Run(ops[..|ops| - 1], t) && IsFresh(t) && Enabled(t, ops[|ops| - 1])
                    && s == Apply(t, ops[|ops| - 1])
  }

  // ---- every operation keeps the invariant ----

  lemma CreateKeeps(s: State, ctx: Ctx)
    requires Core(s) && Known(s, ctx) && ctx.fiber in s.registry
    ensures var t := CreateFiber(s, ctx);
            IdsOk(t) && Quiescent(t) && TreeOk(t) && CleanupsOk(t) && BindingsOwned(t)
              && HardSound(t) && MiddlewaresOk(t)
  {
    var t := CreateFiber(s, ctx);
    assert forall f :: f in s.arena ==> t.arena[f] == s.arena[f];
    forall r, k | r in t.realms && k in t.realms[r].services ensures Owned(t, r, k, t.realms[r].services[k]) {
      assert Owned(s, r, k, s.realms[r].services[k]);
    }
    forall p, m | p in t.pipelines && m in t.pipelines[p] ensures MiddlewareOk(t, p, m) {
      assert MiddlewareOk(s, p, m);
    }
  }

  lemma BornDisposedKeeps(s: State, ctx: Ctx)
    requires Core(s) && Known(s, ctx)
    ensures Core(BornDisposed(s, ctx))
  {
    var t := BornDisposed(s, ctx);
    assert forall f :: f in s.arena ==> t.arena[f] == s.arena[f];
    forall r, k | r in t.realms && k in t.realms[r].services ensures Owned(t, r, k, t.realms[r].services[k]) {
      assert Owned(s, r, k, s.realms[r].services[k]);
    }
    forall p, m | p in t.pipelines && m in t.pipelines[p] ensures MiddlewareOk(t, p, m) {
      assert MiddlewareOk(s, p, m);
    }
    forall i | 0 <= i < |t.pending|
      ensures t.pending[i].fiber in t.registry && t.pending[i].fiber in t.arena
              && t.arena[t.pending[i].fiber].phase.Pending?
    {
      assert s.pending[i].fiber in s.registry;
    }
  }

  lemma EnqueueKeeps(s: State, ctx: Ctx, plugin: Plugin)
    requires Core(s) && Known(s, ctx)
    ensures Core(Enqueue(s, ctx, plugin)) && Known(Enqueue(s, ctx, plugin), ctx)
  {
    if Active(CreateFiber(s, ctx), ctx.fiber) {
      CreateKeeps(s, ctx);
      var t, u := CreateFiber(s, ctx), Enqueue(s, ctx, plugin);
      forall r, k | r in u.realms && k in u.realms[r].services ensures Owned(u, r, k, u.realms[r].services[k]) {
        assert Owned(t, r, k, t.realms[r].services[k]);
      }
      forall p, m | p in u.pipelines && m in u.pipelines[p] ensures MiddlewareOk(u, p, m) {
        assert MiddlewareOk(t, p, m);
      }
      QueueGrows(s, ctx, plugin);
    } else {
      BornDisposedKeeps(s, ctx);
    }
  }

  lemma QueueGrows(s: State, ctx: Ctx, plugin: Plugin)
    requires IdsOk(s) && QueueOk(s)
    ensures var t := CreateFiber(s, ctx); QueueOk(t.(pending := t.pending + [Entry(s.nextFiber, plugin)]))
  {
    var n, e := |s.pending|, Entry(s.nextFiber, plugin);
    var t := CreateFiber(s, ctx);
    var q := s.pending + [e];
    forall i | 0 <= i < n ensures q[i].fiber in s.registry && q[i].fiber in s.arena && q[i].fiber < s.nextFiber
                                  && t.arena[q[i].fiber].phase.Pending?
    {
      assert s.pending[i].fiber in s.arena;
    }
    forall f | f in t.registry && f in t.arena && t.arena[f].phase.Pending?
      ensures exists i :: 0 <= i < |q| && q[i].fiber == f
    {
      if f == s.nextFiber {
        assert q[n].fiber == f;
      } else {
        var i :| 0 <= i < n && s.pending[i].fiber == f;
        assert q[i].fiber == f;
      }
    }
  }

  lemma {:induction false} EnqueueAllKeeps(s: State, ctx: Ctx, plugins: seq<Plugin>)
    requires Core(s) && Known(s, ctx)
    ensures Core(EnqueueAll(s, ctx, plugins)) && Known(EnqueueAll(s, ctx, plugins), ctx)
  {
    if plugins != [] {
      EnqueueAllKeeps(s, ctx, plugins[..|plugins| - 1]);
      EnqueueKeeps(EnqueueAll(s, ctx, plugins[..|plugins| - 1]), ctx, plugins[|plugins| - 1]);
    }
  }

  lemma BatchKeeps(s: State, ctx: Ctx, plugins: seq<Plugin>)
    requires Core(s) && Known(s, ctx)
    ensures Inv(RegisterBatch(s, ctx, plugins)) && Calm(RegisterBatch(s, ctx, plugins))
  {
    EnqueueAllKeeps(s, ctx, plugins);
    WakeKeepsCore(EnqueueAll(s, ctx, plugins));
    WakeCalms(EnqueueAll(s, ctx, plugins));
  }

  /** A newborn fiber may leave Pending at once when every key it injects resolves. */
  lemma NewbornRuns(s: State, ctx: Ctx, rec: Fiber)
    requires Core(s) && Known(s, ctx) && ctx.fiber in s.registry
    requires SameButPhase(CreateFiber(s, ctx).arena[s.nextFiber], rec) && (rec.phase.Starting? || rec.phase.Ready?)
    requires forall k :: k in rec.injected ==> Resolve(s.realms, ctx.realm, k).Some?
    ensures var t := CreateFiber(s, ctx); Core(t.(arena := t.arena[s.nextFiber := rec]))
  {
    var t := CreateFiber(s, ctx);
    var u := t.(arena := t.arena[s.nextFiber := rec]);
    CreateKeeps(s, ctx);
    NewbornHoldings(s, t, u);
    SameHoldingsKeep(t, u);
    NewbornRest(s, t, u);
  }

  /** The parts of the invariant that look at the newborn's phase. */
  lemma NewbornRest(s: State, t: State, u: State)
    requires RootOk(s) && IdsOk(s) && QueueOk(s) && Quiescent(t) && HardSound(t)
    requires t.pending == s.pending && t.registry == s.registry + {s.nextFiber}
    requires s.nextFiber in t.arena && s.nextFiber in u.arena && t.arena == s.arena[s.nextFiber := t.arena[s.nextFiber]]
    requires u == t.(arena := t.arena[s.nextFiber := u.arena[s.nextFiber]])
    requires !u.arena[s.nextFiber].disposalStarted
    requires u.arena[s.nextFiber].phase.Starting? || u.arena[s.nextFiber].phase.Ready?
    requires forall k :: k in u.arena[s.nextFiber].injected ==> Resolve(u.realms, u.arena[s.nextFiber].realm, k).Some?
    ensures RootOk(u) && QueueOk(u) && Quiescent(u) && HardSound(u)
  {
    NewbornHardSound(s, t, u);
    NewbornQueueOk(s, t, u);
    NewbornQuiescent(s, t, u);
    NewbornRootOk(s, t, u);
  }

  lemma NewbornHoldings(s: State, t: State, u: State)
    requires s.nextFiber in t.arena && s.nextFiber in u.arena
    requires u == t.(arena := t.arena[s.nextFiber := u.arena[s.nextFiber]])
    requires SameButPhase(t.arena[s.nextFiber], u.arena[s.nextFiber])
    ensures SameHoldings(t, u)
  {
  }

  lemma NewbornRootOk(s: State, t: State, u: State)
    requires RootOk(s) && IdsOk(s) && s.nextFiber in u.arena
    requires forall f :: f in s.arena ==> f in t.arena && t.arena[f] == s.arena[f]
    requires u == t.(arena := t.arena[s.nextFiber := u.arena[s.nextFiber]])
    ensures RootOk(u)
  {
  }

  lemma NewbornQuiescent(s: State, t: State, u: State)
    requires Quiescent(t) && s.nextFiber in t.registry && s.nextFiber in t.arena && s.nextFiber in u.arena
    requires u == t.(arena := t.arena[s.nextFiber := u.arena[s.nextFiber]])
    requires !u.arena[s.nextFiber].disposalStarted && !u.arena[s.nextFiber].phase.Terminal()
    ensures Quiescent(u)
  {
  }

  lemma NewbornHardSound(s: State, t: State, u: State)
    requires HardSound(t) && s.nextFiber in t.arena && s.nextFiber in u.arena
    requires u == t.(arena := t.arena[s.nextFiber := u.arena[s.nextFiber]])
    requires forall k :: k in u.arena[s.nextFiber].injected ==> Resolve(u.realms, u.arena[s.nextFiber].realm, k).Some?
    ensures HardSound(u)
  {
  }

  lemma NewbornQueueOk(s: State, t: State, u: State)
    requires IdsOk(s) && QueueOk(s) && t.pending == s.pending && t.registry == s.registry + {s.nextFiber}
    requires s.nextFiber in t.arena && s.nextFiber in u.arena
    requires forall f :: f in s.arena ==> f in t.arena && t.arena[f] == s.arena[f]
    requires t.arena.Keys == s.arena.Keys + {s.nextFiber}
    requires u == t.(arena := t.arena[s.nextFiber := u.arena[s.nextFiber]]) && !u.arena[s.nextFiber].phase.Pending?
    ensures QueueOk(u)
  {
    assert forall f :: f in s.arena ==> f < s.nextFiber && u.arena[f] == s.arena[f];
    assert forall i :: 0 <= i < |s.pending| ==> s.pending[i].fiber in s.arena;
  }

  /** A newborn fiber that starts at once has every hard dependency resolved. */
  lemma StartNewbornKeeps(s: State, ctx: Ctx, plugin: Plugin)
    requires Core(s) && Known(s, ctx) && ctx.fiber in s.registry
    requires Satisfied(CreateFiber(s, ctx), s.nextFiber, ctx.realm, plugin, [])
    ensures Core(StartFiber(CreateFiber(s, ctx), Entry(s.nextFiber, plugin)))
  {
    var t := CreateFiber(s, ctx);
    forall k | k in HardKeys(plugin.inject) ensures Resolve(s.realms, ctx.realm, k).Some? {
      HardKeysMembers(plugin.inject, k);
      var j :| 0 <= j < |plugin.inject| && plugin.inject[j] == Hard(k);
      assert DependencySatisfied(t, s.nextFiber, ctx.realm, plugin.inject[j], []);
    }
    NewbornRuns(s, ctx, Started(t.arena[s.nextFiber], plugin));
  }

  lemma RegisterKeepsCore(s: State, ctx: Ctx, plugin: Plugin)
    requires Core(s) && Known(s, ctx)
    ensures Core(Register(s, ctx, plugin))
  {
    var t := CreateFiber(s, ctx);
    if !Active(t, ctx.fiber) {
      BornDisposedKeeps(s, ctx);
    } else if Satisfied(t, s.nextFiber, ctx.realm, plugin, []) {
      StartNewbornKeeps(s, ctx, plugin);
    } else {
      EnqueueKeeps(s, ctx, plugin);
    }
  }

  lemma ForkKeepsCore(s: State, ctx: Ctx)
    requires Core(s) && Known(s, ctx)
    ensures Core(Fork(s, ctx))
  {
    var t := CreateFiber(s, ctx);
    if !Active(t, ctx.fiber) {
      BornDisposedKeeps(s, ctx);
    } else {
      NewbornRuns(s, ctx, t.arena[s.nextFiber].(phase := Ready));
    }
  }

  lemma DeriveKeepsCore(s: State, ctx: Ctx)
    requires Core(s) && Known(s, ctx)
    ensures Core(Derive(s, ctx))
  {
    var t := Derive(s, ctx);
    assert forall r :: r in s.realms ==> t.realms[r] == s.realms[r];
    forall r, k | r in t.realms && k in t.realms[r].services ensures Owned(t, r, k, t.realms[r].services[k]) {
      assert Owned(s, r, k, s.realms[r].services[k]);
    }
    forall f, k | f in t.registry && f in t.arena
                  && (t.arena[f].phase.Starting? || t.arena[f].phase.Ready?) && k in t.arena[f].injected
      ensures Resolve(t.realms, t.arena[f].realm, k).Some?
    {
      DerivedRealmIsInvisible(s.realms, t.realms, s.arena[f].realm, k);
    }
    forall p, m | p in t.pipelines && m in t.pipelines[p] ensures MiddlewareOk(t, p, m) {
      assert MiddlewareOk(s, p, m);
    }
  }

  /** Registered fibers took on further cleanups, none of them the cleanup of a service. */
  ghost predicate TookCleanups(s: State, t: State)
  {
    && t == s.(arena := t.arena, pipelines := t.pipelines, nextHandler := t.nextHandler)
    && t.arena.Keys == s.arena.Keys
    && forall f :: f in s.arena ==> MoreCleanups(s, f, t.arena[f])
  }

  ghost predicate MoreCleanups(s: State, f: FiberId, rec: Fiber)
    requires f in s.arena
  {
    && rec == s.arena[f].(disposables := rec.disposables)
    && (f !in s.registry ==> rec == s.arena[f])
    && (forall e :: e in s.arena[f].disposables ==> e in rec.disposables)
    && (forall e :: e in rec.disposables && e.RemoveService? ==> e in s.arena[f].disposables)
  }

  lemma TookCleanupsKeeps(s: State, t: State)
    requires Core(s) && TookCleanups(s, t) && MiddlewaresOk(t)
    ensures Core(t)
  {
    assert forall f :: f in s.arena ==> MoreCleanups(s, f, t.arena[f]);
    forall r, k | r in t.realms && k in t.realms[r].services ensures Owned(t, r, k, t.realms[r].services[k]) {
      var v := s.realms[r].services[k];
      assert Owned(s, r, k, v);
      var g :| g in s.registry && g in s.arena && RemoveService(r, k, v) in s.arena[g].disposables;
      assert RemoveService(r, k, v) in t.arena[g].disposables;
    }
  }

  lemma AddEffectTakes(s: State, f: FiberId, e: Effect)
    requires !e.RemoveService?
    ensures TookCleanups(s, AddEffect(s, f, e))
  {
  }

  lemma CleanupKeepsMiddlewares(s: State, f: FiberId, token: nat)
    requires MiddlewaresOk(s)
    ensures MiddlewaresOk(AddEffect(s, f, Cleanup(token)))
  {
    var t := AddEffect(s, f, Cleanup(token));
    forall g | g in s.arena
      ensures forall e: Effect :: !e.Cleanup? ==> (e in t.arena[g].disposables <==> e in s.arena[g].disposables)
    {
    }
    forall p, m | p in t.pipelines && m in t.pipelines[p] ensures MiddlewareOk(t, p, m) {
      assert MiddlewareOk(s, p, m);
    }
  }

  lemma CleanupKeepsCore(s: State, f: FiberId, token: nat)
    requires Core(s)
    ensures Core(AddEffect(s, f, Cleanup(token)))
  {
    AddEffectTakes(s, f, Cleanup(token));
    CleanupKeepsMiddlewares(s, f, token);
    TookCleanupsKeeps(s, AddEffect(s, f, Cleanup(token)));
  }

  lemma MiddlewareKeepsMiddlewares(s: State, ctx: Ctx, p: Point, prepend: bool)
    requires MiddlewaresOk(s) && Known(s, ctx)
    ensures MiddlewaresOk(AddMiddleware(s, ctx, p, prepend))
  {
    var t := AddMiddleware(s, ctx, p, prepend);
    forall q, m | q in t.pipelines && m in t.pipelines[q] ensures MiddlewareOk(t, q, m) {
      AddedMiddlewareOk(s, ctx, p, prepend, q, m);
    }
    assert Ascending(t.pipelines[p]) by {
      var ms := Middlewares(s, p);
      forall i | 0 <= i < |ms| ensures ms[i].id < s.nextHandler {
        assert MiddlewareOk(s, p, ms[i]);
      }
    }
  }

  lemma MiddlewareKeepsCore(s: State, ctx: Ctx, p: Point, prepend: bool)
    requires Core(s) && Known(s, ctx)
    ensures Core(AddMiddleware(s, ctx, p, prepend))
  {
    var t := AddMiddleware(s, ctx, p, prepend);
    AddEffectTakes(s.(nextHandler := t.nextHandler, pipelines := t.pipelines), ctx.fiber,
                       RemoveMiddleware(p, s.nextHandler));
    MiddlewareKeepsMiddlewares(s, ctx, p, prepend);
    TookCleanupsKeeps(s, t);
  }

  lemma AddedMiddlewareOk(s: State, ctx: Ctx, p: Point, prepend: bool, q: Point, m: Middleware)
    requires MiddlewaresOk(s) && Known(s, ctx)
    requires var t := AddMiddleware(s, ctx, p, prepend); q in t.pipelines && m in t.pipelines[q]
    ensures MiddlewareOk(AddMiddleware(s, ctx, p, prepend), q, m)
  {
    var t := AddMiddleware(s, ctx, p, prepend);
    assert forall g :: g in s.arena && g != ctx.fiber ==> t.arena[g] == s.arena[g];
    if m in Middlewares(s, q) {
      assert MiddlewareOk(s, q, m);
      assert forall g :: g in s.arena && RemoveMiddleware(q, m.id) in t.arena[g].disposables ==>
               RemoveMiddleware(q, m.id) in s.arena[g].disposables;
    } else {
      assert q == p && m == Middleware(ctx.realm, ctx.fiber, s.nextHandler, prepend);
      assert forall g :: g in s.arena ==> RemoveMiddleware(p, m.id) !in s.arena[g].disposables;
    }
  }
}
