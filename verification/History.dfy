// What stays true of one fiber from its birth on: where it hangs, what it holds, which plugin it runs.

module History {
  import opened Basics
  import opened Realms
  import opened KernelState
  import opened Disposal
  import opened Teardown
  import opened Start
  import opened Operations
  import opened Runs
  import opened Closure
  import opened Readiness

  /** While registered, the fiber waits in the queue with this plugin, or runs on exactly this plugin. */
  ghost predicate Serves(s: State, f: FiberId, plugin: Plugin)
  {
    && f in s.arena
    && (f in s.registry ==>
          && (s.arena[f].phase.Pending? ==> Entry(f, plugin) in s.pending)
          && (IsRunning(s.arena[f]) ==> RunsPlugin(s.arena[f], plugin)))
  }

  /**
   * From `s` to `t` the fiber keeps its place; if it is registered in `t` it was in `s`, and its cleanups and
   * services were only added to, at the end.
   */
  ghost predicate GoesOn(s: State, t: State, f: FiberId)
  {
    f in s.arena ==>
      && f in t.arena && t.arena[f].parent == s.arena[f].parent && t.arena[f].realm == s.arena[f].realm
      && (f in t.registry ==>
            && f in s.registry
            && s.arena[f].disposables <= t.arena[f].disposables && s.arena[f].provided <= t.arena[f].provided)
  }

  ghost predicate Tracks(s: State, t: State, f: FiberId)
  {
    GoesOn(s, t, f) && forall plugin :: Serves(s, f, plugin) ==> Serves(t, f, plugin)
  }

  lemma TracksOnward(s: State, t: State, u: State, f: FiberId)
    requires Tracks(s, t, f) && Tracks(t, u, f)
    ensures Tracks(s, u, f)
  {
  }

  // ---- steps ----

  /** Old records may gain cleanups and services at their end; nothing old is unqueued or registered anew. */
  ghost predicate OnlyGains(s: State, t: State, f: FiberId)
  {
    f in s.arena ==>
      && f in t.arena
      && t.arena[f] == s.arena[f].(disposables := t.arena[f].disposables, provided := t.arena[f].provided)
      && s.arena[f].disposables <= t.arena[f].disposables && s.arena[f].provided <= t.arena[f].provided
      && (f in t.registry ==> f in s.registry)
      && (forall e :: e in s.pending ==> e in t.pending)
  }

  lemma GainsTrack(s: State, t: State, f: FiberId)
    requires OnlyGains(s, t, f)
    ensures Tracks(s, t, f)
  {
  }

  lemma TornTracks(s: State, dead: set<FiberId>, root: FiberId, final: Phase, f: FiberId)
    ensures Tracks(s, Torn(s, dead, root, final), f)
  {
    KeepQueueIsFilter(s.pending, dead);
    var t := Torn(s, dead, root, final);
    if f in s.arena && f in t.registry { assert t.arena[f] == s.arena[f]; }
  }

  lemma DisposalTracks(s: State, g: FiberId, final: Phase, f: FiberId)
    ensures Tracks(s, DisposeState(s, g, final), f)
  {
    if Live(s, g) { TornTracks(s, Doomed(s, g), g, final, f); }
  }

  lemma WakeTracks(s: State, f: FiberId)
    requires Core(s)
    ensures Tracks(s, Wake(s), f)
  {
    WakeIsPass(s);
    PassRecords(s, Woken(s), Wake(s));
    if f in s.arena {
      assert SameButPhase(s.arena[f], Wake(s).arena[f]);
      forall plugin | Serves(s, f, plugin) ensures Serves(Wake(s), f, plugin) {
        if f in s.registry { WakeServes(s, Wake(s), f, plugin); }
      }
    }
  }

  lemma WakeServes(s: State, t: State, f: FiberId, plugin: Plugin)
    requires Core(s) && t == Wake(s) && f in s.registry && Serves(s, f, plugin)
    ensures Serves(t, f, plugin)
  {
    if s.arena[f].phase.Pending? {
      PassStartsPlugins(s, t, Entry(f, plugin));
    } else {
      WakeIsPass(s);
      OthersStay(s, t, f);
    }
  }

  lemma OthersStay(s: State, t: State, f: FiberId)
    requires QueueOk(s) && Pass(s, Woken(s), t) && f in s.arena && !s.arena[f].phase.Pending?
    ensures f in t.arena && t.arena[f] == s.arena[f]
  {
    forall e | e in Woken(s) ensures e.fiber != f {
      var i :| 0 <= i < |s.pending| && s.pending[i] == e;
    }
  }

  // ---- every operation ----

  lemma ProvideTracks(s: State, ctx: Ctx, k: Key, v: Value, f: FiberId)
    requires Core(s) && Known(s, ctx)
    ensures Tracks(s, Provide(s, ctx, k, v), f)
  {
    if Active(s, ctx.fiber) {
      var t := Bind(s, ctx, k, v);
      var dead := DoomedAll(t, Dependents(t, ctx.realm, k, ctx.fiber));
      var u := if Replaces(s, ctx, k, v) then Gone(t, dead) else t;
      GainsTrack(s, t, f);
      TornTracks(t, dead, ROOT_FIBER, Disposed, f);
      BoundIsCore(s, ctx, k, v);
      WakeTracks(u, f);
      if Replaces(s, ctx, k, v) { TracksOnward(s, t, u, f); }
      TracksOnward(s, u, Wake(u), f);
    } else {
      GainsTrack(s, s, f);
    }
  }

  lemma BoundIsCore(s: State, ctx: Ctx, k: Key, v: Value)
    requires Core(s) && Known(s, ctx) && Active(s, ctx.fiber)
    ensures var t := Bind(s, ctx, k, v); Core(t) && Core(Gone(t, DoomedAll(t, Dependents(t, ctx.realm, k, ctx.fiber))))
  {
    var t := Bind(s, ctx, k, v);
    var users := Dependents(t, ctx.realm, k, ctx.fiber);
    BindKeepsCore(s, ctx, k, v);
    DoomedAllIsClosed(t, users);
    TornKeepsCore(t, DoomedAll(t, users), ROOT_FIBER, Disposed);
  }

  lemma EnqueueTracks(s: State, ctx: Ctx, plugin: Plugin, f: FiberId)
    requires IdsOk(s)
    ensures Tracks(s, Enqueue(s, ctx, plugin), f)
  {
    GainsTrack(s, Enqueue(s, ctx, plugin), f);
  }

  lemma {:induction false} EnqueueAllTracks(s: State, ctx: Ctx, plugins: seq<Plugin>, f: FiberId)
    requires Core(s) && Known(s, ctx)
    ensures Tracks(s, EnqueueAll(s, ctx, plugins), f)
  {
    if plugins == [] {
      GainsTrack(s, s, f);
    } else {
      var before := EnqueueAll(s, ctx, plugins[..|plugins| - 1]);
      EnqueueAllTracks(s, ctx, plugins[..|plugins| - 1], f);
      EnqueueAllKeeps(s, ctx, plugins[..|plugins| - 1]);
      EnqueueTracks(before, ctx, plugins[|plugins| - 1], f);
      TracksOnward(s, before, EnqueueAll(s, ctx, plugins), f);
    }
  }

  lemma BatchTracks(s: State, ctx: Ctx, plugins: seq<Plugin>, f: FiberId)
    requires Core(s) && Known(s, ctx)
    ensures Tracks(s, RegisterBatch(s, ctx, plugins), f)
  {
    var q := EnqueueAll(s, ctx, plugins);
    EnqueueAllTracks(s, ctx, plugins, f);
    EnqueueAllKeeps(s, ctx, plugins);
    WakeTracks(q, f);
    TracksOnward(s, q, Wake(q), f);
  }

  lemma RegisterTracks(s: State, ctx: Ctx, plugin: Plugin, f: FiberId)
    requires IdsOk(s)
    ensures Tracks(s, Register(s, ctx, plugin), f)
  {
    RegisterOnlyAdds(s, ctx, plugin);
    RegisterGains(s, ctx, plugin, f);
    GainsTrack(s, Register(s, ctx, plugin), f);
  }

  lemma RegisterGains(s: State, ctx: Ctx, plugin: Plugin, f: FiberId)
    requires IdsOk(s)
    ensures OnlyGains(s, Register(s, ctx, plugin), f)
  {
  }

  lemma SetupDoneTracks(s: State, g: FiberId, f: FiberId)
    requires Core(s) && IsStarting(s, g)
    ensures Tracks(s, SetupDone(s, g), f)
  {
    var t := if s.arena[g].disposalStarted then s else s.(arena := s.arena[g := s.arena[g].(phase := Ready)]);
    ReadyTracks(s, g, t, f);
    ReadyIsCore(s, g, t);
    WakeTracks(t, f);
    TracksOnward(s, t, Wake(t), f);
  }

  lemma ReadyTracks(s: State, g: FiberId, t: State, f: FiberId)
    requires IsStarting(s, g)
    requires t == if s.arena[g].disposalStarted then s else s.(arena := s.arena[g := s.arena[g].(phase := Ready)])
    ensures Tracks(s, t, f)
  {
  }

  lemma ReadyIsCore(s: State, g: FiberId, t: State)
    requires Core(s) && IsStarting(s, g)
    requires t == if s.arena[g].disposalStarted then s else s.(arena := s.arena[g := s.arena[g].(phase := Ready)])
    ensures Core(t)
  {
    assert SameHoldings(s, t);
    SameHoldingsKeep(s, t);
    ReadyQueue(s, g, t);
  }

  lemma ReadyQueue(s: State, g: FiberId, t: State)
    requires QueueOk(s) && HardSound(s) && Quiescent(s) && RootOk(s) && IsStarting(s, g)
    requires t == if s.arena[g].disposalStarted then s else s.(arena := s.arena[g := s.arena[g].(phase := Ready)])
    ensures QueueOk(t) && HardSound(t) && Quiescent(t) && RootOk(t)
  {
  }

  lemma ForkTracks(s: State, ctx: Ctx, f: FiberId)
    requires IdsOk(s)
    ensures Tracks(s, Fork(s, ctx), f)
  {
    GainsTrack(s, Fork(s, ctx), f);
  }

  lemma DeriveTracks(s: State, ctx: Ctx, f: FiberId)
    requires IsFresh(s) && Known(s, ctx)
    ensures Tracks(s, Derive(s, ctx), f)
  {
    GainsTrack(s, Derive(s, ctx), f);
  }

  lemma EffectTracks(s: State, g: FiberId, e: Effect, f: FiberId)
    ensures Tracks(s, AddEffect(s, g, e), f)
  {
    GainsTrack(s, AddEffect(s, g, e), f);
  }

  lemma OpTracks(s: State, op: Op, f: FiberId)
    requires Core(s) && Enabled(s, op)
    ensures Tracks(s, Apply(s, op), f)
  {
    match op
    case OpProvide(ctx, k, v) => ProvideTracks(s, ctx, k, v, f);
    case OpRegister(ctx, plugin) => RegisterTracks(s, ctx, plugin, f);
    case OpBatch(ctx, plugins) => BatchTracks(s, ctx, plugins, f);
    case OpFork(ctx) => ForkTracks(s, ctx, f);
    case OpDerive(ctx) => DeriveTracks(s, ctx, f);
    case OpEffect(g, token) => EffectTracks(s, g, Cleanup(token), f);
    case OpMiddleware(ctx, p, prepend) =>
      EffectTracks(WithMiddleware(s, ctx, p, prepend), ctx.fiber, RemoveMiddleware(p, s.nextHandler), f);
    case OpSetupDone(g) => SetupDoneTracks(s, g, f);
    case OpSetupFailed(g) => DisposalTracks(s, g, Failed, f);
    case OpDispose(g) => DisposalTracks(s, g, Disposed, f);
  }

  // ---- a stretch of a run ----

  /** `ops` take the kernel from `s` to `t`. */
  ghost predicate Leads(s: State, ops: seq<Op>, t: State)
    decreases |ops|
  {
    if ops == [] then t == s
    else IsFresh(s) && Enabled(s, ops[0]) && Leads(Apply(s, ops[0]), ops[1..], t)
  }

  lemma {:induction false} LeadsTracks(s: State, ops: seq<Op>, t: State, f: FiberId)
    requires Inv(s) && Leads(s, ops, t)
    ensures Inv(t) && Tracks(s, t, f)
    decreases |ops|
  {
    if ops == [] {
      GainsTrack(s, s, f);
    } else {
      ApplyKeepsInv(s, ops[0]);
      OpTracks(s, ops[0], f);
      LeadsTracks(Apply(s, ops[0]), ops[1..], t, f);
      TracksOnward(s, Apply(s, ops[0]), t, f);
    }
  }

  // ---- births ----

  /** Through which context a fiber was created, and for which plugin; a fork has none. */
  datatype Birth = Birth(ctx: Ctx, plugin: Option<Plugin>)

  function BatchBirths(base: FiberId, ctx: Ctx, plugins: seq<Plugin>): (births: map<FiberId, Birth>)
    ensures forall f :: f in births <==> base <= f < base + |plugins|
    ensures forall i :: 0 <= i < |plugins| ==> base + i in births && births[base + i] == Birth(ctx, Some(plugins[i]))
  {
    if plugins == [] then map[]
    else
      var last := |plugins| - 1;
      BatchBirths(base, ctx, plugins[..last])[base + last := Birth(ctx, Some(plugins[last]))]
  }

  lemma BatchBirth(base: FiberId, ctx: Ctx, plugins: seq<Plugin>, f: FiberId)
    requires f in BatchBirths(base, ctx, plugins)
    ensures base <= f < base + |plugins| && BatchBirths(base, ctx, plugins)[f] == Birth(ctx, Some(plugins[f - base]))
  {
    var i := f - base;
    assert base + i == f && plugins[i] == plugins[f - base];
  }

  /** The fibers an operation creates, as its caller is told: one for a registration, consecutive for a batch. */
  function Announced(s: State, op: Op): map<FiberId, Birth>
  {
    match op
    case OpRegister(ctx, plugin) => map[s.nextFiber := Birth(ctx, Some(plugin))]
    case OpBatch(ctx, plugins) => BatchBirths(s.nextFiber, ctx, plugins)
    case OpFork(ctx) => map[s.nextFiber := Birth(ctx, None)]
    case _ => map[]
  }

  /** A run together with the births it announced. */
  ghost predicate Chronicle(ops: seq<Op>, s: State, births: map<FiberId, Birth>)
  {
    if ops == [] then s == Init() && births == map[]
    else
      var front, last := ops[..|ops| - 1], ops[|ops| - 1];
      exists t, b :: Chronicle(front, t, b) && IsFresh(t) && Enabled(t, last)
                     && s == Apply(t, last) && births == b + Announced(t, last)
  }

  /** The fiber hangs below the fiber and in the realm of its birth, and serves the plugin it was born for. */
  ghost predicate TrueToBirth(s: State, f: FiberId, b: Birth)
  {
    && f in s.arena
    && (f in s.registry ==> s.arena[f].parent == b.ctx.fiber && s.arena[f].realm == b.ctx.realm)
    && (b.plugin.Some? ==> Serves(s, f, b.plugin.value))
  }

  lemma TrueStays(s: State, t: State, f: FiberId, b: Birth)
    requires TrueToBirth(s, f, b) && Tracks(s, t, f)
    ensures TrueToBirth(t, f, b)
  {
  }

  lemma NewbornIsTrue(s: State, op: Op, f: FiberId)
    requires Core(s) && Enabled(s, op) && f in Announced(s, op)
    ensures f >= s.nextFiber && TrueToBirth(Apply(s, op), f, Announced(s, op)[f])
  {
    match op
    case OpRegister(ctx, plugin) => RegisteredIsTrue(s, ctx, plugin);
    case OpBatch(ctx, plugins) =>
      BatchBirth(s.nextFiber, ctx, plugins, f);
      BatchedIsTrue(s, ctx, plugins, f - s.nextFiber, RegisterBatch(s, ctx, plugins));
    case OpFork(ctx) =>
      if Active(s, ctx.fiber) { ForkIsReady(s, ctx); } else { BornDisposedBelowTheDead(s, ctx, Plugin([], [])); }
  }

  lemma RegisteredIsTrue(s: State, ctx: Ctx, plugin: Plugin)
    requires Core(s) && Known(s, ctx)
    ensures TrueToBirth(Register(s, ctx, plugin), s.nextFiber, Birth(ctx, Some(plugin)))
  {
    if Active(s, ctx.fiber) {
      NewcomerStartsIff(s, ctx, plugin);
    } else {
      BornDisposedBelowTheDead(s, ctx, plugin);
    }
  }

  lemma BatchedIsTrue(s: State, ctx: Ctx, plugins: seq<Plugin>, i: nat, t: State)
    requires Core(s) && Known(s, ctx) && i < |plugins| && t == RegisterBatch(s, ctx, plugins)
    ensures TrueToBirth(t, s.nextFiber + i, Birth(ctx, Some(plugins[i])))
  {
    if Active(s, ctx.fiber) {
      BatchTakesOn(s, ctx, plugins, i, t);
    } else {
      DeadBatch(s, ctx, plugins);
      EnqueueAllKeeps(s, ctx, plugins);
      WakeIsPass(EnqueueAll(s, ctx, plugins));
    }
  }

  /** Below a fiber that is gone, `n` fibers were created dead, and nothing was registered. */
  ghost predicate NoneBorn(s: State, ctx: Ctx, n: nat, q: State)
  {
    && IdsOk(q) && ctx.realm in q.realms && ctx.fiber in q.arena && !Active(q, ctx.fiber)
    && q.nextFiber == s.nextFiber + n && q.registry == s.registry
    && (forall f :: s.nextFiber <= f < s.nextFiber + n ==> f in q.arena && f !in q.registry)
  }

  lemma OneMoreDead(s: State, ctx: Ctx, n: nat, before: State, plugin: Plugin)
    requires NoneBorn(s, ctx, n, before)
    ensures NoneBorn(s, ctx, n + 1, Enqueue(before, ctx, plugin))
  {
    assert forall f :: f in before.registry ==> f < before.nextFiber;
  }

  lemma {:induction false} DeadBatch(s: State, ctx: Ctx, plugins: seq<Plugin>)
    requires IdsOk(s) && Known(s, ctx) && !Active(s, ctx.fiber)
    ensures NoneBorn(s, ctx, |plugins|, EnqueueAll(s, ctx, plugins))
  {
    if plugins != [] {
      var last := |plugins| - 1;
      DeadBatch(s, ctx, plugins[..last]);
      OneMoreDead(s, ctx, last, EnqueueAll(s, ctx, plugins[..last]), plugins[last]);
    }
  }

  /** All fibers but the root have a recorded birth they are true to. */
  ghost predicate AllTrue(s: State, births: map<FiberId, Birth>)
  {
    forall f :: f in births ==> ROOT_FIBER < f < s.nextFiber && TrueToBirth(s, f, births[f])
  }

  lemma AllStayTrue(s: State, op: Op, births: map<FiberId, Birth>)
    requires Inv(s) && Enabled(s, op) && AllTrue(s, births)
    ensures AllTrue(Apply(s, op), births + Announced(s, op))
  {
    var t, all := Apply(s, op), births + Announced(s, op);
    IdsOnlyGrow(s, op);
    assert ROOT_FIBER < s.nextFiber;
    forall f | f in all ensures ROOT_FIBER < f < t.nextFiber && TrueToBirth(t, f, all[f]) {
      if f in Announced(s, op) {
        NewbornIsTrue(s, op, f);
        NewbornIsKnown(s, op, f);
      } else {
        OpTracks(s, op, f);
        TrueStays(s, t, f, births[f]);
      }
    }
  }

  lemma NewbornIsKnown(s: State, op: Op, f: FiberId)
    requires Inv(s) && Enabled(s, op) && f in Announced(s, op) && f in Apply(s, op).arena
    ensures f < Apply(s, op).nextFiber
  {
    ApplyKeepsInv(s, op);
  }

  lemma IdsOnlyGrow(s: State, op: Op)
    requires Inv(s) && Enabled(s, op)
    ensures s.nextFiber <= Apply(s, op).nextFiber
  {
    match op
    case OpProvide(ctx, k, v) => ProvideKeepsIds(s, ctx, k, v);
    case OpBatch(ctx, plugins) => BatchKeepsIds(s, ctx, plugins);
    case OpSetupDone(f) => WakeKeepsIds(if s.arena[f].disposalStarted then s
                                        else s.(arena := s.arena[f := s.arena[f].(phase := Ready)]));
    case _ =>
  }

  lemma {:induction false} StartAllKeepsIds(s: State, ready: seq<Entry>)
    ensures StartAll(s, ready).nextFiber == s.nextFiber
    decreases ready
  {
    if ready != [] { StartAllKeepsIds(StartFiber(s, ready[0]), ready[1..]); }
  }

  lemma WakeKeepsIds(s: State)
    ensures Wake(s).nextFiber == s.nextFiber
  {
    StartAllKeepsIds(s.(pending := RestOf(s, s.pending)), ReadyOf(s, s.pending));
  }

  lemma ProvideKeepsIds(s: State, ctx: Ctx, k: Key, v: Value)
    requires Known(s, ctx)
    ensures Provide(s, ctx, k, v).nextFiber == s.nextFiber
  {
    var t := Bind(s, ctx, k, v);
    WakeKeepsIds(if Replaces(s, ctx, k, v) then Gone(t, DoomedAll(t, Dependents(t, ctx.realm, k, ctx.fiber))) else t);
  }

  lemma {:induction false} BatchKeepsIds(s: State, ctx: Ctx, plugins: seq<Plugin>)
    ensures s.nextFiber <= EnqueueAll(s, ctx, plugins).nextFiber
    ensures s.nextFiber <= RegisterBatch(s, ctx, plugins).nextFiber
  {
    WakeKeepsIds(EnqueueAll(s, ctx, plugins));
    if plugins != [] { BatchKeepsIds(s, ctx, plugins[..|plugins| - 1]); }
  }

  /** Over every run each fiber is true to its birth. */
  lemma {:induction false} EveryFiberIsTrue(ops: seq<Op>, s: State, births: map<FiberId, Birth>)
    requires Chronicle(ops, s, births)
    ensures Inv(s) && AllTrue(s, births)
    decreases |ops|
  {
    if ops == [] {
      InitInv();
    } else {
      var front, last := ops[..|ops| - 1], ops[|ops| - 1];
      var t, b :| Chronicle(front, t, b) && IsFresh(t) && Enabled(t, last)
                  && s == Apply(t, last) && births == b + Announced(t, last);
      EveryFiberIsTrue(front, t, b);
      ApplyKeepsInv(t, last);
      AllStayTrue(t, last, b);
    }
  }

  /** Every run has its births. */
  lemma {:induction false} EveryRunHasBirths(ops: seq<Op>, s: State) returns (births: map<FiberId, Birth>)
    requires Run(ops, s)
    ensures Chronicle(ops, s, births)
    decreases |ops|
  {
    if ops == [] {
      births := map[];
    } else {
      var front, last := ops[..|ops| - 1], ops[|ops| - 1];
      var t :| Run(front, t) && IsFresh(t) && Enabled(t, last) && s == Apply(t, last);
      var b := EveryRunHasBirths(front, t);
      births := b + Announced(t, last);
    }
  }

  // ---- what follows over every run ----

  /**
   * The hard promise: over every run, every hard key of the plugin that a running fiber was created for resolves
   * in the realm it was created in.
   */
  lemma HardKeysResolve(ops: seq<Op>, s: State, births: map<FiberId, Birth>, f: FiberId, plugin: Plugin, k: Key)
    requires Chronicle(ops, s, births) && f in births && births[f].plugin == Some(plugin) && Hard(k) in plugin.inject
    requires f in s.registry && f in s.arena && IsRunning(s.arena[f])
    ensures Resolve(s.realms, births[f].ctx.realm, k).Some?
  {
    EveryFiberIsTrue(ops, s, births);
    assert TrueToBirth(s, f, births[f]);
  }

  /** And whoever provided the binding that such a key resolves to takes the fiber down with it. */
  lemma HardUsersFall(ops: seq<Op>, s: State, births: map<FiberId, Birth>, f: FiberId, plugin: Plugin, k: Key,
                      y: FiberId, final: Phase)
    requires Chronicle(ops, s, births) && f in births && births[f].plugin == Some(plugin) && Hard(k) in plugin.inject
    requires f in s.registry && f in s.arena && IsRunning(s.arena[f])
    requires Live(s, y) && y != f && Resolve(s.realms, births[f].ctx.realm, k).Some?
    requires Provided(k, Resolve(s.realms, births[f].ctx.realm, k).value) in s.arena[y].provided
    ensures var t := DisposeState(s, y, final); f in t.arena && f !in t.registry && t.arena[f].phase.Disposed?
  {
    EveryFiberIsTrue(ops, s, births);
    assert TrueToBirth(s, f, births[f]);
    var w := Resolve(s.realms, s.arena[f].realm, k).value;
    ResolveIsFirstOnChain(s.realms, s.arena[f].realm, k);
    assert UsesServiceOf(s, y, f, k, w);
    HangsOnFalls(s, y, f, final);
  }

  lemma HangsOnFalls(s: State, y: FiberId, x: FiberId, final: Phase)
    requires Core(s) && Live(s, y) && HangsOn(s, y, x)
    ensures var t := DisposeState(s, y, final); x in t.arena && x !in t.registry && t.arena[x].phase.Disposed?
  {
    DoomedIsClosed(s, y);
    FallsIff(s, y, x);
    FallenAreFinished(s, y, final, x);
  }

  lemma ChildHangsOn(s: State, f: FiberId)
    requires IdsOk(s) && TreeOk(s) && f in s.registry && f in s.arena && f != ROOT_FIBER
    ensures HangsOn(s, s.arena[f].parent, f)
  {
  }

  lemma RegisteredChildFalls(s: State, f: FiberId, final: Phase)
    requires Core(s) && f in s.registry && f in s.arena && f != ROOT_FIBER && Live(s, s.arena[f].parent)
    ensures var t := DisposeState(s, s.arena[f].parent, final);
            f in t.arena && f !in t.registry && t.arena[f].phase.Terminal()
  {
    ChildHangsOn(s, f);
    HangsOnFalls(s, s.arena[f].parent, f, final);
  }

  /** A fiber falls with the fiber it was created through. */
  lemma ChildrenFall(ops: seq<Op>, s: State, births: map<FiberId, Birth>, f: FiberId, final: Phase)
    requires Chronicle(ops, s, births) && f in births && f in s.registry && Live(s, births[f].ctx.fiber)
    ensures var t := DisposeState(s, births[f].ctx.fiber, final);
            f in t.arena && f !in t.registry && t.arena[f].phase.Terminal()
  {
    EveryFiberIsTrue(ops, s, births);
    assert TrueToBirth(s, f, births[f]);
    RegisteredChildFalls(s, f, final);
  }

  /** The same for the newborn of any single creation: disposing the fiber behind the context takes it down. */
  lemma NewbornFalls(s: State, op: Op, f: FiberId, final: Phase)
    requires Inv(s) && Enabled(s, op) && f in Announced(s, op) && Active(s, Announced(s, op)[f].ctx.fiber)
    ensures var u := Apply(s, op);
            && f in u.registry
            && var t := DisposeState(u, Announced(s, op)[f].ctx.fiber, final);
               f in t.arena && f !in t.registry && t.arena[f].phase.Terminal()
  {
    ApplyKeepsInv(s, op);
    NewbornIsTrue(s, op, f);
    NewbornIsRegistered(s, op, f);
    RegisteredChildFalls(Apply(s, op), f, final);
  }

  lemma NewbornIsRegistered(s: State, op: Op, f: FiberId)
    requires Inv(s) && Enabled(s, op) && f in Announced(s, op) && Active(s, Announced(s, op)[f].ctx.fiber)
    ensures f in Apply(s, op).registry && Live(Apply(s, op), Announced(s, op)[f].ctx.fiber) && f != ROOT_FIBER
  {
    assert f >= s.nextFiber > ROOT_FIBER;
    match op
    case OpRegister(ctx, plugin) => RegisterStaysLive(s, ctx, plugin);
    case OpBatch(ctx, plugins) => BatchedStaysLive(s, ctx, plugins, f);
    case OpFork(ctx) => ForkStaysLive(s, ctx);
  }

  lemma ForkStaysLive(s: State, ctx: Ctx)
    requires IdsOk(s) && Known(s, ctx) && Active(s, ctx.fiber)
    ensures s.nextFiber in Fork(s, ctx).registry && Live(Fork(s, ctx), ctx.fiber)
  {
    ForkIsReady(s, ctx);
  }

  lemma BatchedStaysLive(s: State, ctx: Ctx, plugins: seq<Plugin>, f: FiberId)
    requires Core(s) && Known(s, ctx) && f in BatchBirths(s.nextFiber, ctx, plugins)
    requires Active(s, BatchBirths(s.nextFiber, ctx, plugins)[f].ctx.fiber)
    ensures f in RegisterBatch(s, ctx, plugins).registry
    ensures Live(RegisterBatch(s, ctx, plugins), BatchBirths(s.nextFiber, ctx, plugins)[f].ctx.fiber)
  {
    BatchBirth(s.nextFiber, ctx, plugins, f);
    BatchTakesOn(s, ctx, plugins, f - s.nextFiber, RegisterBatch(s, ctx, plugins));
    BatchStaysLive(s, ctx, plugins);
  }

  lemma RegisterStaysLive(s: State, ctx: Ctx, plugin: Plugin)
    requires Core(s) && Known(s, ctx) && Active(s, ctx.fiber)
    ensures s.nextFiber in Register(s, ctx, plugin).registry && Live(Register(s, ctx, plugin), ctx.fiber)
  {
    NewcomerStartsIff(s, ctx, plugin);
    RegisterOnlyAdds(s, ctx, plugin);
  }

  lemma BatchStaysLive(s: State, ctx: Ctx, plugins: seq<Plugin>)
    requires Core(s) && Known(s, ctx) && Active(s, ctx.fiber)
    ensures Live(RegisterBatch(s, ctx, plugins), ctx.fiber)
  {
    var q := EnqueueAll(s, ctx, plugins);
    BatchIsQueued(s, ctx, plugins);
    EnqueueAllKeeps(s, ctx, plugins);
    WakeIsPass(q);
    PassRecords(q, Woken(q), Wake(q));
    assert SameButPhase(q.arena[ctx.fiber], Wake(q).arena[ctx.fiber]);
  }

  /** A fiber whose setup returned is Ready. */
  lemma FinishedSetupIsReady(s: State, f: FiberId)
    requires Inv(s) && IsStarting(s, f)
    ensures f in SetupDone(s, f).arena && f in SetupDone(s, f).registry && SetupDone(s, f).arena[f].phase.Ready?
  {
    var t := s.(arena := s.arena[f := s.arena[f].(phase := Ready)]);
    assert f in s.registry && !s.arena[f].disposalStarted;
    ReadyIsCore(s, f, t);
    WakeIsPass(t);
    OthersStay(t, Wake(t), f);
  }

  /** Soft dependencies never disconnect: a fiber created for a plugin without hard ones falls only with its parent. */
  lemma SoftNeverDisconnects(ops: seq<Op>, s: State, births: map<FiberId, Birth>, x: FiberId, plugin: Plugin,
                             f: FiberId)
    requires Chronicle(ops, s, births) && x in births && births[x].plugin == Some(plugin)
    requires forall d :: d in plugin.inject ==> d.Soft?
    requires Live(s, f) && x in Doomed(s, f) && x != f
    ensures births[x].ctx.fiber in Doomed(s, f)
  {
    EveryFiberIsTrue(ops, s, births);
    assert TrueToBirth(s, x, births[x]);
    var y := OnlyReadersFall(s, f, x);
    forall k, w ensures !UsesServiceOf(s, y, x, k, w) {
      assert IsRunning(s.arena[x]) ==> RunsPlugin(s.arena[x], plugin);
    }
  }
}
