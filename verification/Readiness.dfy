// When a plugin starts, said in terms of realm chains, the queue and the records alone.

module Readiness {
  import opened Basics
  import opened Realms
  import opened KernelState
  import opened Start
  import opened Operations
  import opened Closure

  /** Some realm of the chain binds the key. */
  ghost predicate BoundOnChain(s: State, at: RealmId, k: Key)
  {
    exists r :: r in Chain(s.realms, at) && r in s.realms && k in s.realms[r].services
  }

  /** A queued plugin other than `waiting` declares `k` from a realm on the chain of `at`. */
  ghost predicate QueuedDeclares(s: State, waiting: FiberId, at: RealmId, k: Key)
  {
    exists e :: e in s.pending && e.fiber != waiting && e.fiber in s.arena && k in e.plugin.declares
                && s.arena[e.fiber].realm in Chain(s.realms, at)
  }

  /** A starting fiber other than `waiting` declared `k` from a realm on the chain of `at`. */
  ghost predicate StarterDeclares(s: State, waiting: FiberId, at: RealmId, k: Key)
  {
    exists f :: f in s.registry && f in s.arena && f != waiting && s.arena[f].phase.Starting?
                && k in s.arena[f].declared
                && s.arena[f].realm in Chain(s.realms, at)
  }

  /** The dependency resolves, or is soft and nobody who declared it is still to settle. */
  ghost predicate NeedMet(s: State, waiting: FiberId, at: RealmId, d: Dependency)
  {
    || BoundOnChain(s, at, d.key)
    || (d.Soft? && !QueuedDeclares(s, waiting, at, d.key) && !StarterDeclares(s, waiting, at, d.key))
  }

  ghost predicate NeedsMet(s: State, waiting: FiberId, at: RealmId, plugin: Plugin)
  {
    forall d :: d in plugin.inject ==> NeedMet(s, waiting, at, d)
  }

  lemma ResolvesIffBound(s: State, at: RealmId, k: Key)
    requires at in s.realms
    ensures Resolve(s.realms, at, k).Some? <==> BoundOnChain(s, at, k)
    ensures Lookup(s.realms, at, k).Some? <==> BoundOnChain(s, at, k)
  {
    var c := Chain(s.realms, at);
    ResolveIsFirstOnChain(s.realms, at, k);
    if Resolve(s.realms, at, k).Some? {
      var w := Resolve(s.realms, at, k).value;
      assert FirstBinder(s.realms, c, w, k);
      assert w in c;
    }
    if BoundOnChain(s, at, k) {
      var r :| r in c && r in s.realms && k in s.realms[r].services;
      var i :| 0 <= i < |c| && c[i] == r;
      assert !NoneBinds(s.realms, c, |c|, k);
    }
  }

  lemma DeclaredIff(s: State, waiting: FiberId, at: RealmId, k: Key)
    requires IdsOk(s) && Quiescent(s) && QueueOk(s) && at in s.realms
    ensures HasDeclaredProvider(s, waiting, at, k, []) <==>
              QueuedDeclares(s, waiting, at, k) || StarterDeclares(s, waiting, at, k)
  {
    forall from ensures Visible(s.realms, from, at) <==> from in Chain(s.realms, at)
    {
      VisibleIsOnChain(s.realms, from, at);
    }
    if i :| 0 <= i < |s.pending| && PendingDeclares(s, s.pending[i], waiting, at, k) {
      assert s.pending[i] in s.pending;
      assert QueuedDeclares(s, waiting, at, k);
    }
    if QueuedDeclares(s, waiting, at, k) {
      var e :| e in s.pending && e.fiber != waiting && e.fiber in s.arena && k in e.plugin.declares
               && s.arena[e.fiber].realm in Chain(s.realms, at);
      var i :| 0 <= i < |s.pending| && s.pending[i] == e;
      assert PendingDeclares(s, s.pending[i], waiting, at, k);
    }
    if f :| f in s.registry && StartingDeclares(s, f, waiting, at, k) {
      assert StarterDeclares(s, waiting, at, k);
    }
    if StarterDeclares(s, waiting, at, k) {
      var f :| f in s.registry && f in s.arena && f != waiting && s.arena[f].phase.Starting? && k in s.arena[f].declared
               && s.arena[f].realm in Chain(s.realms, at);
      assert StartingDeclares(s, f, waiting, at, k);
    }
  }

  lemma SatisfiedIff(s: State, waiting: FiberId, at: RealmId, plugin: Plugin)
    requires IdsOk(s) && Quiescent(s) && QueueOk(s) && at in s.realms
    ensures Satisfied(s, waiting, at, plugin, []) <==> NeedsMet(s, waiting, at, plugin)
  {
    forall d ensures DependencySatisfied(s, waiting, at, d, []) <==> NeedMet(s, waiting, at, d) {
      ResolvesIffBound(s, at, d.key);
      DeclaredIff(s, waiting, at, d.key);
    }
    if NeedsMet(s, waiting, at, plugin) {
      forall i | 0 <= i < |plugin.inject| ensures DependencySatisfied(s, waiting, at, plugin.inject[i], []) {
        assert plugin.inject[i] in plugin.inject;
      }
    }
    if Satisfied(s, waiting, at, plugin, []) {
      forall d | d in plugin.inject ensures NeedMet(s, waiting, at, d) {
        var i :| 0 <= i < |plugin.inject| && plugin.inject[i] == d;
        assert DependencySatisfied(s, waiting, at, plugin.inject[i], []);
      }
    }
  }

  /** Exactly which queued entries a wake-up pass starts. */
  lemma WokenIff(s: State, e: Entry)
    requires Core(s)
    ensures e in Woken(s) <==>
              e in s.pending && e.fiber in s.arena && NeedsMet(s, e.fiber, s.arena[e.fiber].realm, e.plugin)
  {
    if e in s.pending {
      var i :| 0 <= i < |s.pending| && s.pending[i] == e;
      assert StillAlive(s, s.pending[i]);
      WakesIfSatisfied(s, e);
      SatisfiedIff(s, e.fiber, s.arena[e.fiber].realm, e.plugin);
    }
  }

  // ---- what a fiber started on ----

  /** The record carries exactly the hard keys and the declarations of the plugin. */
  ghost predicate RunsPlugin(rec: Fiber, plugin: Plugin)
  {
    && (forall k :: k in rec.injected <==> Hard(k) in plugin.inject)
    && (forall k :: k in rec.declared <==> k in plugin.declares)
  }

  lemma StartedRunsPlugin(rec: Fiber, plugin: Plugin)
    ensures RunsPlugin(Started(rec, plugin), plugin) && Started(rec, plugin).phase.Starting?
  {
    forall k ensures k in HardKeys(plugin.inject) <==> Hard(k) in plugin.inject {
      HardKeysMembers(plugin.inject, k);
    }
  }

  /** A pass starts the woken fibers, each on the plugin it was queued with, with all hard keys recorded. */
  lemma PassStartsPlugins(s: State, t: State, e: Entry)
    requires Core(s) && t == Wake(s) && e in s.pending
    ensures e.fiber in s.arena && e.fiber in t.arena && e.fiber in t.registry
    ensures if NeedsMet(s, e.fiber, s.arena[e.fiber].realm, e.plugin)
            then t.arena[e.fiber].phase.Starting? && RunsPlugin(t.arena[e.fiber], e.plugin)
            else t.arena[e.fiber] == s.arena[e.fiber] && e in t.pending
  {
    var i :| 0 <= i < |s.pending| && s.pending[i] == e;
    WakeIsPass(s);
    WokenIff(s, e);
    if e in Woken(s) {
      StartedRunsPlugin(s.arena[e.fiber], e.plugin);
    } else {
      NobodyElseStarts(s, t, e);
    }
  }

  lemma NobodyElseStarts(s: State, t: State, e: Entry)
    requires QueueOk(s) && Pass(s, Woken(s), t) && e in s.pending && e !in Woken(s) && e.fiber in s.arena
    ensures t.arena[e.fiber] == s.arena[e.fiber] && e in t.pending
  {
    if w :| w in Woken(s) && w.fiber == e.fiber {
      SameFiberSameEntry(s, e, w);
    }
  }

  // ---- one registration ----

  /** A new fiber: registered, below the context's fiber, in its realm, holding nothing. */
  ghost predicate BornAt(t: State, id: FiberId, ctx: Ctx)
  {
    && id in t.registry && id in t.arena && !t.arena[id].disposalStarted
    && t.arena[id].parent == ctx.fiber && t.arena[id].realm == ctx.realm
    && t.arena[id].disposables == [] && t.arena[id].provided == []
  }

  /** It waits in the queue with the plugin, or it is starting on it. */
  ghost predicate TookOn(t: State, id: FiberId, plugin: Plugin)
  {
    && id in t.arena
    && ((t.arena[id].phase.Pending? && Entry(id, plugin) in t.pending)
        || (t.arena[id].phase.Starting? && RunsPlugin(t.arena[id], plugin)))
  }

  lemma NewcomerSeesTheSame(s: State, ctx: Ctx, plugin: Plugin)
    requires IdsOk(s) && Quiescent(s) && QueueOk(s) && Known(s, ctx)
    ensures Satisfied(CreateFiber(s, ctx), s.nextFiber, ctx.realm, plugin, [])
       <==> Satisfied(s, s.nextFiber, ctx.realm, plugin, [])
  {
    var t := CreateFiber(s, ctx);
    assert forall f :: f in s.arena ==> t.arena[f] == s.arena[f];
    forall k ensures HasDeclaredProvider(t, s.nextFiber, ctx.realm, k, []) <==>
                     HasDeclaredProvider(s, s.nextFiber, ctx.realm, k, [])
    {
      forall i | 0 <= i < |s.pending| ensures PendingDeclares(t, s.pending[i], s.nextFiber, ctx.realm, k)
                                         <==> PendingDeclares(s, s.pending[i], s.nextFiber, ctx.realm, k)
      {
        assert s.pending[i].fiber in s.arena;
      }
      forall f ensures StartingDeclares(t, f, s.nextFiber, ctx.realm, k)
                <==> StartingDeclares(s, f, s.nextFiber, ctx.realm, k)
      {
        if f != s.nextFiber && f in t.arena { assert t.arena[f] == s.arena[f]; }
      }
    }
  }

  /** A registered plugin starts at once exactly if its needs are met, and queues otherwise. */
  lemma NewcomerStartsIff(s: State, ctx: Ctx, plugin: Plugin)
    requires Core(s) && Known(s, ctx) && Active(s, ctx.fiber)
    ensures var t, id := Register(s, ctx, plugin), s.nextFiber;
            && BornAt(t, id, ctx)
            && if NeedsMet(s, id, ctx.realm, plugin)
               then t.arena[id].phase.Starting? && RunsPlugin(t.arena[id], plugin) && t.pending == s.pending
               else t.arena[id].phase.Pending? && t.pending == s.pending + [Entry(id, plugin)]
  {
    NewcomerSeesTheSame(s, ctx, plugin);
    SatisfiedIff(s, s.nextFiber, ctx.realm, plugin);
    ActiveStays(s, ctx);
    StartedRunsPlugin(CreateFiber(s, ctx).arena[s.nextFiber], plugin);
  }

  lemma ActiveStays(s: State, ctx: Ctx)
    requires IdsOk(s) && Active(s, ctx.fiber)
    ensures Active(CreateFiber(s, ctx), ctx.fiber)
  {
  }

  /** Below a fiber that is gone or going, whatever is created is born disposed and nothing else changes. */
  lemma BornDisposedBelowTheDead(s: State, ctx: Ctx, plugin: Plugin)
    requires IdsOk(s) && Known(s, ctx) && !Active(s, ctx.fiber)
    ensures Register(s, ctx, plugin) == BornDisposed(s, ctx) && Fork(s, ctx) == BornDisposed(s, ctx)
    ensures var t := BornDisposed(s, ctx);
            && s.nextFiber in t.arena && t.arena[s.nextFiber].phase.Disposed? && s.nextFiber !in t.registry
            && t.registry == s.registry && t.pending == s.pending && t.realms == s.realms
  {
  }

  lemma ForkIsReady(s: State, ctx: Ctx)
    requires IdsOk(s) && Known(s, ctx) && Active(s, ctx.fiber)
    ensures var t := Fork(s, ctx); BornAt(t, s.nextFiber, ctx) && t.arena[s.nextFiber].phase.Ready?
  {
    ActiveStays(s, ctx);
  }

  // ---- one batch ----

  /** One more plugin was queued: `t` is `s` with one more registered, waiting fiber. */
  ghost predicate QueuedOne(s: State, ctx: Ctx, plugin: Plugin, t: State)
  {
    && IdsOk(t) && Active(t, ctx.fiber) && t.nextFiber == s.nextFiber + 1 && t.realms == s.realms
    && QueuedAt(t, s.nextFiber, ctx, plugin)
    && (forall id, p :: QueuedAt(s, id, ctx, p) ==> QueuedAt(t, id, ctx, p))
  }

  /** Registered, waiting, and queued with the plugin. */
  ghost predicate QueuedAt(q: State, id: FiberId, ctx: Ctx, plugin: Plugin)
  {
    BornAt(q, id, ctx) && q.arena[id].phase.Pending? && Entry(id, plugin) in q.pending
  }

  lemma OneMoreQueued(s: State, ctx: Ctx, plugin: Plugin)
    requires IdsOk(s) && Known(s, ctx) && Active(s, ctx.fiber)
    ensures QueuedOne(s, ctx, plugin, Enqueue(s, ctx, plugin))
  {
    ActiveStays(s, ctx);
    var t := Enqueue(s, ctx, plugin);
    assert t.pending == s.pending + [Entry(s.nextFiber, plugin)];
    assert forall f :: f in s.arena ==> f in t.arena && t.arena[f] == s.arena[f];
  }

  /** All plugins were queued, the `i`th on the `i`th new fiber. */
  ghost predicate QueuedAll(s: State, ctx: Ctx, plugins: seq<Plugin>, q: State)
  {
    && IdsOk(q) && Active(q, ctx.fiber) && q.nextFiber == s.nextFiber + |plugins| && q.realms == s.realms
    && forall i :: 0 <= i < |plugins| ==> QueuedAt(q, s.nextFiber + i, ctx, plugins[i])
  }

  lemma OneMoreOfBatch(s: State, ctx: Ctx, front: seq<Plugin>, before: State, plugin: Plugin, q: State)
    requires QueuedAll(s, ctx, front, before) && QueuedOne(before, ctx, plugin, q)
    ensures QueuedAll(s, ctx, front + [plugin], q)
  {
    var plugins := front + [plugin];
    forall i | 0 <= i < |plugins| ensures QueuedAt(q, s.nextFiber + i, ctx, plugins[i]) {
      if i < |front| { assert QueuedAt(before, s.nextFiber + i, ctx, front[i]); }
    }
  }

  lemma {:induction false} BatchIsQueued(s: State, ctx: Ctx, plugins: seq<Plugin>)
    requires IdsOk(s) && Known(s, ctx) && Active(s, ctx.fiber)
    ensures QueuedAll(s, ctx, plugins, EnqueueAll(s, ctx, plugins))
  {
    if plugins != [] {
      var front, plugin := plugins[..|plugins| - 1], plugins[|plugins| - 1];
      var before := EnqueueAll(s, ctx, front);
      BatchIsQueued(s, ctx, front);
      OneMoreQueued(before, ctx, plugin);
      OneMoreOfBatch(s, ctx, front, before, plugin, Enqueue(before, ctx, plugin));
      LastPart(plugins);
    }
  }

  /** A pass leaves a queued newcomer starting on its plugin, or queued as it was. */
  lemma NewcomerAfterPass(q: State, t: State, id: FiberId, ctx: Ctx, plugin: Plugin)
    requires Core(q) && t == Wake(q) && QueuedAt(q, id, ctx, plugin)
    ensures BornAt(t, id, ctx) && TookOn(t, id, plugin)
    ensures !NeedsMet(q, id, ctx.realm, plugin) ==> QueuedAt(t, id, ctx, plugin)
  {
    PassStartsPlugins(q, t, Entry(id, plugin));
    WakeIsPass(q);
    PassRecords(q, Woken(q), t);
    assert SameButPhase(q.arena[id], t.arena[id]);
  }

  /** Each plugin of a batch takes the next fiber: it waits in the queue, or starts, on that very plugin. */
  lemma BatchTakesOn(s: State, ctx: Ctx, plugins: seq<Plugin>, i: nat, t: State)
    requires Core(s) && Known(s, ctx) && Active(s, ctx.fiber) && i < |plugins| && t == RegisterBatch(s, ctx, plugins)
    ensures BornAt(t, s.nextFiber + i, ctx) && TookOn(t, s.nextFiber + i, plugins[i])
  {
    BatchIsQueued(s, ctx, plugins);
    EnqueueAllKeeps(s, ctx, plugins);
    BatchAfterPass(s, ctx, plugins, i, EnqueueAll(s, ctx, plugins), t);
  }

  lemma BatchAfterPass(s: State, ctx: Ctx, plugins: seq<Plugin>, i: nat, q: State, t: State)
    requires Core(q) && QueuedAll(s, ctx, plugins, q) && i < |plugins| && t == Wake(q)
    ensures BornAt(t, s.nextFiber + i, ctx) && TookOn(t, s.nextFiber + i, plugins[i])
    ensures !NeedsMet(q, s.nextFiber + i, ctx.realm, plugins[i]) ==> QueuedAt(t, s.nextFiber + i, ctx, plugins[i])
  {
    assert QueuedAt(q, s.nextFiber + i, ctx, plugins[i]);
    NewcomerAfterPass(q, t, s.nextFiber + i, ctx, plugins[i]);
  }

  /**
   * Within one batch the order of entries does not matter to soft dependencies: a plugin whose soft key is bound
   * nowhere waits for a declarer in the same batch, whichever of the two comes first.
   */
  lemma BatchWaitsForDeclarers(s: State, ctx: Ctx, plugins: seq<Plugin>, i: nat, j: nat, k: Key, t: State)
    requires Core(s) && Known(s, ctx) && Active(s, ctx.fiber) && t == RegisterBatch(s, ctx, plugins)
    requires i < |plugins| && j < |plugins| && i != j
    requires Soft(k) in plugins[i].inject && k in plugins[j].declares && !BoundOnChain(s, ctx.realm, k)
    ensures QueuedAt(t, s.nextFiber + i, ctx, plugins[i])
  {
    BatchIsQueued(s, ctx, plugins);
    EnqueueAllKeeps(s, ctx, plugins);
    BatchDeclares(s, ctx, plugins, i, j, k, EnqueueAll(s, ctx, plugins));
    BatchAfterPass(s, ctx, plugins, i, EnqueueAll(s, ctx, plugins), t);
  }

  lemma BatchDeclares(s: State, ctx: Ctx, plugins: seq<Plugin>, i: nat, j: nat, k: Key, q: State)
    requires QueuedAll(s, ctx, plugins, q) && i < |plugins| && j < |plugins| && i != j && ctx.realm in s.realms
    requires Soft(k) in plugins[i].inject && k in plugins[j].declares && !BoundOnChain(s, ctx.realm, k)
    ensures !NeedsMet(q, s.nextFiber + i, ctx.realm, plugins[i])
  {
    assert QueuedAt(q, s.nextFiber + j, ctx, plugins[j]);
    assert !BoundOnChain(q, ctx.realm, k);
    DeclarerInQueue(q, Entry(s.nextFiber + i, plugins[i]), Entry(s.nextFiber + j, plugins[j]), ctx.realm, k);
  }

  lemma DeclarerInQueue(q: State, e: Entry, d: Entry, at: RealmId, k: Key)
    requires at in q.realms && d in q.pending && d.fiber != e.fiber && d.fiber in q.arena
             && q.arena[d.fiber].realm == at
    requires k in d.plugin.declares && Soft(k) in e.plugin.inject && !BoundOnChain(q, at, k)
    ensures !NeedsMet(q, e.fiber, at, e.plugin)
  {
    assert Chain(q.realms, at)[0] == at;
    assert QueuedDeclares(q, e.fiber, at, k);
    assert !NeedMet(q, e.fiber, at, Soft(k));
  }
}
