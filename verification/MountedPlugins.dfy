// Which plugin a mounted entry's fiber runs: the one its own kind builds from its own config.

module MountedPlugins {
  import opened Basics
  import opened Sorting
  import opened KernelState
  import opened Disposal
  import opened Teardown
  import opened Operations
  import opened Runs
  import opened Closure
  import opened Readiness
  import opened History
  import opened EntryTree
  import opened LoaderPlan
  import opened Loader
  import opened LoaderRuns
  import Start

  /** The entry's kind builds this plugin from the entry's config, or from the empty one if it has none. */
  ghost predicate BuiltFrom(kinds: Kinds, spec: Spec, plugin: Plugin)
  {
    && spec.plugin.Some? && spec.plugin.value in kinds
    && match spec.config
       case Some(c) => kinds[spec.plugin.value].decode(c) == Some(plugin)
       case None => kinds[spec.plugin.value].decode(EMPTY_CONFIG) == Some(plugin)
  }

  lemma ValidIffBuilt(kinds: Kinds, spec: Spec)
    ensures Valid(kinds, spec) <==> exists plugin :: BuiltFrom(kinds, spec, plugin)
    ensures forall plugin :: BuiltFrom(kinds, spec, plugin) <==> Decoded(kinds, spec) == Some(plugin)
  {
    if Valid(kinds, spec) { assert BuiltFrom(kinds, spec, Decoded(kinds, spec).value); }
  }

  /** The fiber was registered through the root for the plugin of the entry: it waits, or starts, on it. */
  ghost predicate FreshlyServes(kinds: Kinds, t: State, e: Mounted)
  {
    BornAt(t, e.fiber, ROOT_CTX) && exists plugin :: BuiltFrom(kinds, e.options, plugin) && TookOn(t, e.fiber, plugin)
  }

  lemma {:induction false} PluginsOfAt(kinds: Kinds, specs: map<EntryId, Spec>, ids: seq<EntryId>, i: nat)
    requires i < |ids| && forall id :: id in ids ==> id in specs && Valid(kinds, specs[id])
    ensures ids[i] in specs && BuiltFrom(kinds, specs[ids[i]], PluginsOf(kinds, specs, ids)[i])
  {
    var last := |ids| - 1;
    assert ids[i] in ids;
    if i < last {
      PluginsOfAt(kinds, specs, ids[..last], i);
    } else {
      ValidIffBuilt(kinds, specs[ids[i]]);
    }
  }

  /** One batch of entries below a live root: each entry's fiber takes on the plugin built from that entry. */
  lemma InstalledServes(kinds: Kinds, s: State, m: Mounts, specs: map<EntryId, Spec>, ids: seq<EntryId>, t: State,
                        id: EntryId)
    requires Core(s) && Active(s, ROOT_FIBER) && Increasing(ids) && id in ids
    requires forall x :: x in ids ==> x in specs && Valid(kinds, specs[x])
    requires t == RegisterBatch(s, ROOT_CTX, PluginsOf(kinds, specs, ids))
    ensures var r := Install(m, specs, ids, s.nextFiber);
            id in r && r[id].options == specs[id] && FreshlyServes(kinds, t, r[id])
  {
    var i :| 0 <= i < |ids| && ids[i] == id;
    RootKnown(s);
    BatchTakesOn(s, ROOT_CTX, PluginsOf(kinds, specs, ids), i, t);
    InstalledAt(kinds, s, m, specs, ids, t, i);
  }

  lemma InstalledAt(kinds: Kinds, s: State, m: Mounts, specs: map<EntryId, Spec>, ids: seq<EntryId>, t: State, i: nat)
    requires Increasing(ids) && i < |ids| && forall x :: x in ids ==> x in specs && Valid(kinds, specs[x])
    requires BornAt(t, s.nextFiber + i, ROOT_CTX) && TookOn(t, s.nextFiber + i, PluginsOf(kinds, specs, ids)[i])
    ensures var r := Install(m, specs, ids, s.nextFiber);
            ids[i] in r && ids[i] in specs && r[ids[i]].options == specs[ids[i]] && FreshlyServes(kinds, t, r[ids[i]])
  {
    InstallAt(m, specs, ids, s.nextFiber, i);
    PluginsOfAt(kinds, specs, ids, i);
  }

  // ---- mount, phase two, repair ----

  /** Mounting: every mounted entry's fiber takes on the plugin of that entry. */
  lemma MountServes(kinds: Kinds, s: State, tree: Entries, s': State, m': Mounts, id: EntryId)
    requires Core(s) && Active(s, ROOT_FIBER) && MountedFresh(kinds, s, tree, s', m') && id in m'
    ensures id in tree && m'[id].options == tree[id] && FreshlyServes(kinds, s', m'[id])
  {
    var ids := InOrder(Created(map[], tree));
    InstallKeys(map[], tree, ids, s.nextFiber);
    assert id in Created(map[], tree) + Replaced(map[], tree);
    InstalledServes(kinds, s, map[], tree, ids, s', id);
  }

  /** Phase two: the same for every created or replaced entry. */
  lemma PhaseTwoServes(kinds: Kinds, s: State, m: Mounts, next: Entries, id: EntryId)
    requires Core(s) && LoaderOk(kinds, s, m) && Active(s, ROOT_FIBER) && Buildable(kinds, m, next)
    requires id in Created(m, next) || id in Replaced(m, next)
    ensures var m2 := MountsTwo(s, m, next);
            id in m2 && id in next && m2[id].options == next[id]
            && FreshlyServes(kinds, PhaseTwo(kinds, s, m, next), m2[id])
  {
    PhaseOneFacts(kinds, s, m, next);
    CreationsAreValid(kinds, m, next);
    ActionSets(m, next, id);
    InstalledServes(kinds, PhaseOne(s, m, next), m - Removed(m, next), next, Creations(m, next),
                    PhaseTwo(kinds, s, m, next), id);
  }

  /** Repair: the same for every restarted entry, from the options it is mounted with. */
  lemma RepairServes(kinds: Kinds, s: State, m: Mounts, id: EntryId)
    requires Core(s) && LoaderOk(kinds, s, m) && Active(s, ROOT_FIBER) && id in Dead(s, m)
    ensures var r := RepairMounts(s, m);
            id in r && r[id].options == m[id].options && FreshlyServes(kinds, RepairState(kinds, s, m), r[id])
  {
    InstalledServes(kinds, s, m, Options(m), InOrder(Dead(s, m)), RepairState(kinds, s, m), id);
  }

  // ---- over every session ----

  /** The entry's fiber, while registered, waits for or runs exactly the plugin built from the entry. */
  ghost predicate EntryServes(kinds: Kinds, s: State, e: Mounted)
  {
    exists plugin :: BuiltFrom(kinds, e.options, plugin) && Serves(s, e.fiber, plugin)
  }

  ghost predicate MountsServe(kinds: Kinds, s: State, m: Mounts)
  {
    forall id :: id in m ==> EntryServes(kinds, s, m[id])
  }

  lemma EntryTracks(kinds: Kinds, s: State, t: State, e: Mounted)
    requires EntryServes(kinds, s, e) && Tracks(s, t, e.fiber)
    ensures EntryServes(kinds, t, e)
  {
    var plugin :| BuiltFrom(kinds, e.options, plugin) && Serves(s, e.fiber, plugin);
    assert Serves(t, e.fiber, plugin);
  }

  lemma FreshServes(kinds: Kinds, t: State, e: Mounted)
    requires Core(t) && FreshlyServes(kinds, t, e)
    ensures EntryServes(kinds, t, e)
  {
    var plugin :| BuiltFrom(kinds, e.options, plugin) && TookOn(t, e.fiber, plugin);
    assert Serves(t, e.fiber, plugin);
  }

  /** Below a root that is gone, an installed entry's fiber is never registered, so it serves by default. */
  lemma DeadInstalledServes(kinds: Kinds, s: State, m: Mounts, specs: map<EntryId, Spec>, ids: seq<EntryId>, t: State,
                            id: EntryId)
    requires Core(s) && !Active(s, ROOT_FIBER) && Increasing(ids) && id in ids
    requires forall x :: x in ids ==> x in specs && Valid(kinds, specs[x])
    requires t == RegisterBatch(s, ROOT_CTX, PluginsOf(kinds, specs, ids))
    ensures var r := Install(m, specs, ids, s.nextFiber); id in r && EntryServes(kinds, t, r[id])
  {
    var i :| 0 <= i < |ids| && ids[i] == id;
    var plugins := PluginsOf(kinds, specs, ids);
    InstallAt(m, specs, ids, s.nextFiber, i);
    PluginsOfAt(kinds, specs, ids, i);
    RootKnown(s);
    BatchedIsTrue(s, ROOT_CTX, plugins, i, t);
    assert TrueToBirth(t, s.nextFiber + i, Birth(ROOT_CTX, Some(plugins[i])));
  }

  lemma AnyInstalledServes(kinds: Kinds, s: State, m: Mounts, specs: map<EntryId, Spec>, ids: seq<EntryId>, t: State,
                           id: EntryId)
    requires Core(s) && Increasing(ids) && id in ids
    requires forall x :: x in ids ==> x in specs && Valid(kinds, specs[x])
    requires t == RegisterBatch(s, ROOT_CTX, PluginsOf(kinds, specs, ids))
    ensures var r := Install(m, specs, ids, s.nextFiber); id in r && EntryServes(kinds, t, r[id])
  {
    if Active(s, ROOT_FIBER) {
      InstalledServes(kinds, s, m, specs, ids, t, id);
      RootKnown(s);
      BatchKeeps(s, ROOT_CTX, PluginsOf(kinds, specs, ids));
      FreshServes(kinds, t, Install(m, specs, ids, s.nextFiber)[id]);
    } else {
      DeadInstalledServes(kinds, s, m, specs, ids, t, id);
    }
  }

  /** A batch of entries on top of mounts that serve. */
  lemma InstallKeepsServing(kinds: Kinds, s: State, m: Mounts, specs: map<EntryId, Spec>, ids: seq<EntryId>, t: State)
    requires Core(s) && Increasing(ids) && (forall x :: x in ids ==> x in specs && Valid(kinds, specs[x]))
    requires t == RegisterBatch(s, ROOT_CTX, PluginsOf(kinds, specs, ids))
    requires forall id :: id in m && id !in ids ==> EntryServes(kinds, s, m[id])
    ensures MountsServe(kinds, t, Install(m, specs, ids, s.nextFiber))
  {
    var r := Install(m, specs, ids, s.nextFiber);
    InstallKeys(m, specs, ids, s.nextFiber);
    RootKnown(s);
    forall id | id in r ensures EntryServes(kinds, t, r[id]) {
      if id in ids {
        AnyInstalledServes(kinds, s, m, specs, ids, t, id);
      } else {
        BatchTracks(s, ROOT_CTX, PluginsOf(kinds, specs, ids), m[id].fiber);
        EntryTracks(kinds, s, t, m[id]);
      }
    }
  }

  lemma MountKeepsServing(kinds: Kinds, s: State, tree: Entries, s': State, m': Mounts)
    requires Core(s) && MountedFresh(kinds, s, tree, s', m')
    ensures MountsServe(kinds, s', m')
  {
    var ids := InOrder(Created(map[], tree));
    forall id | id in ids ensures id in tree && Valid(kinds, tree[id]) {
      assert id in Created(map[], tree) + Replaced(map[], tree);
    }
    InstallKeepsServing(kinds, s, map[], tree, ids, s');
  }

  lemma PhaseTwoKeepsServing(kinds: Kinds, s: State, m: Mounts, next: Entries)
    requires Core(s) && LoaderOk(kinds, s, m) && Buildable(kinds, m, next) && MountsServe(kinds, s, m)
    ensures MountsServe(kinds, PhaseTwo(kinds, s, m, next), MountsTwo(s, m, next))
  {
    var s1, kept := PhaseOne(s, m, next), m - Removed(m, next);
    PhaseOneFacts(kinds, s, m, next);
    CreationsAreValid(kinds, m, next);
    forall id | id in kept ensures EntryServes(kinds, s1, kept[id]) {
      TornTracks(s, DoomedAll(s, Disposals(m, next)), ROOT_FIBER, Disposed, m[id].fiber);
      EntryTracks(kinds, s, s1, m[id]);
    }
    InstallKeepsServing(kinds, s1, kept, next, Creations(m, next), PhaseTwo(kinds, s, m, next));
  }

  lemma RepairKeepsServing(kinds: Kinds, s: State, m: Mounts)
    requires Core(s) && LoaderOk(kinds, s, m) && MountsServe(kinds, s, m)
    ensures MountsServe(kinds, RepairState(kinds, s, m), RepairMounts(s, m))
  {
    InstallKeepsServing(kinds, s, m, Options(m), InOrder(Dead(s, m)), RepairState(kinds, s, m));
  }

  lemma ReconcileKeepsServing(kinds: Kinds, s: State, m: Mounts, next: Entries, s': State, m': Mounts, r: Report)
    requires Core(s) && LoaderOk(kinds, s, m) && MountsServe(kinds, s, m) && Reconciled(kinds, s, m, next, s', m', r)
    ensures MountsServe(kinds, s', m')
  {
    var s2, m2 := PhaseTwo(kinds, s, m, next), MountsTwo(s, m, next);
    DeadAreCasualties(kinds, s, m, next, s2);
    PhaseTwoKeepsServing(kinds, s, m, next);
    if Dead(s2, m2) != {} { RepairKeepsServing(kinds, s2, m2); }
  }

  lemma KernelKeepsServing(kinds: Kinds, s: State, m: Mounts, op: Op)
    requires Core(s) && Enabled(s, op) && MountsServe(kinds, s, m)
    ensures MountsServe(kinds, Apply(s, op), m)
  {
    forall id | id in m ensures EntryServes(kinds, Apply(s, op), m[id]) {
      OpTracks(s, op, m[id].fiber);
      EntryTracks(kinds, s, Apply(s, op), m[id]);
    }
  }

  lemma NewKindKeepsServing(kinds: Kinds, s: State, m: Mounts, name: KindName, kind: Kind)
    requires MountsServe(kinds, s, m) && name !in kinds
    ensures MountsServe(kinds[name := kind], s, m)
  {
    forall id | id in m ensures EntryServes(kinds[name := kind], s, m[id]) {
      var plugin :| BuiltFrom(kinds, m[id].options, plugin) && Serves(s, m[id].fiber, plugin);
      assert BuiltFrom(kinds[name := kind], m[id].options, plugin);
    }
  }

  lemma DeedKeepsServing(a: Setup, deed: Deed, b: Setup)
    requires SetupOk(a) && Does(a, deed, b) && MountsServe(a.kinds, a.kernel, a.mounts)
    ensures MountsServe(b.kinds, b.kernel, b.mounts)
  {
    match deed
    case OnKernel(op) => KernelKeepsServing(a.kinds, a.kernel, a.mounts, op);
    case NewKind(name, kind) =>
      if name !in a.kinds { NewKindKeepsServing(a.kinds, a.kernel, a.mounts, name, kind); }
    case Mounting(tree) =>
      if a.mounts == map[] && Buildable(a.kinds, map[], tree) {
        MountKeepsServing(a.kinds, a.kernel, tree, b.kernel, b.mounts);
      }
    case Reconciling(next) =>
      if Buildable(a.kinds, a.mounts, next) {
        var r :| Reconciled(a.kinds, a.kernel, a.mounts, next, b.kernel, b.mounts, r);
        ReconcileKeepsServing(a.kinds, a.kernel, a.mounts, next, b.kernel, b.mounts, r);
      }
  }

  /**
   * Over every session each mounted entry's fiber, while registered, waits for or runs exactly the plugin that the
   * entry's kind builds from the entry's own config.
   */
  lemma {:induction false} EveryEntryServes(deeds: seq<Deed>, b: Setup)
    requires Session(deeds, b)
    ensures MountsServe(b.kinds, b.kernel, b.mounts)
    decreases |deeds|
  {
    if deeds != [] {
      var before, last := deeds[..|deeds| - 1], deeds[|deeds| - 1];
      var a :| Session(before, a) && Does(a, last, b);
      EverySessionIsOk(before, a);
      EveryEntryServes(before, a);
      DeedKeepsServing(a, last, b);
    }
  }
}
