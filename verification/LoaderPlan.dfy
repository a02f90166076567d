// What one reconcile pass decides and what it leaves behind, over values.

module LoaderPlan {
  import opened Basics
  import opened Sorting
  import opened KernelState
  import opened Disposal
  import opened Teardown
  import opened Start
  import opened Operations
  import opened EntryTree

  /** One mounted entry: its options and its fiber. */
  datatype Mounted = Mounted(options: Spec, fiber: FiberId)

  type Mounts = map<EntryId, Mounted>

  /** A plugin kind; checking a config and building from it both decode the config. */
  datatype Kind = Kind(decode: Config -> Option<Plugin>)

  type Kinds = map<KindName, Kind>

  /** An absent config is presented as an empty object. */
  const EMPTY_CONFIG: Config := 0

  const ROOT_CTX: Ctx := Ctx(ROOT_FIBER, ROOT_REALM)

  function Decoded(kinds: Kinds, spec: Spec): Option<Plugin>
  {
    if spec.plugin.None? || spec.plugin.value !in kinds then None
    else kinds[spec.plugin.value].decode(if spec.config.Some? then spec.config.value else EMPTY_CONFIG)
  }

  /** The kind exists and accepts the config. */
  predicate Valid(kinds: Kinds, spec: Spec)
  {
    Decoded(kinds, spec).Some?
  }

  // ---- the plan ----

  datatype Action =
    | Keep
    | Create(spec: Spec)
    | Replace(spec: Spec, fiber: FiberId)
    | Remove(fiber: FiberId)

  ghost function ActionFor(m: Mounts, next: Entries, id: EntryId): Action
  {
    if id in m then
      if id !in next || !Mountable(next, id) then Remove(m[id].fiber)
      else if m[id].options == next[id] then Keep
      else Replace(next[id], m[id].fiber)
    else if id in next && Mountable(next, id) then Create(next[id])
    else Keep
  }

  ghost function Ids(m: Mounts, next: Entries): set<EntryId>
  {
    m.Keys + next.Keys
  }

  ghost function Created(m: Mounts, next: Entries): set<EntryId>
  {
    set id | id in Ids(m, next) && ActionFor(m, next, id).Create?
  }

  ghost function Replaced(m: Mounts, next: Entries): set<EntryId>
  {
    set id | id in Ids(m, next) && ActionFor(m, next, id).Replace?
  }

  ghost function Removed(m: Mounts, next: Entries): set<EntryId>
  {
    set id | id in Ids(m, next) && ActionFor(m, next, id).Remove?
  }

  ghost function Kept(m: Mounts, next: Entries): set<EntryId>
  {
    set id | id in Ids(m, next) && ActionFor(m, next, id).Keep?
  }

  /** Every changed entry names a known kind and carries a config the kind accepts. */
  ghost predicate Buildable(kinds: Kinds, m: Mounts, next: Entries)
  {
    forall id :: id in Created(m, next) + Replaced(m, next) ==> Valid(kinds, next[id])
  }

  // ---- the pass ----

  ghost function FibersOf(m: Mounts, ids: set<EntryId>): set<FiberId>
  {
    set id | id in ids && id in m :: m[id].fiber
  }

  /** Phase one: everything removed or replaced is disposed. */
  ghost function PhaseOne(s: State, m: Mounts, next: Entries): State
  {
    Gone(s, DoomedAll(s, FibersOf(m, Replaced(m, next) + Removed(m, next))))
  }

  function PluginsOf(kinds: Kinds, specs: map<EntryId, Spec>, ids: seq<EntryId>): (plugins: seq<Plugin>)
    requires forall id :: id in ids ==> id in specs && Valid(kinds, specs[id])
    ensures |plugins| == |ids|
  {
    if ids == [] then []
    else
      assert ids[|ids| - 1] in ids && Valid(kinds, specs[ids[|ids| - 1]]);
      PluginsOf(kinds, specs, ids[..|ids| - 1]) + [Decoded(kinds, specs[ids[|ids| - 1]]).value]
  }

  /** The entries `ids`, registered in this order, take the fibers from `base` on. */
  function Install(m: Mounts, specs: map<EntryId, Spec>, ids: seq<EntryId>, base: FiberId): Mounts
    requires forall id :: id in ids ==> id in specs
  {
    if ids == [] then m
    else
      var last := |ids| - 1;
      Install(m, specs, ids[..last], base)[ids[last] := Mounted(specs[ids[last]], base + last)]
  }

  ghost function Creations(m: Mounts, next: Entries): seq<EntryId>
  {
    InOrder(Created(m, next) + Replaced(m, next))
  }

  /** The plugins built for the created and replaced entries, in id order. */
  ghost function PluginsTwo(kinds: Kinds, m: Mounts, next: Entries): (plugins: seq<Plugin>)
    requires Buildable(kinds, m, next)
    ensures |plugins| == |Creations(m, next)|
  {
    PluginsOf(kinds, next, Creations(m, next))
  }

  ghost function PhaseTwo(kinds: Kinds, s: State, m: Mounts, next: Entries): State
    requires Buildable(kinds, m, next)
  {
    RegisterBatch(PhaseOne(s, m, next), ROOT_CTX, PluginsTwo(kinds, m, next))
  }

  ghost function MountsTwo(s: State, m: Mounts, next: Entries): Mounts
  {
    Install(m - Removed(m, next), next, Creations(m, next), PhaseOne(s, m, next).nextFiber)
  }

  ghost function Options(m: Mounts): map<EntryId, Spec>
  {
    map id | id in m :: m[id].options
  }

  /** Mounted entries whose fiber is Disposed. */
  ghost function Dead(s: State, m: Mounts): set<EntryId>
  {
    set id | id in m && m[id].fiber in s.arena && s.arena[m[id].fiber].phase.Disposed?
  }

  /** One repair pass re-registers every dead entry as one batch. */
  ghost function RepairState(kinds: Kinds, s: State, m: Mounts): State
    requires forall id :: id in m ==> Valid(kinds, m[id].options)
  {
    RegisterBatch(s, ROOT_CTX, PluginsOf(kinds, Options(m), InOrder(Dead(s, m))))
  }

  ghost function RepairMounts(s: State, m: Mounts): Mounts
  {
    Install(m, Options(m), InOrder(Dead(s, m)), s.nextFiber)
  }

  // ---- the loader's invariant ----

  /** Every mounted entry can be rebuilt and has a fiber of its own, never the root. */
  ghost predicate LoaderOk(kinds: Kinds, s: State, m: Mounts)
  {
    && OwnFibers(m)
    && forall id :: id in m ==> Valid(kinds, m[id].options) && m[id].fiber in s.arena && m[id].fiber != ROOT_FIBER
  }

  /** No two entries share a fiber. */
  ghost predicate OwnFibers(m: Mounts)
  {
    forall a, b :: a in m && b in m && a != b ==> m[a].fiber != m[b].fiber
  }

  // ---- batches seen from outside ----

  /** `t` is `s` with `n` more fibers; each is in its first phase, or disposed if the parent was not active. */
  ghost predicate Grown(s: State, t: State, n: nat, alive: bool)
  {
    && t.nextFiber == s.nextFiber + n
    && (forall f :: f in s.arena ==> f in t.arena && t.arena[f] == s.arena[f])
    && (forall f :: s.nextFiber <= f < s.nextFiber + n ==>
          f in t.arena && t.arena[f].phase == if alive then Pending else Disposed)
  }

  lemma {:induction false} EnqueueAllRecords(s: State, ctx: Ctx, plugins: seq<Plugin>)
    requires Core(s) && Known(s, ctx)
    ensures Grown(s, EnqueueAll(s, ctx, plugins), |plugins|, Active(s, ctx.fiber))
    ensures Active(EnqueueAll(s, ctx, plugins), ctx.fiber) <==> Active(s, ctx.fiber)
  {
    if plugins != [] {
      var before := EnqueueAll(s, ctx, plugins[..|plugins| - 1]);
      EnqueueAllRecords(s, ctx, plugins[..|plugins| - 1]);
      EnqueueAllKeeps(s, ctx, plugins[..|plugins| - 1]);
      EnqueueRecords(before, ctx, plugins[|plugins| - 1]);
      GrownTwice(s, before, EnqueueAll(s, ctx, plugins), |plugins| - 1, Active(s, ctx.fiber));
    }
  }

  lemma GrownTwice(s: State, t: State, u: State, n: nat, alive: bool)
    requires Grown(s, t, n, alive) && Grown(t, u, 1, alive)
    ensures Grown(s, u, n + 1, alive)
  {
  }

  lemma EnqueueRecords(s: State, ctx: Ctx, plugin: Plugin)
    requires IdsOk(s) && Known(s, ctx)
    ensures Grown(s, Enqueue(s, ctx, plugin), 1, Active(s, ctx.fiber))
    ensures Active(Enqueue(s, ctx, plugin), ctx.fiber) <==> Active(s, ctx.fiber)
  {
    assert forall f :: f in s.arena ==> f < s.nextFiber;
  }

  /** After a batch: new fibers are alive exactly if the registering fiber was; no old one was disposed. */
  ghost predicate Batched(s: State, t: State, n: nat, alive: bool)
  {
    && t.nextFiber == s.nextFiber + n
    && (forall f :: f in s.arena ==> f in t.arena && (t.arena[f].phase.Disposed? <==> s.arena[f].phase.Disposed?))
    && (forall f :: s.nextFiber <= f < s.nextFiber + n ==> f in t.arena && (t.arena[f].phase.Disposed? <==> !alive))
  }

  lemma BatchRecords(s: State, ctx: Ctx, plugins: seq<Plugin>)
    requires Core(s) && Known(s, ctx)
    ensures Core(RegisterBatch(s, ctx, plugins))
    ensures Batched(s, RegisterBatch(s, ctx, plugins), |plugins|, Active(s, ctx.fiber))
    ensures Active(RegisterBatch(s, ctx, plugins), ctx.fiber) <==> Active(s, ctx.fiber)
  {
    BatchKeeps(s, ctx, plugins);
    EnqueueAllRecords(s, ctx, plugins);
    EnqueueAllKeeps(s, ctx, plugins);
    WakePhases(EnqueueAll(s, ctx, plugins), ctx.fiber);
    GrownThenWoken(s, EnqueueAll(s, ctx, plugins), RegisterBatch(s, ctx, plugins), |plugins|, Active(s, ctx.fiber));
  }

  lemma GrownThenWoken(s: State, q: State, t: State, n: nat, alive: bool)
    requires Grown(s, q, n, alive) && t.nextFiber == q.nextFiber
    requires forall f :: f in q.arena ==> f in t.arena && (t.arena[f].phase.Disposed? <==> q.arena[f].phase.Disposed?)
    ensures Batched(s, t, n, alive)
  {
  }

  lemma WakePhases(q: State, x: FiberId)
    requires Core(q) && x in q.arena
    ensures Wake(q).nextFiber == q.nextFiber
    ensures forall f :: f in q.arena ==>
              f in Wake(q).arena && (Wake(q).arena[f].phase.Disposed? <==> q.arena[f].phase.Disposed?)
    ensures Active(Wake(q), x) <==> Active(q, x)
  {
    WakeIsPass(q);
    PassRecords(q, Woken(q), Wake(q));
    assert SameButPhase(q.arena[x], Wake(q).arena[x]);
  }

  /** A calm kernel is not changed by an empty batch. */
  lemma EmptyBatchIsIdle(s: State)
    requires Core(s) && Calm(s)
    ensures RegisterBatch(s, ROOT_CTX, []) == s
  {
    NobodyWakes(s, s.pending);
  }

  lemma CalmEntryRests(s: State, e: Entry)
    requires Core(s) && Calm(s) && e in s.pending
    ensures StillAlive(s, e) && !Wakes(s, e)
  {
    var i :| 0 <= i < |s.pending| && s.pending[i] == e;
    assert StillAlive(s, s.pending[i]);
    WakesIfSatisfied(s, e);
  }

  lemma {:induction false} NobodyWakes(s: State, q: seq<Entry>)
    requires Core(s) && Calm(s) && forall e :: e in q ==> e in s.pending
    ensures ReadyOf(s, q) == [] && RestOf(s, q) == q
  {
    if q != [] {
      CalmEntryRests(s, q[0]);
      NobodyWakes(s, q[1..]);
    }
  }

  // ---- installing ----

  lemma {:induction false} InstallKeys(m: Mounts, specs: map<EntryId, Spec>, ids: seq<EntryId>, base: FiberId)
    requires forall id :: id in ids ==> id in specs
    ensures forall id :: id in Install(m, specs, ids, base) <==> id in m || id in ids
    ensures forall id :: id in m && id !in ids ==> Install(m, specs, ids, base)[id] == m[id]
  {
    if ids != [] {
      InstallKeys(m, specs, ids[..|ids| - 1], base);
      assert ids == ids[..|ids| - 1] + [ids[|ids| - 1]];
    }
  }

  lemma {:induction false} InstallAt(m: Mounts, specs: map<EntryId, Spec>, ids: seq<EntryId>, base: FiberId, i: nat)
    requires Increasing(ids) && i < |ids| && forall id :: id in ids ==> id in specs
    ensures ids[i] in specs && ids[i] in Install(m, specs, ids, base)
    ensures Install(m, specs, ids, base)[ids[i]] == Mounted(specs[ids[i]], base + i)
  {
    var last := |ids| - 1;
    assert ids[i] in ids;
    if i < last {
      assert ids[..last][i] == ids[i] && ids[i] < ids[last];
      InstallAt(m, specs, ids[..last], base, i);
    }
  }

  /** Each installed entry has its options and a fiber of the batch. */
  lemma InstallEach(m: Mounts, specs: map<EntryId, Spec>, ids: seq<EntryId>, base: FiberId, id: EntryId)
    requires Increasing(ids) && id in ids && forall x :: x in ids ==> x in specs
    ensures id in Install(m, specs, ids, base)
    ensures Install(m, specs, ids, base)[id].options == specs[id]
    ensures base <= Install(m, specs, ids, base)[id].fiber < base + |ids|
  {
    var i :| 0 <= i < |ids| && ids[i] == id;
    InstallAt(m, specs, ids, base, i);
  }

  /** Entries installed from `base` on share no fiber with each other or with older ones. */
  lemma InstallOwnFibers(m: Mounts, specs: map<EntryId, Spec>, ids: seq<EntryId>, base: FiberId)
    requires OwnFibers(m) && Increasing(ids) && forall x :: x in ids ==> x in specs
    requires forall id :: id in m ==> m[id].fiber < base
    ensures OwnFibers(Install(m, specs, ids, base))
  {
    var r := Install(m, specs, ids, base);
    InstallKeys(m, specs, ids, base);
    forall a, b | a in r && b in r && a != b ensures r[a].fiber != r[b].fiber {
      InstalledFiber(m, specs, ids, base, a);
      InstalledFiber(m, specs, ids, base, b);
    }
  }

  lemma InstalledFiber(m: Mounts, specs: map<EntryId, Spec>, ids: seq<EntryId>, base: FiberId, id: EntryId)
    requires Increasing(ids) && forall x :: x in ids ==> x in specs
    requires id in Install(m, specs, ids, base)
    ensures id in ids ==>
              base <= Install(m, specs, ids, base)[id].fiber < base + |ids|
              && ids[Install(m, specs, ids, base)[id].fiber - base] == id
    ensures id !in ids ==> id in m && Install(m, specs, ids, base)[id] == m[id]
  {
    InstallKeys(m, specs, ids, base);
    if id in ids {
      var i :| 0 <= i < |ids| && ids[i] == id;
      InstallAt(m, specs, ids, base, i);
    }
  }

  lemma PhaseTwoOwnFibers(kinds: Kinds, s: State, m: Mounts, next: Entries)
    requires LoaderOk(kinds, s, m) && IdsOk(s)
    ensures OwnFibers(MountsTwo(s, m, next))
  {
    CreationsKnown(m, next);
    InstallOwnFibers(m - Removed(m, next), next, Creations(m, next), PhaseOne(s, m, next).nextFiber);
  }

  lemma CreationsKnown(m: Mounts, next: Entries)
    ensures Increasing(Creations(m, next)) && forall id :: id in Creations(m, next) ==> id in next
  {
  }

  lemma RepairOwnFibers(kinds: Kinds, s: State, m: Mounts)
    requires LoaderOk(kinds, s, m) && IdsOk(s)
    ensures OwnFibers(RepairMounts(s, m))
  {
    InstallOwnFibers(m, Options(m), InOrder(Dead(s, m)), s.nextFiber);
  }

  // ---- convergence ----

  lemma NoEdgeToRoot(s: State, a: FiberId)
    requires RootOk(s)
    ensures !Edge(s, a, ROOT_FIBER)
  {
  }

  lemma LastEdge(s: State, a: FiberId, b: FiberId) returns (x: FiberId)
    requires Reaches(s, a, b) && a != b
    ensures Edge(s, x, b)
  {
    var p :| Joins(s, p, a, b);
    x := p[|p| - 2];
    assert Edge(s, p[|p| - 2], p[|p| - 2 + 1]);
  }

  /** The root is nobody's dependent, so no other disposal reaches it. */
  lemma RootIsSpared(s: State, f: FiberId)
    requires RootOk(s) && f != ROOT_FIBER
    ensures ROOT_FIBER !in Doomed(s, f)
  {
    if ROOT_FIBER in Doomed(s, f) {
      var x := LastEdge(s, f, ROOT_FIBER);
      NoEdgeToRoot(s, x);
    }
  }

  /** What phase one leaves of the fibers: only the closure of the removed and replaced ones falls. */
  ghost predicate PhaseOneOk(s: State, m: Mounts, next: Entries, t: State)
  {
    && t.arena.Keys == s.arena.Keys && t.nextFiber == s.nextFiber
    && forall f :: f in s.arena ==>
         (t.arena[f].phase.Disposed? <==>
            s.arena[f].phase.Disposed? || f in DoomedAll(s, FibersOf(m, Replaced(m, next) + Removed(m, next))))
  }

  lemma PhaseOneCore(s: State, roots: set<FiberId>)
    requires Core(s)
    ensures Core(Gone(s, DoomedAll(s, roots)))
    ensures QueueBlocked(s) ==> QueueBlocked(Gone(s, DoomedAll(s, roots)))
  {
    DoomedAllIsClosed(s, roots);
    TornKeepsCore(s, DoomedAll(s, roots), ROOT_FIBER, Disposed);
    if QueueBlocked(s) { TornKeepsBlocked(s, DoomedAll(s, roots), ROOT_FIBER, Disposed); }
  }

  lemma RootStays(s: State, roots: set<FiberId>)
    requires RootOk(s) && ROOT_FIBER !in roots
    ensures Active(Gone(s, DoomedAll(s, roots)), ROOT_FIBER) <==> Active(s, ROOT_FIBER)
  {
    if ROOT_FIBER in DoomedAll(s, roots) {
      var f :| f in roots && ROOT_FIBER in Doomed(s, f);
      RootIsSpared(s, f);
    }
  }

  lemma PhaseOneFibers(s: State, m: Mounts, next: Entries)
    ensures PhaseOneOk(s, m, next, PhaseOne(s, m, next))
  {
  }

  lemma PhaseOneFacts(kinds: Kinds, s: State, m: Mounts, next: Entries)
    requires Core(s) && LoaderOk(kinds, s, m)
    ensures Core(PhaseOne(s, m, next))
    ensures Active(PhaseOne(s, m, next), ROOT_FIBER) <==> Active(s, ROOT_FIBER)
  {
    var roots := FibersOf(m, Replaced(m, next) + Removed(m, next));
    PhaseOneCore(s, roots);
    RootStays(s, roots);
  }

  lemma ActionSets(m: Mounts, next: Entries, id: EntryId)
    ensures id in Created(m, next) <==> id !in m && id in next && Mountable(next, id)
    ensures id in Replaced(m, next) <==> id in m && id in next && Mountable(next, id) && m[id].options != next[id]
    ensures id in Removed(m, next) <==> id in m && !(id in next && Mountable(next, id))
    ensures id in Kept(m, next) && id in m
            <==> id in m && id in next && Mountable(next, id) && m[id].options == next[id]
    ensures id in Creations(m, next) <==> id in Created(m, next) || id in Replaced(m, next)
  {
  }

  /** After phase two each mountable entry is mounted with its new options; kept entries keep their fiber. */
  lemma PhaseTwoEntry(s: State, m: Mounts, next: Entries, id: EntryId)
    ensures id in MountsTwo(s, m, next) <==> id in next && Mountable(next, id)
    ensures id in MountsTwo(s, m, next) ==> MountsTwo(s, m, next)[id].options == next[id]
    ensures id in Kept(m, next) && id in m ==> id in MountsTwo(s, m, next) && MountsTwo(s, m, next)[id] == m[id]
    ensures id in Creations(m, next) ==>
              id in MountsTwo(s, m, next) &&
              PhaseOne(s, m, next).nextFiber <= MountsTwo(s, m, next)[id].fiber
                < PhaseOne(s, m, next).nextFiber + |Creations(m, next)|
  {
    var ids, base := Creations(m, next), PhaseOne(s, m, next).nextFiber;
    ActionSets(m, next, id);
    assert forall x :: x in ids ==> x in next;
    InstallKeys(m - Removed(m, next), next, ids, base);
    if id in ids {
      InstallEach(m - Removed(m, next), next, ids, base, id);
    }
  }

  /** Convergence: after phase two the mounted options are exactly the mountable part of the tree. */
  lemma PhaseTwoConverges(s: State, m: Mounts, next: Entries)
    ensures Options(MountsTwo(s, m, next)) == map id | id in next && Mountable(next, id) :: next[id]
  {
    forall id
      ensures id in MountsTwo(s, m, next) <==> id in next && Mountable(next, id)
      ensures id in MountsTwo(s, m, next) ==> MountsTwo(s, m, next)[id].options == next[id]
    {
      PhaseTwoEntry(s, m, next, id);
    }
  }

  /** What a reconcile pass restarts: kept entries whose fiber was already Disposed or falls in phase one. */
  ghost predicate Casualty(s: State, m: Mounts, next: Entries, id: EntryId)
  {
    && id in Kept(m, next) && id in m && m[id].fiber in s.arena
    && (s.arena[m[id].fiber].phase.Disposed?
        || m[id].fiber in DoomedAll(s, FibersOf(m, Replaced(m, next) + Removed(m, next))))
  }

  /** The mounted entry can be rebuilt and has a known fiber, which is Disposed exactly if `dead` says so. */
  ghost predicate EntryOk(kinds: Kinds, s: State, e: Mounted, dead: bool)
  {
    && Valid(kinds, e.options) && e.fiber in s.arena && e.fiber != ROOT_FIBER
    && (s.arena[e.fiber].phase.Disposed? <==> dead)
  }

  lemma NewEntryOk(kinds: Kinds, s1: State, s2: State, n: nat, alive: bool, e: Mounted)
    requires IdsOk(s1) && RootOk(s1) && Batched(s1, s2, n, alive) && Valid(kinds, e.options)
    requires s1.nextFiber <= e.fiber < s1.nextFiber + n
    ensures EntryOk(kinds, s2, e, !alive)
  {
  }

  lemma OldEntryOk(kinds: Kinds, s1: State, s2: State, n: nat, alive: bool, e: Mounted, dead: bool)
    requires EntryOk(kinds, s1, e, dead) && Batched(s1, s2, n, alive)
    ensures EntryOk(kinds, s2, e, dead)
  {
  }

  lemma PhaseTwoFiber(kinds: Kinds, s: State, m: Mounts, next: Entries, id: EntryId, s1: State, s2: State, alive: bool)
    requires LoaderOk(kinds, s, m) && Buildable(kinds, m, next) && id in MountsTwo(s, m, next)
    requires s1 == PhaseOne(s, m, next) && PhaseOneOk(s, m, next, s1) && RootOk(s1) && IdsOk(s1)
    requires Batched(s1, s2, |Creations(m, next)|, alive)
    ensures EntryOk(kinds, s2, MountsTwo(s, m, next)[id],
                    Casualty(s, m, next, id) || (id in Creations(m, next) && !alive))
  {
    ActionSets(m, next, id);
    PhaseTwoEntry(s, m, next, id);
    var n, e := |Creations(m, next)|, MountsTwo(s, m, next)[id];
    if id in Creations(m, next) {
      NewEntryOk(kinds, s1, s2, n, alive, e);
    } else {
      OldEntryOk(kinds, s1, s2, n, alive, e, Casualty(s, m, next, id));
    }
  }

  lemma EntriesMakeLoaderOk(kinds: Kinds, s: State, m: Mounts, dead: set<EntryId>)
    requires dead <= m.Keys && OwnFibers(m)
    requires forall id :: id in m ==> EntryOk(kinds, s, m[id], id in dead)
    ensures LoaderOk(kinds, s, m) && Dead(s, m) == dead
  {
  }

  ghost function Casualties(s: State, m: Mounts, next: Entries): set<EntryId>
  {
    set id | id in m && Casualty(s, m, next, id)
  }

  /** The entries left dead by phase two; a newcomer is born dead only below a root that is gone. */
  ghost function DeadTwo(s: State, m: Mounts, next: Entries): set<EntryId>
  {
    if Active(s, ROOT_FIBER) then Casualties(s, m, next)
    else Casualties(s, m, next) + Created(m, next) + Replaced(m, next)
  }

  lemma PhaseTwoMounts(kinds: Kinds, s: State, m: Mounts, next: Entries, s1: State, s2: State)
    requires LoaderOk(kinds, s, m) && Buildable(kinds, m, next) && IdsOk(s)
    requires s1 == PhaseOne(s, m, next) && PhaseOneOk(s, m, next, s1) && RootOk(s1) && IdsOk(s1)
    requires Batched(s1, s2, |Creations(m, next)|, Active(s, ROOT_FIBER))
    ensures LoaderOk(kinds, s2, MountsTwo(s, m, next))
    ensures Dead(s2, MountsTwo(s, m, next)) == DeadTwo(s, m, next)
  {
    var m2, dead := MountsTwo(s, m, next), DeadTwo(s, m, next);
    forall id | id in m2 ensures EntryOk(kinds, s2, m2[id], id in dead) {
      PhaseTwoFiber(kinds, s, m, next, id, s1, s2, Active(s, ROOT_FIBER));
      PhaseTwoEntry(s, m, next, id);
    }
    forall id | id in dead ensures id in m2 {
      PhaseTwoEntry(s, m, next, id);
    }
    PhaseTwoOwnFibers(kinds, s, m, next);
    EntriesMakeLoaderOk(kinds, s2, m2, dead);
  }

  lemma RootKnown(s: State)
    requires RootOk(s)
    ensures Known(s, ROOT_CTX)
  {
  }

  lemma BatchFromRoot(s: State, plugins: seq<Plugin>, t: State)
    requires Core(s) && t == RegisterBatch(s, ROOT_CTX, plugins)
    ensures Core(t) && QueueBlocked(t) && Calm(t)
    ensures Batched(s, t, |plugins|, Active(s, ROOT_FIBER))
    ensures Active(t, ROOT_FIBER) <==> Active(s, ROOT_FIBER)
  {
    RootKnown(s);
    BatchKeeps(s, ROOT_CTX, plugins);
    BatchRecords(s, ROOT_CTX, plugins);
  }

  lemma CreationsBatched(kinds: Kinds, m: Mounts, next: Entries, s1: State, s2: State)
    requires Core(s1) && Buildable(kinds, m, next)
    requires s2 == RegisterBatch(s1, ROOT_CTX, PluginsTwo(kinds, m, next))
    ensures Core(s2) && Calm(s2) && QueueBlocked(s2)
    ensures Active(s2, ROOT_FIBER) <==> Active(s1, ROOT_FIBER)
    ensures Batched(s1, s2, |Creations(m, next)|, Active(s1, ROOT_FIBER))
  {
    BatchFromRoot(s1, PluginsTwo(kinds, m, next), s2);
  }

  /** With a live root the dead entries after phase two are exactly the casualties. */
  lemma DeadAreCasualties(kinds: Kinds, s: State, m: Mounts, next: Entries, s2: State)
    requires Core(s) && LoaderOk(kinds, s, m) && Buildable(kinds, m, next)
    requires s2 == PhaseTwo(kinds, s, m, next)
    ensures Core(s2) && Calm(s2) && QueueBlocked(s2) && (Active(s2, ROOT_FIBER) <==> Active(s, ROOT_FIBER))
    ensures LoaderOk(kinds, s2, MountsTwo(s, m, next))
    ensures Dead(s2, MountsTwo(s, m, next)) == DeadTwo(s, m, next)
  {
    PhaseOneFacts(kinds, s, m, next);
    CreationsBatched(kinds, m, next, PhaseOne(s, m, next), s2);
    PhaseOneFibers(s, m, next);
    PhaseTwoMounts(kinds, s, m, next, PhaseOne(s, m, next), s2);
  }

  lemma RepairEntry(kinds: Kinds, s: State, m: Mounts, id: EntryId, t: State)
    requires IdsOk(s) && RootOk(s) && LoaderOk(kinds, s, m)
    requires Batched(s, t, |InOrder(Dead(s, m))|, Active(s, ROOT_FIBER))
    ensures id in RepairMounts(s, m) <==> id in m
    ensures id in m ==> RepairMounts(s, m)[id].options == m[id].options
    ensures id in m && id !in Dead(s, m) ==> RepairMounts(s, m)[id] == m[id]
    ensures id in m ==> EntryOk(kinds, t, RepairMounts(s, m)[id], id in Dead(s, m) && !Active(s, ROOT_FIBER))
  {
    var ids := InOrder(Dead(s, m));
    InstallKeys(m, Options(m), ids, s.nextFiber);
    if id in ids {
      InstallEach(m, Options(m), ids, s.nextFiber, id);
      NewEntryOk(kinds, s, t, |ids|, Active(s, ROOT_FIBER), RepairMounts(s, m)[id]);
    } else if id in m {
      OldEntryOk(kinds, s, t, |ids|, Active(s, ROOT_FIBER), m[id], false);
    }
  }

  lemma SameOptions(m: Mounts, r: Mounts)
    requires forall id :: id in r <==> id in m
    requires forall id :: id in m ==> r[id].options == m[id].options
    ensures Options(r) == Options(m)
  {
  }

  lemma RepairMountsOk(kinds: Kinds, s: State, m: Mounts, t: State, dead: set<EntryId>)
    requires IdsOk(s) && RootOk(s) && LoaderOk(kinds, s, m)
    requires Batched(s, t, |InOrder(Dead(s, m))|, Active(s, ROOT_FIBER))
    requires dead == if Active(s, ROOT_FIBER) then {} else Dead(s, m)
    ensures var r := RepairMounts(s, m);
            && LoaderOk(kinds, t, r) && Options(r) == Options(m) && Dead(t, r) == dead
            && (forall id :: id in m && id !in Dead(s, m) ==> id in r && r[id] == m[id])
  {
    var r := RepairMounts(s, m);
    forall id
      ensures id in r <==> id in m
      ensures id in m ==> r[id].options == m[id].options && EntryOk(kinds, t, r[id], id in dead)
      ensures id in m && id !in Dead(s, m) ==> r[id] == m[id]
    {
      RepairEntry(kinds, s, m, id, t);
    }
    SameOptions(m, r);
    RepairOwnFibers(kinds, s, m);
    EntriesMakeLoaderOk(kinds, t, r, dead);
  }

  lemma RepairCore(kinds: Kinds, s: State, m: Mounts, t: State)
    requires Core(s) && LoaderOk(kinds, s, m) && t == RepairState(kinds, s, m)
    ensures Core(t) && Calm(t) && QueueBlocked(t)
    ensures Batched(s, t, |InOrder(Dead(s, m))|, Active(s, ROOT_FIBER))
    ensures Active(t, ROOT_FIBER) <==> Active(s, ROOT_FIBER)
  {
    BatchFromRoot(s, PluginsOf(kinds, Options(m), InOrder(Dead(s, m))), t);
  }

  /** One repair batch leaves no mounted fiber Disposed if the root is live, and otherwise revives nobody. */
  lemma RepairRevives(kinds: Kinds, s: State, m: Mounts, t: State)
    requires Core(s) && LoaderOk(kinds, s, m) && t == RepairState(kinds, s, m)
    ensures var r := RepairMounts(s, m);
            && LoaderOk(kinds, t, r) && Options(r) == Options(m)
            && Dead(t, r) == (if Active(s, ROOT_FIBER) then {} else Dead(s, m))
            && (forall id :: id in m && id !in Dead(s, m) ==> id in r && r[id] == m[id])
    ensures Core(t) && Calm(t) && QueueBlocked(t)
    ensures Active(t, ROOT_FIBER) <==> Active(s, ROOT_FIBER)
  {
    RepairCore(kinds, s, m, t);
    RepairMountsOk(kinds, s, m, t, if Active(s, ROOT_FIBER) then {} else Dead(s, m));
  }
}
