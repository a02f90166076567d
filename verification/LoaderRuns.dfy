// Sessions that mix kernel operations, kind registrations, mounts and reconciles.

module LoaderRuns {
  import opened Basics
  import opened KernelState
  import opened Operations
  import opened Runs
  import opened EntryTree
  import opened LoaderPlan
  import opened Loader
  import Start
  import Values

  /** A loader together with the kernel it works on. */
  datatype Setup = Setup(kinds: Kinds, kernel: State, mounts: Mounts)

  datatype Deed =
    | OnKernel(op: Op)
    | NewKind(name: KindName, kind: Kind)
    | Mounting(tree: Entries)
    | Reconciling(next: Entries)

  /** One step; a rejected registration, mount or reconcile changes nothing. */
  ghost predicate Does(a: Setup, deed: Deed, b: Setup)
  {
    match deed
    case OnKernel(op) =>
      IsFresh(a.kernel) && Enabled(a.kernel, op) && b == a.(kernel := Apply(a.kernel, op))
    case NewKind(name, kind) =>
      b == if name in a.kinds then a else a.(kinds := a.kinds[name := kind])
    case Mounting(tree) =>
      WellStructured(tree) && b.kinds == a.kinds &&
      (if a.mounts == map[] && Buildable(a.kinds, map[], tree)
       then MountedFresh(a.kinds, a.kernel, tree, b.kernel, b.mounts) else b == a)
    case Reconciling(next) =>
      WellStructured(next) && b.kinds == a.kinds && Terminates(a.kinds, a.kernel, a.mounts, next) &&
      (if Buildable(a.kinds, a.mounts, next)
       then exists r :: Reconciled(a.kinds, a.kernel, a.mounts, next, b.kernel, b.mounts, r) else b == a)
  }

  /** The setups reachable from a new loader on a new kernel. */
  ghost predicate Session(deeds: seq<Deed>, b: Setup)
  {
    if deeds == [] then b == Setup(map[], Init(), map[])
    else
      var before, last := deeds[..|deeds| - 1], deeds[|deeds| - 1];
      exists a :: Session(before, a) && Does(a, last, b)
  }

  ghost predicate SetupOk(a: Setup)
  {
    Inv(a.kernel) && LoaderOk(a.kinds, a.kernel, a.mounts)
  }

  // ---- fibers are never forgotten ----

  lemma ProvideKeepsFibers(s: State, ctx: Ctx, k: Key, v: Value)
    requires Known(s, ctx)
    ensures s.arena.Keys <= Provide(s, ctx, k, v).arena.Keys
  {
    if Active(s, ctx.fiber) {
      var u := Values.BeforeWake(s, ctx, k, v);
      assert s.arena.Keys <= u.arena.Keys;
      WakeKeepsFibers(u);
    }
  }

  lemma WakeKeepsFibers(s: State)
    ensures Start.Wake(s).arena.Keys == s.arena.Keys
  {
    Values.StartAllKeepsRealms(s.(pending := Start.RestOf(s, s.pending)), Start.ReadyOf(s, s.pending));
  }

  lemma {:induction false} EnqueueAllKeepsFibers(s: State, ctx: Ctx, plugins: seq<Plugin>)
    ensures s.arena.Keys <= EnqueueAll(s, ctx, plugins).arena.Keys
  {
    if plugins != [] { EnqueueAllKeepsFibers(s, ctx, plugins[..|plugins| - 1]); }
  }

  /** Every record a handle may name stays, whatever the operation. */
  lemma ApplyKeepsFibers(s: State, op: Op)
    requires IsFresh(s) && Enabled(s, op)
    ensures s.arena.Keys <= Apply(s, op).arena.Keys
  {
    match op
    case OpProvide(ctx, k, v) => ProvideKeepsFibers(s, ctx, k, v);
    case OpBatch(ctx, plugins) =>
      EnqueueAllKeepsFibers(s, ctx, plugins);
      WakeKeepsFibers(EnqueueAll(s, ctx, plugins));
    case OpSetupDone(f) =>
      WakeKeepsFibers(if s.arena[f].disposalStarted then s else s.(arena := s.arena[f := s.arena[f].(phase := Ready)]));
    case OpSetupFailed(f) =>
    case OpDispose(f) =>
    case _ =>
  }

  lemma LoaderOkOnKernel(kinds: Kinds, s: State, m: Mounts, t: State)
    requires LoaderOk(kinds, s, m) && s.arena.Keys <= t.arena.Keys
    ensures LoaderOk(kinds, t, m)
  {
  }

  // ---- every step keeps both invariants ----

  lemma NewKindKeeps(a: Setup, name: KindName, kind: Kind)
    requires SetupOk(a) && name !in a.kinds
    ensures SetupOk(a.(kinds := a.kinds[name := kind]))
  {
  }

  lemma MountKeeps(kinds: Kinds, s: State, tree: Entries, s': State, m': Mounts)
    requires Core(s) && MountedFresh(kinds, s, tree, s', m')
    ensures Inv(s') && LoaderOk(kinds, s', m')
  {
    FreshPhases(kinds, s, tree);
    DeadAreCasualties(kinds, s, map[], tree, s');
  }

  lemma ReconcileKeeps(kinds: Kinds, s: State, m: Mounts, next: Entries, s': State, m': Mounts, r: Report)
    requires Core(s) && LoaderOk(kinds, s, m) && Reconciled(kinds, s, m, next, s', m', r)
    ensures Inv(s') && LoaderOk(kinds, s', m')
  {
    var s2, m2 := PhaseTwo(kinds, s, m, next), MountsTwo(s, m, next);
    DeadAreCasualties(kinds, s, m, next, s2);
    if Dead(s2, m2) != {} { RepairRevives(kinds, s2, m2, s'); }
  }

  lemma DeedKeeps(a: Setup, deed: Deed, b: Setup)
    requires SetupOk(a) && Does(a, deed, b)
    ensures SetupOk(b)
  {
    match deed
    case OnKernel(op) =>
      ApplyKeepsInv(a.kernel, op);
      ApplyKeepsFibers(a.kernel, op);
      LoaderOkOnKernel(a.kinds, a.kernel, a.mounts, b.kernel);
    case NewKind(name, kind) =>
      if name !in a.kinds { NewKindKeeps(a, name, kind); }
    case Mounting(tree) =>
      if b != a { MountKeeps(a.kinds, a.kernel, tree, b.kernel, b.mounts); }
    case Reconciling(next) =>
      if Buildable(a.kinds, a.mounts, next) {
        var r :| Reconciled(a.kinds, a.kernel, a.mounts, next, b.kernel, b.mounts, r);
        ReconcileKeeps(a.kinds, a.kernel, a.mounts, next, b.kernel, b.mounts, r);
      }
  }

  /**
   * Over every session the kernel's invariant holds, every mounted entry can be rebuilt, and each has a
   * known fiber of its own that is not the root.
   */
  lemma {:induction false} EverySessionIsOk(deeds: seq<Deed>, b: Setup)
    requires Session(deeds, b)
    ensures SetupOk(b)
    decreases |deeds|
  {
    if deeds == [] {
      InitInv();
    } else {
      var a :| Session(deeds[..|deeds| - 1], a) && Does(a, deeds[|deeds| - 1], b);
      EverySessionIsOk(deeds[..|deeds| - 1], a);
      DeedKeeps(a, deeds[|deeds| - 1], b);
    }
  }
}
