// When the repair loop of a reconcile pass ends.

module Repair {
  import opened Basics
  import opened Sorting
  import opened KernelState
  import opened Disposal
  import opened Teardown
  import opened Operations
  import opened Runs
  import opened EntryTree
  import opened LoaderPlan
  import opened Loader
  import Values

  /** The kernel and the mounts after `n` rounds of the repair loop, which stops once nothing is dead. */
  ghost function Passes(kinds: Kinds, s: State, m: Mounts, n: nat): (r: (State, Mounts))
    requires Core(s) && LoaderOk(kinds, s, m)
    ensures Core(r.0) && LoaderOk(kinds, r.0, r.1)
    ensures Active(r.0, ROOT_FIBER) <==> Active(s, ROOT_FIBER)
    ensures !Active(s, ROOT_FIBER) ==> Dead(r.0, r.1) == Dead(s, m)
  {
    if n == 0 then (s, m)
    else
      var p := Passes(kinds, s, m, n - 1);
      if Dead(p.0, p.1) == {} then p
      else
        RepairRevives(kinds, p.0, p.1, RepairState(kinds, p.0, p.1));
        (RepairState(kinds, p.0, p.1), RepairMounts(p.0, p.1))
  }

  /** After some number of rounds nothing is dead, and the loop returns. */
  ghost predicate RepairEnds(kinds: Kinds, s: State, m: Mounts)
    requires Core(s) && LoaderOk(kinds, s, m)
  {
    exists n :: NothingDead(Passes(kinds, s, m, n))
  }

  ghost predicate NothingDead(r: (State, Mounts))
  {
    Dead(r.0, r.1) == {}
  }

  /** The repair loop ends if and only if the root is live or nothing is dead to begin with. */
  lemma RepairEndsIff(kinds: Kinds, s: State, m: Mounts)
    requires Core(s) && LoaderOk(kinds, s, m)
    ensures RepairEnds(kinds, s, m) <==> Active(s, ROOT_FIBER) || Dead(s, m) == {}
  {
    var p := Passes(kinds, s, m, 0);
    assert p == (s, m);
    if Dead(s, m) == {} {
      assert NothingDead(p);
    } else if Active(s, ROOT_FIBER) {
      RepairRevives(kinds, s, m, RepairState(kinds, s, m));
      assert Passes(kinds, s, m, 1) == (RepairState(kinds, s, m), RepairMounts(s, m));
      assert NothingDead(Passes(kinds, s, m, 1));
    }
  }

  /** Below a root that is gone, every number of rounds leaves the same entries dead. */
  lemma RepairNeverEnds(kinds: Kinds, s: State, m: Mounts, n: nat)
    requires Core(s) && LoaderOk(kinds, s, m) && !Active(s, ROOT_FIBER)
    ensures Dead(Passes(kinds, s, m, n).0, Passes(kinds, s, m, n).1) == Dead(s, m)
    ensures !Active(Passes(kinds, s, m, n).0, ROOT_FIBER)
    ensures Dead(RepairState(kinds, s, m), RepairMounts(s, m)) == Dead(s, m)
    ensures !Active(RepairState(kinds, s, m), ROOT_FIBER)
    ensures Dead(s, m) != {} ==> !RepairEnds(kinds, s, m)
  {
    RepairRevives(kinds, s, m, RepairState(kinds, s, m));
    RepairEndsIff(kinds, s, m);
  }

  /** Below a root that is gone no fiber is registered, so phase one disposes nothing. */
  lemma NothingLeftToDispose(s: State, roots: set<FiberId>)
    requires Core(s) && !Active(s, ROOT_FIBER)
    ensures DoomedAll(s, roots) == {}
  {
    RootDoomsAll(s);
  }

  /** The pass has nothing to register: no entry to create or replace, and no kept one with a Disposed fiber. */
  ghost predicate NothingToRegister(s: State, m: Mounts, next: Entries)
  {
    && Created(m, next) == {} && Replaced(m, next) == {}
    && forall id :: id in m && id in Kept(m, next) && m[id].fiber in s.arena ==> !s.arena[m[id].fiber].phase.Disposed?
  }

  lemma DeadTwoBelowDeadRoot(s: State, m: Mounts, next: Entries)
    requires Core(s) && !Active(s, ROOT_FIBER)
    ensures DeadTwo(s, m, next) == {} <==> NothingToRegister(s, m, next)
  {
    NothingLeftToDispose(s, FibersOf(m, Replaced(m, next) + Removed(m, next)));
    forall id ensures id in Casualties(s, m, next) <==>
                        id in m && id in Kept(m, next) && m[id].fiber in s.arena && s.arena[m[id].fiber].phase.Disposed?
    {
    }
  }

  /**
   * A pass that gets past validation ends if and only if the root is live before it, or the pass has nothing
   * to register. This is exactly the condition `Terminates`.
   */
  lemma ReconcileEndsIff(kinds: Kinds, s: State, m: Mounts, next: Entries)
    requires Core(s) && LoaderOk(kinds, s, m) && Buildable(kinds, m, next)
    ensures Core(PhaseTwo(kinds, s, m, next)) && LoaderOk(kinds, PhaseTwo(kinds, s, m, next), MountsTwo(s, m, next))
    ensures RepairEnds(kinds, PhaseTwo(kinds, s, m, next), MountsTwo(s, m, next))
       <==> Active(s, ROOT_FIBER) || NothingToRegister(s, m, next)
    ensures Terminates(kinds, s, m, next) <==> Active(s, ROOT_FIBER) || NothingToRegister(s, m, next)
  {
    DeadAreCasualties(kinds, s, m, next, PhaseTwo(kinds, s, m, next));
    RepairEndsIff(kinds, PhaseTwo(kinds, s, m, next), MountsTwo(s, m, next));
    if !Active(s, ROOT_FIBER) { DeadTwoBelowDeadRoot(s, m, next); }
  }

  /**
   * The family on which the documented termination fails: dispose the root of a kernel whose loader has a
   * running entry, then reconcile a tree that keeps the entry.
   */
  lemma DisposedRootLoops(kinds: Kinds, s: State, m: Mounts, next: Entries, id: EntryId, t: State)
    requires Core(s) && LoaderOk(kinds, s, m) && Active(s, ROOT_FIBER) && Buildable(kinds, m, next)
    requires id in m && id in Kept(m, next) && m[id].fiber in s.registry
    requires t == DisposeState(s, ROOT_FIBER, Disposed)
    ensures Core(t) && LoaderOk(kinds, t, m) && !Active(t, ROOT_FIBER) && !Terminates(kinds, t, m, next)
    ensures Core(PhaseTwo(kinds, t, m, next)) && LoaderOk(kinds, PhaseTwo(kinds, t, m, next), MountsTwo(t, m, next))
    ensures !RepairEnds(kinds, PhaseTwo(kinds, t, m, next), MountsTwo(t, m, next))
  {
    RootDoomsAll(s);
    RootTornDown(kinds, s, m, id);
    ReconcileEndsIff(kinds, t, m, next);
  }

  lemma RootTornDown(kinds: Kinds, s: State, m: Mounts, id: EntryId)
    requires Core(s) && LoaderOk(kinds, s, m) && Active(s, ROOT_FIBER) && id in m && m[id].fiber in s.registry
    ensures var t := DisposeState(s, ROOT_FIBER, Disposed);
            && Core(t) && LoaderOk(kinds, t, m) && !Active(t, ROOT_FIBER)
            && m[id].fiber in t.arena && t.arena[m[id].fiber].phase.Disposed?
  {
    RootDoomsAll(s);
    DisposeKeeps(s, ROOT_FIBER, Disposed);
    AllGone(kinds, s, m, id, Gone(s, s.registry));
  }

  lemma AllGone(kinds: Kinds, s: State, m: Mounts, id: EntryId, t: State)
    requires LoaderOk(kinds, s, m) && id in m && m[id].fiber in s.registry && t == Gone(s, s.registry)
    ensures LoaderOk(kinds, t, m) && !Active(t, ROOT_FIBER)
    ensures m[id].fiber in t.arena && t.arena[m[id].fiber].phase.Disposed?
  {
  }

  // ---- one entry on a fresh kernel ----

  function OneKind(): Kinds
  {
    map[0 := Kind((c: Config) => Some(Plugin([], [])))]
  }

  function OneEntry(): Entries
  {
    map[1 := Spec(1, Some(0), None, None, None)]
  }

  function OneMount(): Mounts
  {
    map[1 := Mounted(OneEntry()[1], 1)]
  }

  function OneRunning(): State
  {
    RegisterBatch(Init(), ROOT_CTX, [Plugin([], [])])
  }

  lemma OneIsMountable()
    ensures forall id :: id in OneEntry() && Mountable(OneEntry(), id) <==> id == 1
  {
    var es := OneEntry();
    forall n: nat, x: EntryId | Climb(es, 1, n) == Some(x) ensures x == 1 && n == 0 {
      if n > 0 { NoParents(es, 1, n); }
    }
    assert !DisabledAbove(es, 1);
  }

  lemma {:induction false} NoParents(es: Entries, id: EntryId, n: nat)
    requires es == OneEntry() && n > 0
    ensures Climb(es, id, n).None?
  {
    if n > 1 { NoParents(es, id, n - 1); }
  }

  lemma OneIsCreated()
    ensures Created(map[], OneEntry()) == {1} && Replaced(map[], OneEntry()) == {}
  {
    OneIsMountable();
    forall id ensures id in Created(map[], OneEntry()) <==> id == 1 { ActionSets(map[], OneEntry(), id); }
    forall id ensures id !in Replaced(map[], OneEntry()) { ActionSets(map[], OneEntry(), id); }
  }

  lemma OneIsBuilt(ids: seq<EntryId>)
    requires ids == [1]
    ensures PluginsOf(OneKind(), OneEntry(), ids) == [Plugin([], [])]
    ensures Install(map[], OneEntry(), ids, 1) == OneMount()
  {
    assert ids[..0] == [];
    assert PluginsOf(OneKind(), OneEntry(), ids[..0]) == [];
    assert Install(map[], OneEntry(), ids[..0], 1) == map[];
  }

  lemma OneIsMounted()
    ensures MountedFresh(OneKind(), Init(), OneEntry(), OneRunning(), OneMount())
  {
    OneIsCreated();
    IncreasingIsUnique(InOrder({1}), [1]);
    OneIsBuilt([1]);
  }

  lemma OneIsKept()
    ensures Created(OneMount(), OneEntry()) == {} && Replaced(OneMount(), OneEntry()) == {}
    ensures 1 in Kept(OneMount(), OneEntry())
  {
    OneIsMountable();
    forall id
      ensures id !in Created(OneMount(), OneEntry()) && id !in Replaced(OneMount(), OneEntry())
    {
      ActionSets(OneMount(), OneEntry(), id);
    }
    ActionSets(OneMount(), OneEntry(), 1);
  }

  lemma OneIsRunning()
    ensures Core(OneRunning()) && Active(OneRunning(), ROOT_FIBER)
    ensures 1 in OneRunning().registry && 1 in OneRunning().arena
  {
    InitInv();
    BatchFromRoot(Init(), [Plugin([], [])], OneRunning());
    OneIsQueued(EnqueueAll(Init(), ROOT_CTX, [Plugin([], [])]));
    Values.WakeKeepsValues(EnqueueAll(Init(), ROOT_CTX, [Plugin([], [])]), 1, 0);
  }

  lemma OneIsQueued(q: State)
    requires q == EnqueueAll(Init(), ROOT_CTX, [Plugin([], [])])
    ensures 1 in q.registry && 1 in q.arena
  {
    assert [Plugin([], [])][..0] == [];
    assert EnqueueAll(Init(), ROOT_CTX, []) == Init();
  }

  lemma OneIsOk(s: State)
    requires 1 in s.arena
    ensures LoaderOk(OneKind(), s, OneMount())
  {
  }

  /** The smallest such run: mount one entry, dispose the root, reconcile the same tree. */
  lemma OneEntryLoops(s: State, t: State)
    requires s == OneRunning() && t == DisposeState(s, ROOT_FIBER, Disposed)
    ensures MountedFresh(OneKind(), Init(), OneEntry(), s, OneMount())
    ensures Core(t) && LoaderOk(OneKind(), t, OneMount()) && Buildable(OneKind(), OneMount(), OneEntry())
    ensures Core(PhaseTwo(OneKind(), t, OneMount(), OneEntry()))
         && LoaderOk(OneKind(), PhaseTwo(OneKind(), t, OneMount(), OneEntry()), MountsTwo(t, OneMount(), OneEntry()))
    ensures !RepairEnds(OneKind(), PhaseTwo(OneKind(), t, OneMount(), OneEntry()), MountsTwo(t, OneMount(), OneEntry()))
  {
    OneIsMounted();
    OneIsKept();
    OneIsRunning();
    OneIsOk(s);
    assert Buildable(OneKind(), OneMount(), OneEntry());
    DisposedRootLoops(OneKind(), s, OneMount(), OneEntry(), 1, t);
  }

  // ---- what a pass restarts ----

  /** The entry's fiber falls as a side effect of the pass. */
  ghost predicate FallsInPass(s: State, m: Mounts, next: Entries, id: EntryId)
  {
    id in m && m[id].fiber in DoomedAll(s, Disposals(m, next))
  }

  /** The entry is kept and its fiber was Disposed before the pass began. */
  ghost predicate WasDisposed(s: State, m: Mounts, next: Entries, id: EntryId)
  {
    id in m && id in Kept(m, next) && m[id].fiber in s.arena && s.arena[m[id].fiber].phase.Disposed?
  }

  /** What was Disposed is not registered, so no disposal reaches it. */
  lemma DisposedIsOutside(s: State, f: FiberId, roots: set<FiberId>)
    requires Quiescent(s) && f in s.arena && s.arena[f].phase.Disposed?
    ensures f !in DoomedAll(s, roots)
  {
  }

  /**
   * With a live root the restarted entries are all side effects of the pass if and only if no kept entry's
   * fiber was Disposed before the pass.
   */
  lemma RestartedAreSideEffectsIff(kinds: Kinds, s: State, m: Mounts, next: Entries, s': State, m': Mounts, r: Report)
    requires Core(s) && LoaderOk(kinds, s, m) && Active(s, ROOT_FIBER)
    requires Reconciled(kinds, s, m, next, s', m', r)
    ensures (forall id :: id in r.restarted ==> FallsInPass(s, m, next, id))
       <==> forall id :: !WasDisposed(s, m, next, id)
  {
    KeptEntriesKeepTheirFiber(kinds, s, m, next, s', m', r);
    forall id
      ensures id in r.restarted <==> WasDisposed(s, m, next, id) || (id in Kept(m, next) && FallsInPass(s, m, next, id))
      ensures WasDisposed(s, m, next, id) ==> !FallsInPass(s, m, next, id)
    {
      RestartedIff(kinds, s, m, next, id);
    }
  }

  lemma RestartedIff(kinds: Kinds, s: State, m: Mounts, next: Entries, id: EntryId)
    requires Quiescent(s) && LoaderOk(kinds, s, m)
    ensures id in m && Casualty(s, m, next, id) <==>
              WasDisposed(s, m, next, id) || (id in Kept(m, next) && FallsInPass(s, m, next, id))
    ensures WasDisposed(s, m, next, id) ==> !FallsInPass(s, m, next, id)
  {
    if WasDisposed(s, m, next, id) { DisposedIsOutside(s, m[id].fiber, Disposals(m, next)); }
  }

  /** The entry's fiber was disposed by hand; a pass with the same tree disposes nobody and restarts the entry. */
  lemma HandDisposedIsRestarted(t: State) returns (s2: State, m2: Mounts)
    requires t == DisposeState(OneRunning(), 1, Disposed)
    ensures Buildable(OneKind(), OneMount(), OneEntry())
    ensures s2 == PhaseTwo(OneKind(), t, OneMount(), OneEntry()) && m2 == MountsTwo(t, OneMount(), OneEntry())
    ensures Disposals(OneMount(), OneEntry()) == {} && LoaderOk(OneKind(), s2, m2)
    ensures Reconciled(OneKind(), t, OneMount(), OneEntry(), RepairState(OneKind(), s2, m2), RepairMounts(s2, m2),
                       Report([], [], [], [1], 1))
  {
    OneIsDisposed(t);
    OneIsKept();
    NoneRemoved();
    s2, m2 := PhaseTwo(OneKind(), t, OneMount(), OneEntry()), MountsTwo(t, OneMount(), OneEntry());
    OnlyOneIsDead(t);
    DeadAreCasualties(OneKind(), t, OneMount(), OneEntry(), s2);
    assert InOrder({}) == [];
    IncreasingIsUnique(InOrder({1}), [1]);
  }

  lemma OnlyOneIsDead(t: State)
    requires 1 in t.arena && t.arena[1].phase.Disposed? && Active(t, ROOT_FIBER)
    ensures DeadTwo(t, OneMount(), OneEntry()) == {1} && Kept(OneMount(), OneEntry()) == {1}
  {
    OneIsKept();
  }

  lemma NoneRemoved()
    ensures Removed(OneMount(), OneEntry()) == {}
  {
    OneIsMountable();
    forall id ensures id !in Removed(OneMount(), OneEntry()) { ActionSets(OneMount(), OneEntry(), id); }
  }

  lemma OneIsDisposed(t: State)
    requires t == DisposeState(OneRunning(), 1, Disposed)
    ensures Core(t) && LoaderOk(OneKind(), t, OneMount()) && Active(t, ROOT_FIBER)
    ensures 1 in t.arena && t.arena[1].phase.Disposed?
  {
    OneIsRunning();
    DisposeKeeps(OneRunning(), 1, Disposed);
    ChildFalls(OneRunning(), 1);
    OneIsOk(t);
  }

  /** Disposing a live fiber other than the root finishes it and leaves the root active. */
  lemma ChildFalls(s: State, f: FiberId)
    requires RootOk(s) && Quiescent(s) && Active(s, ROOT_FIBER) && f in s.registry && f in s.arena && f != ROOT_FIBER
    ensures var t := DisposeState(s, f, Disposed);
            Active(t, ROOT_FIBER) && f in t.arena && t.arena[f].phase.Disposed?
  {
    DoomedIsClosed(s, f);
    RootIsSpared(s, f);
  }
}
