// The loader: reconciling the mounted set against a tree, over a running kernel.

module Loader {
  import opened Basics
  import opened Sorting
  import opened KernelState
  import opened Disposal
  import opened Teardown
  import opened Start
  import opened Operations
  import opened EntryTree
  import opened LoaderPlan
  import opened Trace
  import opened Logs
  import Kernel

  /** What one reconcile pass did. */
  datatype Report = Report(created: seq<EntryId>, updated: seq<EntryId>, removed: seq<EntryId>,
                           restarted: seq<EntryId>, kept: nat)

  // ---- the outcome of a whole pass ----

  ghost predicate Terminates(kinds: Kinds, s: State, m: Mounts, next: Entries)
  {
    Buildable(kinds, m, next) ==> Active(s, ROOT_FIBER) || DeadTwo(s, m, next) == {}
  }

  /** `s'` and `m'` are what the repair of `s` and `m` leaves. */
  ghost predicate Repaired(kinds: Kinds, s: State, m: Mounts, s': State, m': Mounts)
  {
    if Dead(s, m) == {} then s' == s && m' == m
    else (forall id :: id in m ==> Valid(kinds, m[id].options))
             && s' == RepairState(kinds, s, m) && m' == RepairMounts(s, m)
  }

  /** A successful pass takes `s` and `m` to `s'` and `m'` and reports `r`. */
  ghost predicate Reconciled(kinds: Kinds, s: State, m: Mounts, next: Entries, s': State, m': Mounts, r: Report)
  {
    && Buildable(kinds, m, next)
    && Repaired(kinds, PhaseTwo(kinds, s, m, next), MountsTwo(s, m, next), s', m')
    && r == Report(InOrder(Created(m, next)), InOrder(Replaced(m, next)), InOrder(Removed(m, next)),
                   InOrder(DeadTwo(s, m, next)), |Kept(m, next)|)
  }

  /**
   * Convergence. With a live root a successful pass leaves mounted exactly the mountable part of the tree
   * with its options, no mounted fiber Disposed, and the loader's and the kernel's invariants intact.
   */
  lemma ReconcileConverges(kinds: Kinds, s: State, m: Mounts, next: Entries, s': State, m': Mounts, r: Report)
    requires Core(s) && LoaderOk(kinds, s, m) && Active(s, ROOT_FIBER)
    requires Reconciled(kinds, s, m, next, s', m', r)
    ensures Options(m') == map id | id in next && Mountable(next, id) :: next[id]
    ensures Core(s') && QueueBlocked(s') && Calm(s') && LoaderOk(kinds, s', m') && Active(s', ROOT_FIBER)
    ensures Dead(s', m') == {}
  {
    var s2, m2 := PhaseTwo(kinds, s, m, next), MountsTwo(s, m, next);
    DeadAreCasualties(kinds, s, m, next, s2);
    PhaseTwoConverges(s, m, next);
    if Dead(s2, m2) != {} {
      RepairRevives(kinds, s2, m2, s');
    }
  }

  /**
   * Untouched entries keep running: a kept entry keeps its fiber unless that fiber was already Disposed or
   * lies in the closure of the removed and replaced ones; exactly those are reported as restarted.
   */
  lemma KeptEntriesKeepTheirFiber(kinds: Kinds, s: State, m: Mounts, next: Entries, s': State, m': Mounts, r: Report)
    requires Core(s) && LoaderOk(kinds, s, m) && Active(s, ROOT_FIBER)
    requires Reconciled(kinds, s, m, next, s', m', r)
    ensures forall id :: id in m && id in Kept(m, next) && !Casualty(s, m, next, id) ==> id in m' && m'[id] == m[id]
    ensures forall id :: id in r.restarted <==> id in m && Casualty(s, m, next, id)
  {
    var s2, m2 := PhaseTwo(kinds, s, m, next), MountsTwo(s, m, next);
    DeadAreCasualties(kinds, s, m, next, s2);
    if Dead(s2, m2) != {} {
      RepairRevives(kinds, s2, m2, s');
    }
    forall id | id in m && id in Kept(m, next) && !Casualty(s, m, next, id) ensures id in m' && m'[id] == m[id] {
      PhaseTwoEntry(s, m, next, id);
    }
  }

  lemma {:induction false} InOrderSize(s: set<EntryId>)
    ensures |InOrder(s)| == |s|
  {
    DistinctSize(InOrder(s));
    assert Elements(InOrder(s)) == s;
  }

  lemma FourParts<T>(all: set<T>, a: set<T>, b: set<T>, c: set<T>, d: set<T>)
    requires forall x :: x in all <==> x in a || x in b || x in c || x in d
    requires forall x :: x in a ==> x !in b && x !in c && x !in d
    requires forall x :: x in b ==> x !in c && x !in d
    requires forall x :: x in c ==> x !in d
    ensures |a| + |b| + |c| + |d| == |all|
  {
    assert all == ((a + b) + c) + d;
    assert a !! b && (a + b) !! c && ((a + b) + c) !! d;
  }

  lemma OneAction(m: Mounts, next: Entries, id: EntryId)
    ensures id in Ids(m, next) <==>
              id in Created(m, next) || id in Replaced(m, next) || id in Removed(m, next) || id in Kept(m, next)
    ensures id in Created(m, next) ==> id !in Replaced(m, next) && id !in Removed(m, next) && id !in Kept(m, next)
    ensures id in Replaced(m, next) ==> id !in Removed(m, next) && id !in Kept(m, next)
    ensures id in Removed(m, next) ==> id !in Kept(m, next)
  {
  }

  lemma ActionsPartition(m: Mounts, next: Entries)
    ensures |Created(m, next)| + |Replaced(m, next)| + |Removed(m, next)| + |Kept(m, next)| == |Ids(m, next)|
  {
    var all, a, b, c, d := Ids(m, next), Created(m, next), Replaced(m, next), Removed(m, next), Kept(m, next);
    forall id
      ensures id in all <==> id in a || id in b || id in c || id in d
      ensures id in a ==> id !in b && id !in c && id !in d
      ensures id in b ==> id !in c && id !in d
      ensures id in c ==> id !in d
    {
      OneAction(m, next, id);
    }
    FourParts(all, a, b, c, d);
  }

  /** Every id of either tree is accounted for exactly once. */
  lemma CountsAddUp(kinds: Kinds, s: State, m: Mounts, next: Entries, s': State, m': Mounts, r: Report)
    requires Reconciled(kinds, s, m, next, s', m', r)
    ensures r.kept + |r.created| + |r.updated| + |r.removed| == |m.Keys + next.Keys|
  {
    ActionsPartition(m, next);
    InOrderSize(Created(m, next));
    InOrderSize(Replaced(m, next));
    InOrderSize(Removed(m, next));
  }

  /** The entries a pass leaves untouched: mounted before, with the same options, and not restarted. */
  ghost function Untouched(s: State, m: Mounts, next: Entries): set<EntryId>
  {
    set id | id in m && id in Kept(m, next) && !Casualty(s, m, next, id)
  }

  lemma KeptParts(s: State, m: Mounts, next: Entries, id: EntryId)
    ensures id in Kept(m, next) <==>
              || id in Untouched(s, m, next)
              || id in Casualties(s, m, next)
              || (id in next && id !in m && !Mountable(next, id))
    ensures id in Casualties(s, m, next) ==> id !in Untouched(s, m, next)
  {
    ActionSets(m, next, id);
  }

  /**
   * The reported count of kept entries is the number of untouched ones if and only if the pass restarts
   * nobody and every entry of the tree that was not mounted is mountable.
   */
  lemma KeptCountsUntouched(kinds: Kinds, s: State, m: Mounts, next: Entries, s': State, m': Mounts, r: Report)
    requires Reconciled(kinds, s, m, next, s', m', r)
    ensures r.kept == |Untouched(s, m, next)| <==>
              Casualties(s, m, next) == {} && forall id :: id in next && id !in m ==> Mountable(next, id)
  {
    KeptInParts(s, m, next);
    SameSizeNoRest(Kept(m, next), Untouched(s, m, next), Casualties(s, m, next), Idle(m, next));
  }

  /** Groups and disabled rows that were not mounted either. */
  ghost function Idle(m: Mounts, next: Entries): set<EntryId>
  {
    set id | id in next && id !in m && !Mountable(next, id)
  }

  lemma KeptInParts(s: State, m: Mounts, next: Entries)
    ensures forall id :: id in Kept(m, next) <==>
                           id in Untouched(s, m, next) || id in Casualties(s, m, next) || id in Idle(m, next)
    ensures forall id :: id in Casualties(s, m, next) || id in Idle(m, next) ==> id !in Untouched(s, m, next)
    ensures Idle(m, next) == {} <==> forall id :: id in next && id !in m ==> Mountable(next, id)
  {
    forall id
      ensures id in Kept(m, next) <==>
                id in Untouched(s, m, next) || id in Casualties(s, m, next) || id in Idle(m, next)
      ensures id in Casualties(s, m, next) ==> id !in Untouched(s, m, next)
    {
      KeptParts(s, m, next, id);
    }
    assert forall id :: id in Idle(m, next) <==> id in next && id !in m && !Mountable(next, id);
    if Idle(m, next) == {} {
      forall id | id in next && id !in m ensures Mountable(next, id) {
        assert id !in Idle(m, next);
      }
    }
  }

  lemma SameSizeNoRest<T>(all: set<T>, a: set<T>, b: set<T>, c: set<T>)
    requires forall x :: x in all <==> x in a || x in b || x in c
    requires forall x :: x in b || x in c ==> x !in a
    ensures |all| == |a| <==> b == {} && c == {}
  {
    SameSizeSameSet(a, all);
    assert b <= all - a && c <= all - a;
    assert all == a ==> all - a == {};
    assert b == {} && c == {} ==> all == a;
  }

  lemma SameSizeSameSet<T>(a: set<T>, b: set<T>)
    requires a <= b
    ensures |a| == |b| <==> a == b
  {
    assert b == a + (b - a);
    if |a| == |b| { assert b - a == {}; }
  }

  lemma NothingToDo(s: State, m: Mounts, next: Entries)
    requires Options(m) == map id | id in next && Mountable(next, id) :: next[id]
    ensures Created(m, next) == {} && Replaced(m, next) == {} && Removed(m, next) == {}
    ensures Kept(m, next) == Ids(m, next)
  {
    forall id ensures id in m <==> id in next && Mountable(next, id) {
      assert id in Options(m) <==> id in m;
    }
    forall id | id in m ensures m[id].options == next[id] {
      assert Options(m)[id] == m[id].options;
    }
  }

  lemma NobodyDisposed(s: State, m: Mounts, next: Entries)
    requires Replaced(m, next) == {} && Removed(m, next) == {}
    ensures PhaseOne(s, m, next) == s
  {
    var roots := FibersOf(m, Replaced(m, next) + Removed(m, next));
    assert roots == {};
    NothingDoomed(s, roots);
    GoneNone(s);
  }

  lemma NothingPlanned(kinds: Kinds, s: State, m: Mounts, next: Entries)
    requires Created(m, next) == {} && Replaced(m, next) == {} && Removed(m, next) == {}
    ensures Buildable(kinds, m, next) && PluginsTwo(kinds, m, next) == []
    ensures MountsTwo(s, m, next) == m
  {
    assert Created(m, next) + Replaced(m, next) == {};
    assert Creations(m, next) == [];
    assert m - {} == m;
  }

  lemma IdlePhases(kinds: Kinds, s: State, m: Mounts, next: Entries)
    requires Core(s) && Calm(s)
    requires Created(m, next) == {} && Replaced(m, next) == {} && Removed(m, next) == {}
    ensures Buildable(kinds, m, next)
    ensures PhaseTwo(kinds, s, m, next) == s && MountsTwo(s, m, next) == m
  {
    NothingPlanned(kinds, s, m, next);
    NobodyDisposed(s, m, next);
    EmptyBatchIsIdle(s);
  }

  /**
   * An immediate second pass with the same tree succeeds and ends, and whatever it leaves, it has changed
   * nothing and reports everything as kept.
   */
  lemma SecondPassIsIdle(kinds: Kinds, s: State, m: Mounts, next: Entries, s': State, m': Mounts, r: Report)
    requires Core(s) && LoaderOk(kinds, s, m) && Active(s, ROOT_FIBER)
    requires Reconciled(kinds, s, m, next, s', m', r)
    ensures Buildable(kinds, m', next) && Terminates(kinds, s', m', next)
    ensures forall s'', m'', r' :: Reconciled(kinds, s', m', next, s'', m'', r') <==>
              s'' == s' && m'' == m' && r' == Report([], [], [], [], |m'.Keys + next.Keys|)
  {
    ReconcileConverges(kinds, s, m, next, s', m', r);
    NothingToDo(s', m', next);
    IdlePhases(kinds, s', m', next);
    DeadAreCasualties(kinds, s', m', next, PhaseTwo(kinds, s', m', next));
    assert InOrder({}) == [];
  }

  /** Reconciling an empty loader against a single group reports one kept entry, although none was mounted. */
  lemma GroupIsReportedKept(kinds: Kinds, s: State, next: Entries)
    requires Core(s) && Calm(s) && Active(s, ROOT_FIBER) && next == map[1 := Spec(1, None, None, None, None)]
    ensures Reconciled(kinds, s, map[], next, s, map[], Report([], [], [], [], 1))
    ensures Untouched(s, map[], next) == {}
  {
    var m: Mounts := map[];
    forall id
      ensures id in Kept(m, next) <==> id == 1
      ensures id !in Created(m, next) && id !in Replaced(m, next) && id !in Removed(m, next)
    {
      KeptParts(s, m, next, id);
      ActionSets(m, next, id);
    }
    assert Kept(m, next) == {1};
    IdlePhases(kinds, s, m, next);
    assert LoaderOk(kinds, s, m);
    DeadAreCasualties(kinds, s, m, next, s);
  }

  /** What mounting a tree on an empty loader leaves. */
  ghost predicate MountedFresh(kinds: Kinds, s: State, tree: Entries, s': State, m': Mounts)
  {
    && Buildable(kinds, map[], tree)
    && var ids := InOrder(Created(map[], tree));
    && s' == RegisterBatch(s, ROOT_CTX, PluginsOf(kinds, tree, ids))
    && m' == Install(map[], tree, ids, s.nextFiber)
  }

  lemma FreshPhases(kinds: Kinds, s: State, tree: Entries)
    requires Buildable(kinds, map[], tree)
    ensures Creations(map[], tree) == InOrder(Created(map[], tree)) && PhaseOne(s, map[], tree) == s
    ensures MountsTwo(s, map[], tree) == Install(map[], tree, InOrder(Created(map[], tree)), s.nextFiber)
    ensures Casualties(s, map[], tree) == {}
  {
    var m: Mounts := map[];
    assert Replaced(m, tree) == {} && Removed(m, tree) == {};
    NobodyDisposed(s, m, tree);
    assert Created(m, tree) + Replaced(m, tree) == Created(m, tree);
    assert m - Removed(m, tree) == m;
  }

  /** Mounting a tree is reconciling an empty loader against it. */
  lemma MountIsReconcile(kinds: Kinds, s: State, tree: Entries, s': State, m': Mounts, r: Report)
    requires Core(s) && Active(s, ROOT_FIBER) && MountedFresh(kinds, s, tree, s', m')
    requires r == Report(InOrder(Created(map[], tree)), [], [], [], |Kept(map[], tree)|)
    ensures Reconciled(kinds, s, map[], tree, s', m', r)
  {
    FreshPhases(kinds, s, tree);
    FreshNothingDead(kinds, s, tree, s');
    FreshReport(s, tree);
  }

  lemma FreshNothingDead(kinds: Kinds, s: State, tree: Entries, s2: State)
    requires Core(s) && Active(s, ROOT_FIBER) && Buildable(kinds, map[], tree) && s2 == PhaseTwo(kinds, s, map[], tree)
    ensures Dead(s2, MountsTwo(s, map[], tree)) == {} && DeadTwo(s, map[], tree) == {}
  {
    DeadAreCasualties(kinds, s, map[], tree, s2);
    FreshPhases(kinds, s, tree);
  }

  lemma FreshReport(s: State, tree: Entries)
    ensures InOrder(Replaced(map[], tree)) == [] && InOrder(Removed(map[], tree)) == []
  {
    assert Replaced(map[], tree) == {} && Removed(map[], tree) == {};
  }

  // ---- the actions of a plan ----

  datatype Planned = Planned(id: EntryId, action: Action)

  datatype Tag = Keeping | Creating | Replacing | Removing

  function TagOf(a: Action): Tag
  {
    match a
    case Keep => Keeping
    case Create(_) => Creating
    case Replace(_, _) => Replacing
    case Remove(_) => Removing
  }

  /** The ids planned for one of the actions in `tags`, in plan order. */
  function Select(plan: seq<Planned>, tags: set<Tag>): seq<EntryId>
  {
    if plan == [] then []
    else Select(plan[..|plan| - 1], tags)
         + (if TagOf(plan[|plan| - 1].action) in tags then [plan[|plan| - 1].id] else [])
  }

  /** The fiber an action disposes, if any. */
  function VictimOf(a: Action): seq<FiberId>
  {
    match a
    case Replace(_, f) => [f]
    case Remove(f) => [f]
    case _ => []
  }

  /** The fibers to dispose, in plan order. */
  function Victims(plan: seq<Planned>): seq<FiberId>
  {
    if plan == [] then [] else Victims(plan[..|plan| - 1]) + VictimOf(plan[|plan| - 1].action)
  }

  predicate VictimKnown(s: State, a: Action)
  {
    a.Replace? || a.Remove? ==> a.fiber in s.arena
  }

  lemma NoVictim(a: Action, fs: seq<FiberId>)
    ensures VictimOf(a) == [] ==> fs + VictimOf(a) == fs
  {
  }

  lemma DisposeOneMore(s: State, fs: seq<FiberId>, f: FiberId)
    ensures DisposeEach(s, fs + [f]) == DisposeState(DisposeEach(s, fs), f, Disposed)
  {
    assert (fs + [f])[..|fs|] == fs;
  }

  lemma VictimsGrow(plan: seq<Planned>, i: nat)
    requires i < |plan|
    ensures Victims(plan[..i + 1]) == Victims(plan[..i]) + VictimOf(plan[i].action)
    ensures Select(plan[..i + 1], {Removing}) == Select(plan[..i], {Removing})
             + if plan[i].action.Remove? then [plan[i].id] else []
  {
    assert plan[..i + 1][..i] == plan[..i];
  }

  /** The plan decides every id once, in id order. */
  ghost predicate PlanOk(m: Mounts, next: Entries, plan: seq<Planned>)
  {
    && |plan| == |InOrder(Ids(m, next))|
    && forall i :: 0 <= i < |plan| ==>
         plan[i] == Planned(InOrder(Ids(m, next))[i], ActionFor(m, next, InOrder(Ids(m, next))[i]))
  }

  ghost predicate PlanIncreases(plan: seq<Planned>)
  {
    forall i, j :: 0 <= i < j < |plan| ==> plan[i].id < plan[j].id
  }

  ghost predicate Selected(plan: seq<Planned>, tags: set<Tag>, id: EntryId)
  {
    exists i :: 0 <= i < |plan| && plan[i].id == id && TagOf(plan[i].action) in tags
  }

  lemma {:induction false} SelectMembers(plan: seq<Planned>, tags: set<Tag>, id: EntryId)
    ensures id in Select(plan, tags) <==> Selected(plan, tags, id)
  {
    if plan != [] {
      var before := plan[..|plan| - 1];
      SelectMembers(before, tags, id);
      if Selected(before, tags, id) {
        var i :| 0 <= i < |before| && before[i].id == id && TagOf(before[i].action) in tags;
        assert plan[i] == before[i];
      }
      if Selected(plan, tags, id) {
        var i :| 0 <= i < |plan| && plan[i].id == id && TagOf(plan[i].action) in tags;
        if i < |before| { assert before[i] == plan[i]; }
      }
    }
  }

  lemma {:induction false} SelectIncreases(plan: seq<Planned>, tags: set<Tag>)
    requires PlanIncreases(plan)
    ensures Increasing(Select(plan, tags))
  {
    if plan != [] {
      var before, last := plan[..|plan| - 1], plan[|plan| - 1];
      assert PlanIncreases(before);
      SelectIncreases(before, tags);
      var q := Select(before, tags);
      forall i | 0 <= i < |q| ensures q[i] < last.id {
        assert q[i] in q;
        SelectMembers(before, tags, q[i]);
        var j :| 0 <= j < |before| && before[j].id == q[i] && TagOf(before[j].action) in tags;
        assert plan[j] == before[j];
      }
    }
  }

  lemma SelectIsInOrder(m: Mounts, next: Entries, plan: seq<Planned>, tags: set<Tag>, chosen: set<EntryId>)
    requires PlanOk(m, next, plan)
    requires forall id :: id in chosen <==> id in Ids(m, next) && TagOf(ActionFor(m, next, id)) in tags
    ensures Select(plan, tags) == InOrder(chosen)
  {
    var ids := InOrder(Ids(m, next));
    assert PlanIncreases(plan);
    SelectIncreases(plan, tags);
    forall id ensures id in Select(plan, tags) <==> id in chosen {
      SelectMembers(plan, tags, id);
      if id in chosen {
        assert id in ids;
        var i :| 0 <= i < |ids| && ids[i] == id;
        assert plan[i].id == id;
      }
      if Selected(plan, tags, id) {
        var i :| 0 <= i < |plan| && plan[i].id == id && TagOf(plan[i].action) in tags;
        assert ids[i] in ids;
      }
    }
    IncreasingIsUnique(Select(plan, tags), InOrder(chosen));
  }

  lemma PlanSets(m: Mounts, next: Entries, plan: seq<Planned>)
    requires PlanOk(m, next, plan)
    ensures Select(plan, {Creating}) == InOrder(Created(m, next))
    ensures Select(plan, {Replacing}) == InOrder(Replaced(m, next))
    ensures Select(plan, {Removing}) == InOrder(Removed(m, next))
    ensures Select(plan, {Creating, Replacing}) == Creations(m, next)
  {
    SelectIsInOrder(m, next, plan, {Creating}, Created(m, next));
    SelectIsInOrder(m, next, plan, {Replacing}, Replaced(m, next));
    SelectIsInOrder(m, next, plan, {Removing}, Removed(m, next));
    SelectIsInOrder(m, next, plan, {Creating, Replacing}, Created(m, next) + Replaced(m, next));
  }

  predicate Disposes(p: Planned, f: FiberId)
  {
    (p.action.Replace? || p.action.Remove?) && p.action.fiber == f
  }

  lemma {:induction false} VictimMembers(plan: seq<Planned>, f: FiberId)
    ensures f in Victims(plan) <==> exists i :: 0 <= i < |plan| && Disposes(plan[i], f)
  {
    if plan != [] {
      var before := plan[..|plan| - 1];
      VictimMembers(before, f);
      if f in Victims(before) {
        var i :| 0 <= i < |before| && Disposes(before[i], f);
        assert Disposes(plan[i], f);
      } else if f in Victims(plan) {
        assert Disposes(plan[|plan| - 1], f);
      }
      if i :| 0 <= i < |plan| && Disposes(plan[i], f) && i < |before| {
        assert Disposes(before[i], f);
      }
    }
  }

  lemma DisposingAction(m: Mounts, next: Entries, id: EntryId)
    requires id in Ids(m, next) && (ActionFor(m, next, id).Replace? || ActionFor(m, next, id).Remove?)
    ensures id in Replaced(m, next) + Removed(m, next) && id in m && ActionFor(m, next, id).fiber == m[id].fiber
  {
  }

  lemma VictimIsFiber(m: Mounts, next: Entries, plan: seq<Planned>, f: FiberId)
    requires PlanOk(m, next, plan) && f in Victims(plan)
    ensures f in FibersOf(m, Replaced(m, next) + Removed(m, next))
  {
    VictimMembers(plan, f);
    var ids := InOrder(Ids(m, next));
    var i :| 0 <= i < |plan| && Disposes(plan[i], f);
    assert ids[i] in ids && plan[i] == Planned(ids[i], ActionFor(m, next, ids[i]));
    DisposingAction(m, next, ids[i]);
  }

  lemma PlannedDisposal(m: Mounts, next: Entries, plan: seq<Planned>, id: EntryId) returns (i: nat)
    requires PlanOk(m, next, plan) && id in Replaced(m, next) + Removed(m, next)
    ensures id in m && i < |plan|
    ensures Disposes(plan[i], m[id].fiber)
  {
    var ids := InOrder(Ids(m, next));
    assert id in ids;
    i :| 0 <= i < |ids| && ids[i] == id;
    DisposingAction(m, next, id);
  }

  lemma FiberIsVictim(m: Mounts, next: Entries, plan: seq<Planned>, id: EntryId)
    requires PlanOk(m, next, plan) && id in Replaced(m, next) + Removed(m, next)
    ensures id in m && m[id].fiber in Victims(plan)
  {
    var i := PlannedDisposal(m, next, plan, id);
    VictimMembers(plan, m[id].fiber);
  }

  lemma VictimsAreFibers(m: Mounts, next: Entries, plan: seq<Planned>)
    requires PlanOk(m, next, plan)
    ensures Elements(Victims(plan)) == FibersOf(m, Replaced(m, next) + Removed(m, next))
  {
    var ids := Replaced(m, next) + Removed(m, next);
    forall f | f in Victims(plan) ensures f in FibersOf(m, ids) {
      VictimIsFiber(m, next, plan, f);
    }
    forall f | f in FibersOf(m, ids) ensures f in Victims(plan) {
      var id :| id in ids && id in m && m[id].fiber == f;
      FiberIsVictim(m, next, plan, id);
    }
  }

  lemma PlannedSpec(m: Mounts, next: Entries, plan: seq<Planned>, i: nat)
    requires PlanOk(m, next, plan) && i < |plan| && (plan[i].action.Create? || plan[i].action.Replace?)
    ensures plan[i].id in next && plan[i].action.spec == next[plan[i].id]
    ensures plan[i].id in Created(m, next) + Replaced(m, next)
  {
    var id := plan[i].id;
    assert InOrder(Ids(m, next))[i] in InOrder(Ids(m, next));
    BuildingAction(m, next, id);
  }

  lemma BuildingAction(m: Mounts, next: Entries, id: EntryId)
    requires id in Ids(m, next) && (ActionFor(m, next, id).Create? || ActionFor(m, next, id).Replace?)
    ensures id in Created(m, next) + Replaced(m, next) && id in next && ActionFor(m, next, id).spec == next[id]
  {
  }

  lemma PlannedFiber(kinds: Kinds, s: State, m: Mounts, next: Entries, plan: seq<Planned>, i: nat)
    requires PlanOk(m, next, plan) && LoaderOk(kinds, s, m)
    requires i < |plan| && (plan[i].action.Remove? || plan[i].action.Replace?)
    ensures plan[i].id in m && plan[i].action.fiber in s.arena
  {
    assert InOrder(Ids(m, next))[i] in InOrder(Ids(m, next));
  }

  lemma DropOneMore(m: Mounts, q: seq<EntryId>, id: EntryId)
    ensures (m - Elements(q)) - {id} == m - Elements(q + [id])
  {
    assert Elements(q + [id]) == Elements(q) + {id};
  }

  ghost predicate PlanValid(kinds: Kinds, plan: seq<Planned>)
  {
    forall i :: 0 <= i < |plan| ==>
      match plan[i].action
      case Create(spec) => Valid(kinds, spec)
      case Replace(spec, _) => Valid(kinds, spec)
      case _ => true
  }

  lemma PlanValidBuilds(kinds: Kinds, m: Mounts, next: Entries, plan: seq<Planned>, id: EntryId)
    requires PlanOk(m, next, plan) && PlanValid(kinds, plan) && id in Created(m, next) + Replaced(m, next)
    ensures Valid(kinds, next[id])
  {
    var ids := InOrder(Ids(m, next));
    assert id in ids;
    var i :| 0 <= i < |ids| && ids[i] == id;
    assert plan[i].action == ActionFor(m, next, id);
  }

  /** Checking the planned actions is checking every entry the pass would build. */
  lemma PlanValidIsBuildable(kinds: Kinds, m: Mounts, next: Entries, plan: seq<Planned>)
    requires PlanOk(m, next, plan)
    ensures PlanValid(kinds, plan) <==> Buildable(kinds, m, next)
  {
    if PlanValid(kinds, plan) {
      forall id | id in Created(m, next) + Replaced(m, next) ensures Valid(kinds, next[id]) {
        PlanValidBuilds(kinds, m, next, plan, id);
      }
    } else {
      var i :| 0 <= i < |plan| && (plan[i].action.Create? || plan[i].action.Replace?)
               && !Valid(kinds, plan[i].action.spec);
      PlannedSpec(m, next, plan, i);
    }
  }

  lemma SelectGrows(plan: seq<Planned>, last: Planned)
    ensures |Select(plan + [last], {Keeping})| == |Select(plan, {Keeping})| + (if last.action.Keep? then 1 else 0)
  {
    assert (plan + [last])[..|plan|] == plan;
  }

  lemma FreshIds(tree: Entries, id: EntryId)
    ensures id in Created(map[], tree) <==> id in tree && Mountable(tree, id)
  {
  }

  lemma KeptCount(m: Mounts, next: Entries, plan: seq<Planned>)
    requires PlanOk(m, next, plan)
    ensures |Select(plan, {Keeping})| == |Kept(m, next)|
  {
    SelectIsInOrder(m, next, plan, {Keeping}, Kept(m, next));
    InOrderSize(Kept(m, next));
  }

  /** Disposing the plan's victims in turn and forgetting the removed entries is phase one. */
  lemma PlanIsPhaseOne(s: State, m: Mounts, next: Entries, plan: seq<Planned>)
    requires Core(s) && PlanOk(m, next, plan)
    ensures DisposeEach(s, Victims(plan)) == PhaseOne(s, m, next)
    ensures Elements(Select(plan, {Removing})) == Removed(m, next)
  {
    VictimsAreFibers(m, next, plan);
    DisposeEachIsUnion(s, Victims(plan));
    PlanSets(m, next, plan);
  }

  lemma CreationsAreValid(kinds: Kinds, m: Mounts, next: Entries)
    requires Buildable(kinds, m, next)
    ensures forall id :: id in Creations(m, next) ==> id in next && Valid(kinds, next[id])
  {
    forall id | id in Creations(m, next) ensures id in next && Valid(kinds, next[id]) {
      ActionSets(m, next, id);
    }
  }

  /** The fibers that phase one disposes. */
  ghost function Disposals(m: Mounts, next: Entries): set<FiberId>
  {
    FibersOf(m, Replaced(m, next) + Removed(m, next))
  }

  // ---- the running loader ----

  datatype Failure = AlreadyMounted | DuplicateKind(kind: KindName) | Invalid(id: EntryId)

  class Loader {
    const kernel: Kernel.Kernel
    var kinds: Kinds
    var mounted: Mounts

    constructor (k: Kernel.Kernel)
      ensures kernel == k && kinds == map[] && mounted == map[]
    {
      kernel := k;
      kinds, mounted := map[], map[];
    }

    /** Kinds are only ever added, so what could be built stays buildable. */
    method RegisterEntryKind(name: KindName, kind: Kind) returns (r: Result<(), Failure>)
      modifies this`kinds
      ensures r.Ok? <==> name !in old(kinds)
      ensures kinds == if r.Ok? then old(kinds)[name := kind] else old(kinds)
      ensures forall spec :: Valid(old(kinds), spec) ==> Decoded(kinds, spec) == Decoded(old(kinds), spec)
    {
      if name in kinds { return Err(DuplicateKind(name)); }
      kinds := kinds[name := kind];
      return Ok(());
    }

    /** Builds the entries, registers them as one batch on the root, and records their fibers. */
    method RegisterEntries(specs: map<EntryId, Spec>, ids: seq<EntryId>)
      requires Core(kernel.View()) && forall id :: id in ids ==> id in specs && Valid(kinds, specs[id])
      modifies this`mounted, kernel
      ensures kernel.View() == RegisterBatch(old(kernel.View()), ROOT_CTX, PluginsOf(kinds, specs, ids))
      ensures mounted == Install(old(mounted), specs, ids, old(kernel.View()).nextFiber)
      ensures kernel.log == old(kernel.log)
    {
      RootKnown(kernel.View());
      var plugins := BuildEntries(specs, ids);
      var fibers := kernel.RegisterBatch(ROOT_CTX, plugins);
      RecordFibers(specs, ids, fibers, old(kernel.View()).nextFiber);
    }

    method BuildEntries(specs: map<EntryId, Spec>, ids: seq<EntryId>) returns (plugins: seq<Plugin>)
      requires forall id :: id in ids ==> id in specs && Valid(kinds, specs[id])
      ensures plugins == PluginsOf(kinds, specs, ids)
    {
      plugins := [];
      assert ids[..0] == [];
      for i := 0 to |ids|
        invariant plugins == PluginsOf(kinds, specs, ids[..i])
      {
        assert ids[..i + 1][..i] == ids[..i];
        assert Valid(kinds, specs[ids[i]]);
        plugins := plugins + [Decoded(kinds, specs[ids[i]]).value];
      }
      assert ids[..|ids|] == ids;
    }

    method RecordFibers(specs: map<EntryId, Spec>, ids: seq<EntryId>, fibers: seq<FiberId>, ghost base: FiberId)
      requires |fibers| == |ids| && forall i :: 0 <= i < |ids| ==> fibers[i] == base + i
      requires forall id :: id in ids ==> id in specs
      modifies this`mounted
      ensures mounted == Install(old(mounted), specs, ids, base)
    {
      assert ids[..0] == [];
      for i := 0 to |ids|
        invariant mounted == Install(old(mounted), specs, ids[..i], base)
      {
        assert ids[..i + 1][..i] == ids[..i];
        mounted := mounted[ids[i] := Mounted(specs[ids[i]], fibers[i])];
      }
      assert ids[..|ids|] == ids;
    }

    /** First mount of an empty loader: one batch of all mountable entries, listed in id order, or a rejection. */
    method Mount(tree: Entries) returns (r: Result<seq<EntryId>, Failure>)
      requires Core(kernel.View()) && WellStructured(tree)
      modifies this`mounted, kernel
      ensures r.Ok? <==> old(mounted) == map[] && Buildable(kinds, map[], tree)
      ensures r.Ok? ==> MountedFresh(kinds, old(kernel.View()), tree, kernel.View(), mounted)
      ensures r.Ok? ==> r.value == InOrder(mounted.Keys)
      ensures r.Err? ==> kernel.View() == old(kernel.View()) && mounted == old(mounted)
      ensures kernel.log == old(kernel.log)
    {
      if mounted.Keys != {} { return Err(AlreadyMounted); }
      assert mounted == map[];
      var ids, faulty := ValidateAgainstKinds(tree);
      if faulty.Some? { return Err(Invalid(faulty.value)); }
      RegisterEntries(tree, ids);
      InstallKeys(map[], tree, ids, old(kernel.View()).nextFiber);
      assert mounted.Keys == Created(map[], tree);
      return Ok(ids);
    }

    /** The mountable entries of a tree in id order, or one that cannot be built. */
    method ValidateAgainstKinds(tree: Entries) returns (ids: seq<EntryId>, faulty: Option<EntryId>)
      requires WellStructured(tree)
      ensures faulty.None? <==> Buildable(kinds, map[], tree)
      ensures faulty.None? ==> ids == InOrder(Created(map[], tree))
      ensures faulty.None? ==> forall id :: id in ids ==> id in tree && Valid(kinds, tree[id])
    {
      var keys := Enumerate(tree.Keys);
      var all := SortIds(keys);
      ids := [];
      for i := 0 to |all|
        invariant Increasing(ids)
        invariant forall id :: id in ids <==> id in all[..i] && Mountable(tree, id)
        invariant forall id :: id in ids ==> Valid(kinds, tree[id])
      {
        assert all[..i + 1] == all[..i] + [all[i]] && all[i] in all;
        var enabled := IsEffectivelyEnabled(tree, all[i]);
        if !tree[all[i]].IsGroup() && enabled {
          if !Valid(kinds, tree[all[i]]) {
            FreshIds(tree, all[i]);
            faulty := Some(all[i]);
            return;
          }
          forall j | 0 <= j < |ids| ensures ids[j] < all[i] {
            assert ids[j] in ids;
            var k :| 0 <= k < i && all[..i][k] == ids[j];
          }
          ids := ids + [all[i]];
        }
      }
      assert all[..|all|] == all;
      forall id ensures id in ids <==> id in Created(map[], tree) {
        FreshIds(tree, id);
      }
      IncreasingIsUnique(ids, InOrder(Created(map[], tree)));
      assert Replaced(map[], tree) == {};
      faulty := None;
    }

    /** Decides, in id order, what each id of either tree needs. */
    method Plan(next: Entries) returns (kept: nat, plan: seq<Planned>)
      requires WellStructured(next)
      ensures PlanOk(mounted, next, plan) && kept == |Kept(mounted, next)|
    {
      var keys := Enumerate(mounted.Keys + next.Keys);
      var ids := SortIds(keys);
      kept, plan := PlanFor(next, ids);
      IncreasingIsUnique(ids, InOrder(Ids(mounted, next)));
      KeptCount(mounted, next, plan);
    }

    method PlanFor(next: Entries, ids: seq<EntryId>) returns (kept: nat, plan: seq<Planned>)
      requires WellStructured(next)
      ensures |plan| == |ids| && forall j :: 0 <= j < |ids| ==>
              plan[j] == Planned(ids[j], ActionFor(mounted, next, ids[j]))
      ensures kept == |Select(plan, {Keeping})|
    {
      plan, kept := [], 0;
      for i := 0 to |ids|
        invariant |plan| == i && forall j :: 0 <= j < i ==> plan[j] == Planned(ids[j], ActionFor(mounted, next, ids[j]))
        invariant kept == |Select(plan, {Keeping})|
      {
        var action := Decide(next, ids[i]);
        kept := if action.Keep? then kept + 1 else kept;
        SelectGrows(plan, Planned(ids[i], action));
        plan := plan + [Planned(ids[i], action)];
      }
    }

    method Decide(next: Entries, id: EntryId) returns (action: Action)
      requires WellStructured(next)
      ensures action == ActionFor(mounted, next, id)
    {
      var enabled := IsEffectivelyEnabled(next, id);
      var mountable := id in next && !next[id].IsGroup() && enabled;
      if id in mounted && id in next && mountable && mounted[id].options == next[id] {
        return Keep;
      } else if id in mounted && !mountable {
        return Remove(mounted[id].fiber);
      } else if id in mounted {
        return Replace(next[id], mounted[id].fiber);
      } else if !mountable {
        return Keep;
      } else {
        return Create(next[id]);
      }
    }

    /** Checks every entry the plan would mount before anything is disposed. */
    method ValidateActions(plan: seq<Planned>) returns (faulty: Option<EntryId>)
      ensures faulty.None? <==> PlanValid(kinds, plan)
    {
      for i := 0 to |plan|
        invariant PlanValid(kinds, plan[..i])
      {
        assert plan[..i + 1] == plan[..i] + [plan[i]];
        match plan[i].action {
          case Create(spec) => if !Valid(kinds, spec) { return Some(plan[i].id); }
          case Replace(spec, _) => if !Valid(kinds, spec) { return Some(plan[i].id); }
          case _ =>
        }
      }
      assert plan[..|plan|] == plan;
      return None;
    }

    method SelectCreations(plan: seq<Planned>) returns (ids: seq<EntryId>)
      ensures ids == Select(plan, {Creating, Replacing})
    {
      ids := [];
      assert plan[..0] == [];
      for i := 0 to |plan|
        invariant ids == Select(plan[..i], {Creating, Replacing})
      {
        assert plan[..i + 1][..i] == plan[..i];
        if plan[i].action.Create? || plan[i].action.Replace? { ids := ids + [plan[i].id]; }
      }
      assert plan[..|plan|] == plan;
    }

    /** Phase one: disposes everything the plan removes or replaces. */
    method DisposeVictims(plan: seq<Planned>) returns (removed: seq<EntryId>, ghost traces: seq<seq<Event>>)
      requires Core(kernel.View())
      requires forall i :: 0 <= i < |plan| ==> VictimKnown(kernel.View(), plan[i].action)
      modifies this`mounted, kernel
      ensures kernel.View() == DisposeEach(old(kernel.View()), Victims(plan))
      ensures removed == Select(plan, {Removing}) && mounted == old(mounted) - Elements(removed)
      ensures TornInTurn(old(kernel.View()), Victims(plan), traces)
      ensures kernel.log == old(kernel.log) + Joined(traces)
    {
      ghost var s, m, past := kernel.View(), mounted, kernel.log;
      removed, traces := [], [];
      assert plan[..0] == [] && mounted == m - Elements(removed) && past + [] == past;
      for i := 0 to |plan|
        invariant kernel.View() == DisposeEach(s, Victims(plan[..i]))
        invariant removed == Select(plan[..i], {Removing})
        invariant mounted == m - Elements(removed)
        invariant TornInTurn(s, Victims(plan[..i]), traces) && kernel.log == past + Joined(traces)
      {
        VictimsGrow(plan, i);
        traces := DisposeVictim(plan[i].action, s, Victims(plan[..i]), traces, past);
        if plan[i].action.Remove? {
          Unmount(plan[i].id, m, removed);
          removed := removed + [plan[i].id];
        }
      }
      assert plan[..|plan|] == plan;
    }

    method Unmount(id: EntryId, ghost m: Mounts, ghost removed: seq<EntryId>)
      requires mounted == m - Elements(removed)
      modifies this`mounted
      ensures mounted == m - Elements(removed + [id])
    {
      mounted := mounted - {id};
      DropOneMore(m, removed, id);
    }

    method DisposeVictim(action: Action, ghost s: State, ghost fs: seq<FiberId>, ghost before: seq<seq<Event>>,
                         ghost past: seq<Event>)
      returns (ghost traces: seq<seq<Event>>)
      requires Core(s) && VictimKnown(s, action) && kernel.View() == DisposeEach(s, fs)
      requires TornInTurn(s, fs, before) && kernel.log == past + Joined(before)
      modifies kernel
      ensures kernel.View() == DisposeEach(s, fs + VictimOf(action))
      ensures TornInTurn(s, fs + VictimOf(action), traces) && kernel.log == past + Joined(traces)
    {
      NoVictim(action, fs);
      traces := before;
      if action.Replace? || action.Remove? { traces := DisposeOne(action.fiber, s, fs, before, past); }
    }

    method DisposeOne(fiber: FiberId, ghost s: State, ghost fs: seq<FiberId>, ghost before: seq<seq<Event>>,
                      ghost past: seq<Event>)
      returns (ghost traces: seq<seq<Event>>)
      requires Core(s) && fiber in s.arena && kernel.View() == DisposeEach(s, fs)
      requires TornInTurn(s, fs, before) && kernel.log == past + Joined(before)
      modifies kernel
      ensures kernel.View() == DisposeEach(s, fs + [fiber])
      ensures TornInTurn(s, fs + [fiber], traces) && kernel.log == past + Joined(traces)
    {
      Kernel.DisposeEachKeeps(s, fs);
      DisposeOneMore(s, fs, fiber);
      ghost var trace := kernel.Dispose(fiber, Disposed);
      TornOnceMore(s, fs, before, fiber, trace);
      Associate(past, Joined(before), trace);
      traces := before + [trace];
    }

    /**
     * One pass against the tree `next`: validation, phase one, phase two, repair. A changed entry that cannot be
     * built is found before the kernel is touched, and then nothing changes.
     */
    method Reconcile(next: Entries) returns (r: Result<Report, Failure>)
      requires Core(kernel.View()) && LoaderOk(kinds, kernel.View(), mounted) && WellStructured(next)
      requires Terminates(kinds, kernel.View(), mounted, next)
      modifies this`mounted, kernel
      ensures r.Ok? <==> Buildable(kinds, old(mounted), next)
      ensures r.Err? ==> kernel.View() == old(kernel.View()) && mounted == old(mounted) && kernel.log == old(kernel.log)
      ensures r.Ok? ==> LogsTeardowns(old(kernel.View()), Disposals(old(mounted), next), old(kernel.log), kernel.log)
      ensures r.Ok? ==> Reconciled(kinds, old(kernel.View()), old(mounted), next, kernel.View(), mounted, r.value)
    {
      var kept, plan := Plan(next);
      var faulty := ValidateActions(plan);
      PlanValidIsBuildable(kinds, mounted, next, plan);
      if faulty.Some? { return Err(Invalid(faulty.value)); }
      var report := Execute(next, plan, kept);
      return Ok(report);
    }

    /** Carries out a validated plan. */
    method Execute(next: Entries, plan: seq<Planned>, kept: nat) returns (report: Report)
      requires Core(kernel.View()) && LoaderOk(kinds, kernel.View(), mounted)
      requires PlanOk(mounted, next, plan) && kept == |Kept(mounted, next)| && Buildable(kinds, mounted, next)
      requires Terminates(kinds, kernel.View(), mounted, next)
      modifies this`mounted, kernel
      ensures Reconciled(kinds, old(kernel.View()), old(mounted), next, kernel.View(), mounted, report)
      ensures LogsTeardowns(old(kernel.View()), Disposals(old(mounted), next), old(kernel.log), kernel.log)
    {
      var created, updated := SplitCreations(plan);
      var removed, restarted := RunAndRepair(next, plan);
      report := Report(created, updated, removed, restarted, kept);
      PlanSets(old(mounted), next, plan);
    }

    method RunAndRepair(next: Entries, plan: seq<Planned>) returns (removed: seq<EntryId>, restarted: seq<EntryId>)
      requires Core(kernel.View()) && LoaderOk(kinds, kernel.View(), mounted)
      requires PlanOk(mounted, next, plan) && Buildable(kinds, mounted, next)
      requires Terminates(kinds, kernel.View(), mounted, next)
      modifies this`mounted, kernel
      ensures Repaired(kinds, PhaseTwo(kinds, old(kernel.View()), old(mounted), next),
                       MountsTwo(old(kernel.View()), old(mounted), next), kernel.View(), mounted)
      ensures removed == Select(plan, {Removing})
      ensures restarted == InOrder(DeadTwo(old(kernel.View()), old(mounted), next))
      ensures LogsTeardowns(old(kernel.View()), Disposals(old(mounted), next), old(kernel.log), kernel.log)
    {
      removed := RunPhases(next, plan);
      DeadAreCasualties(kinds, old(kernel.View()), old(mounted), next, kernel.View());
      restarted := RepairCollateral();
    }

    /** Phase one and phase two of a validated plan. */
    method RunPhases(next: Entries, plan: seq<Planned>) returns (removed: seq<EntryId>)
      requires Core(kernel.View()) && LoaderOk(kinds, kernel.View(), mounted)
      requires PlanOk(mounted, next, plan) && Buildable(kinds, mounted, next)
      modifies this`mounted, kernel
      ensures kernel.View() == PhaseTwo(kinds, old(kernel.View()), old(mounted), next)
      ensures mounted == MountsTwo(old(kernel.View()), old(mounted), next)
      ensures removed == Select(plan, {Removing})
      ensures LogsTeardowns(old(kernel.View()), Disposals(old(mounted), next), old(kernel.log), kernel.log)
    {
      ghost var s, m := kernel.View(), mounted;
      forall i | 0 <= i < |plan| ensures VictimKnown(s, plan[i].action) {
        if plan[i].action.Remove? || plan[i].action.Replace? { PlannedFiber(kinds, s, m, next, plan, i); }
      }
      ghost var traces;
      removed, traces := DisposeVictims(plan);
      VictimsAreFibers(m, next, plan);
      PlanIsPhaseOne(s, m, next, plan);
      PhaseOneFacts(kinds, s, m, next);
      var ids := SelectCreations(plan);
      PlanSets(m, next, plan);
      CreationsAreValid(kinds, m, next);
      RegisterEntries(next, ids);
    }

    method SplitCreations(plan: seq<Planned>) returns (created: seq<EntryId>, updated: seq<EntryId>)
      ensures created == Select(plan, {Creating}) && updated == Select(plan, {Replacing})
    {
      created, updated := [], [];
      assert plan[..0] == [];
      for i := 0 to |plan|
        invariant created == Select(plan[..i], {Creating}) && updated == Select(plan[..i], {Replacing})
      {
        assert plan[..i + 1][..i] == plan[..i];
        if plan[i].action.Create? { created := created + [plan[i].id]; }
        if plan[i].action.Replace? { updated := updated + [plan[i].id]; }
      }
      assert plan[..|plan|] == plan;
    }

    /** Re-registers mounted entries whose fiber is Disposed, until none is left. */
    method RepairCollateral() returns (restarted: seq<EntryId>)
      requires Core(kernel.View()) && LoaderOk(kinds, kernel.View(), mounted)
      requires Active(kernel.View(), ROOT_FIBER) || Dead(kernel.View(), mounted) == {}
      modifies this`mounted, kernel
      ensures Repaired(kinds, old(kernel.View()), old(mounted), kernel.View(), mounted)
      ensures restarted == InOrder(Dead(old(kernel.View()), old(mounted)))
      ensures kernel.log == old(kernel.log)
    {
      ghost var s, m := kernel.View(), mounted;
      restarted := [];
      var dead := FindDead();
      while dead != []
        invariant dead == InOrder(Dead(kernel.View(), mounted)) && kernel.log == old(kernel.log)
        invariant (restarted == [] && kernel.View() == s && mounted == m)
               || (dead == [] && Dead(s, m) != {} && restarted == InOrder(Dead(s, m))
                   && kernel.View() == RepairState(kinds, s, m) && mounted == RepairMounts(s, m))
        decreases |dead|
      {
        RepairPass(dead);
        restarted := restarted + dead;
        dead := FindDead();
      }
    }

    method RepairPass(dead: seq<EntryId>)
      requires Core(kernel.View()) && LoaderOk(kinds, kernel.View(), mounted)
      requires dead == InOrder(Dead(kernel.View(), mounted))
      modifies this`mounted, kernel
      ensures kernel.View() == RepairState(kinds, old(kernel.View()), old(mounted))
      ensures mounted == RepairMounts(old(kernel.View()), old(mounted))
      ensures Dead(kernel.View(), mounted)
              == if Active(old(kernel.View()), ROOT_FIBER) then {} else Dead(old(kernel.View()), old(mounted))
      ensures kernel.log == old(kernel.log)
    {
      ghost var s, m := kernel.View(), mounted;
      RegisterEntries(map id | id in mounted :: mounted[id].options, dead);
      RepairRevives(kinds, s, m, kernel.View());
    }

    method FindDead() returns (dead: seq<EntryId>)
      ensures dead == InOrder(Dead(kernel.View(), mounted))
    {
      var found := Enumerate(set id | id in mounted && mounted[id].fiber in kernel.arena
                                      && kernel.arena[mounted[id].fiber].phase.Disposed?);
      dead := SortIds(found);
      IncreasingIsUnique(dead, InOrder(Dead(kernel.View(), mounted)));
    }
  }
}
