// The kernel itself: registries updated in place, each method tied to its closed form.

module Kernel {
  import opened Basics
  import opened Realms
  import opened KernelState
  import opened Disposal
  import opened Teardown
  import opened Trace
  import opened Logs
  import opened Start
  import opened Operations
  import opened Runs
  import Slice
  import opened Sorting
  import opened Pipeline
  import Onion
  import Dispatch

  /**
   * How far a cascade has come: marked fibers, finished fibers, what happened so far, and what the kernel
   * had logged before.
   */
  datatype Walk = Walk(started: set<FiberId>, done: set<FiberId>, trace: seq<Event>, past: seq<Event>)

  /** Cleanups never touch the fibers. */
  lemma {:induction false} RunAllArena(s: State, es: seq<Effect>, a: map<FiberId, Fiber>)
    ensures RunAll(s.(arena := a), es) == RunAll(s, es).(arena := a)
    decreases es
  {
    if es != [] {
      assert RunEffect(s.(arena := a), es[0]) == RunEffect(s, es[0]).(arena := a);
      RunAllArena(RunEffect(s, es[0]), es[1..], a);
    }
  }

  lemma RegistryShrinks(registry: set<FiberId>, started: set<FiberId>, g: FiberId)
    requires g in registry && g !in started
    ensures |registry - (started + {g})| < |registry - started|
  {
    assert registry - started == (registry - (started + {g})) + {g};
  }

  /** What a cascade needs of the state it begins in. */
  ghost predicate Startable(s: State)
  {
    && CleanupsOk(s)
    && forall f :: f in s.registry ==> f in s.arena && !s.arena[f].disposalStarted
  }

  /** The kernel state `v` is in the middle of the cascade `c`, at `w`, with the disposals `open` under way. */
  ghost predicate Within(v: State, c: Cascade, open: seq<Frame>, w: Walk)
  {
    && Startable(c.origin)
    && v == Mid(c, w.started, w.done)
    && w.done <= w.started <= c.origin.registry
    && ClosedInto(c.origin, w.done, w.started)
    && Replay(c.origin, w.trace) == Some(Machine(open, w.started))
  }

  /** `w'` continues `w`: what was started since is finished, and `g` leads to it. */
  ghost predicate Continues(c: Cascade, g: FiberId, w: Walk, w': Walk)
  {
    && w.started <= w'.started
    && w'.done == w.done + (w'.started - w.started)
    && w'.past == w.past && w.trace <= w'.trace
    && forall x :: x in w'.started && x !in w.started ==> Reaches(c.origin, g, x)
  }

  lemma ContinuesRefl(c: Cascade, g: FiberId, w: Walk)
    ensures Continues(c, g, w, w)
  {
  }

  lemma ContinuesTrans(c: Cascade, g: FiberId, w: Walk, w1: Walk, w2: Walk)
    requires Continues(c, g, w, w1) && Continues(c, g, w1, w2)
    ensures Continues(c, g, w, w2)
  {
  }

  lemma ContinuesVia(c: Cascade, g: FiberId, b: FiberId, w: Walk, w': Walk)
    requires Edge(c.origin, g, b) && Continues(c, b, w, w')
    ensures Continues(c, g, w, w')
  {
    forall x | x in w'.started && x !in w.started ensures Reaches(c.origin, g, x) {
      ReachesVia(c.origin, g, b, x);
    }
  }

  /** What was logged since begins with the start of the disposal of `g` and ends with its end. */
  ghost predicate Spans(g: FiberId, before: seq<Event>, after: seq<Event>)
  {
    before + [Began(g)] <= after && after[|after| - 1] == Ended(g)
  }

  ghost predicate Innermost(open: seq<Frame>, g: FiberId)
  {
    open != [] && open[|open| - 1].fiber == g
  }

  ghost function Mark(w: Walk, g: FiberId): Walk
  {
    w.(started := w.started + {g}, trace := w.trace + [Began(g)])
  }

  lemma BeginDisposal(v: State, c: Cascade, open: seq<Frame>, w: Walk, g: FiberId)
    requires Within(v, c, open, w) && g in c.origin.registry && Triggered(c.origin, open, w.started, g)
    ensures g in v.arena && g in c.origin.arena && (v.arena[g].disposalStarted <==> g in w.started)
    ensures g !in w.started ==>
              v.arena[g] == c.origin.arena[g] &&
              Within(v.(arena := v.arena[g := v.arena[g].(disposalStarted := true)]), c,
                     open + [Frame(g, c.origin.arena[g].disposables)], Mark(w, g))
  {
    if g !in w.started {
      MidMarks(c, w.started, w.done, g);
      ReplayThen(c.origin, w.trace, Began(g));
    }
  }

  /** The walk after `g` ran its cleanups and ended. */
  ghost function Finish(w: Walk, g: FiberId, owed: seq<Effect>): Walk
  {
    w.(done := w.done + {g}, trace := w.trace + RunsOf(g, owed) + [Ended(g)])
  }

  lemma SpansAll(g: FiberId, trace: seq<Event>)
    requires Spans(g, [], trace)
    ensures trace != [] && trace[0] == Began(g) && trace[|trace| - 1] == Ended(g)
  {
    assert [] + [Began(g)] == [Began(g)];
  }

  lemma FinishSpans(c: Cascade, w: Walk, w': Walk, g: FiberId, owed: seq<Effect>)
    requires Continues(c, g, Mark(w, g), w')
    ensures Spans(g, w.trace, Finish(w', g, owed).trace)
  {
    assert Mark(w, g).trace <= w'.trace;
  }

  lemma FinishLog(past: seq<Event>, trace: seq<Event>, runs: seq<Event>, last: Event)
    ensures past + trace + runs + [last] == past + (trace + runs + [last])
  {
  }

  /** After the drain: `v` is the state the fiber `g` leaves behind. */
  lemma FinishDisposal(m: State, v: State, c: Cascade, open: seq<Frame>, w: Walk, w': Walk, g: FiberId)
    requires g in c.origin.registry && g in c.origin.arena && g !in w.started
    requires Within(m, c, open + [Frame(g, c.origin.arena[g].disposables)], w') && Continues(c, g, Mark(w, g), w')
    requires w.done <= w.started
    requires CascadeStarted(c.origin, g, w'.started)
    requires Replay(c.origin, w'.trace + RunsOf(g, c.origin.arena[g].disposables))
          == Some(Machine(open + [Frame(g, [])], w'.started))
    requires g in m.arena
    requires v == Leave(m, g, Reverse(c.origin.arena[g].disposables), FinalPhase(c, g))
    ensures Within(v, c, open, Finish(w', g, c.origin.arena[g].disposables))
    ensures Continues(c, g, w, Finish(w', g, c.origin.arena[g].disposables))
  {
    MidFinishes(c, w'.started, w'.done, g);
    ReplayThen(c.origin, w'.trace + RunsOf(g, c.origin.arena[g].disposables), Ended(g));
    assert (open + [Frame(g, [])])[..|open|] == open;
    ReachesSelf(c.origin, g);
  }

  lemma LeaveInSteps(m: State, v1: State, v: State, g: FiberId, es: seq<Effect>, final: Phase)
    requires g in m.arena && m.arena[g].disposalStarted
    requires v1 == RunAll(m, es).(arena := m.arena[g := m.arena[g].(disposables := [])])
    requires v == v1.(pending := DropEntries(v1.pending, g), arena := v1.arena[g := v1.arena[g].(phase := final)],
                      registry := v1.registry - {g})
    ensures v == Leave(m, g, es, final)
  {
    RunAllArena(m, es, m.arena);
    assert m.(arena := m.arena) == m;
  }

  /** What `dependents_of` finds mid-cascade: successors of `g`, and every user not yet started. */
  lemma DependentsLead(v: State, c: Cascade, open: seq<Frame>, w: Walk, g: FiberId, p: Provided, i: nat)
    requires Within(v, c, open, w) && g in c.origin.arena && i < |c.origin.arena[g].provided|
    requires p == c.origin.arena[g].provided[i] && UsersStarted(c.origin, g, c.origin.arena[g].provided[..i], w.started)
    ensures forall x :: x in Dependents(v, p.realm, p.key, g) ==> Due(c.origin, g, w.started, x)
    ensures forall x :: x in Dependents(c.origin, p.realm, p.key, g) ==>
                          x in w.started || x in Dependents(v, p.realm, p.key, g)
  {
    DependentsMid(c, w.started, w.done, p, g);
    forall x | x in Dependents(v, p.realm, p.key, g) ensures Due(c.origin, g, w.started, x) {
      assert DueAsUser(c.origin, g, i, w.started, x);
    }
  }

  lemma OneMoreService(s: State, g: FiberId, provided: seq<Provided>, p: Provided,
                       started: set<FiberId>, started': set<FiberId>)
    requires UsersStarted(s, g, provided, started) && started <= started'
    requires forall x :: x in Dependents(s, p.realm, p.key, g) ==> x in started'
    ensures UsersStarted(s, g, provided + [p], started')
  {
  }

  lemma TakeOneMore<T>(q: seq<T>, i: nat)
    requires i < |q|
    ensures q[..i + 1] == q[..i] + [q[i]]
  {
  }

  lemma NotListedBefore<T>(q: seq<T>, i: nat)
    requires Distinct(q) && i < |q|
    ensures q[i] !in q[..i]
  {
  }

  ghost predicate FirstStarted(list: seq<FiberId>, n: nat, started: set<FiberId>)
    requires n <= |list|
  {
    forall i :: 0 <= i < n ==> list[i] in started
  }

  lemma OneMoreStarted(list: seq<FiberId>, n: nat, before: set<FiberId>, started: set<FiberId>)
    requires n < |list| && FirstStarted(list, n, before) && before <= started && list[n] in started
    ensures FirstStarted(list, n + 1, started)
  {
  }

  lemma RunOneMore(s: State, batch: seq<Effect>, i: nat)
    requires i < |batch|
    ensures RunAll(s, Reverse(batch[i..])) == RunEffect(RunAll(s, Reverse(batch[i + 1..])), batch[i])
  {
    assert batch[i..][1..] == batch[i + 1..];
    RunAllThen(s, Reverse(batch[i + 1..]), batch[i]);
  }

  /** What running the cleanups `es` of `g` logs: one event each, newest first. */
  ghost function RunsOf(g: FiberId, es: seq<Effect>): seq<Event>
  {
    if es == [] then [] else RunsOf(g, es[1..]) + [Ran(g, es[0])]
  }

  lemma TraceOneMore(s: State, t: seq<Event>, open: seq<Frame>, g: FiberId, batch: seq<Effect>, i: nat,
                     started: set<FiberId>)
    requires i < |batch| && CascadeStarted(s, g, started)
    requires Replay(s, t + RunsOf(g, batch[i + 1..])) == Some(Machine(open + [Frame(g, batch[..i + 1])], started))
    ensures RunsOf(g, batch[i..]) == RunsOf(g, batch[i + 1..]) + [Ran(g, batch[i])]
    ensures Replay(s, t + RunsOf(g, batch[i..])) == Some(Machine(open + [Frame(g, batch[..i])], started))
  {
    assert batch[i..][1..] == batch[i + 1..];
    Associate(t, RunsOf(g, batch[i + 1..]), [Ran(g, batch[i])]);
    ReplayThen(s, t + RunsOf(g, batch[i + 1..]), Ran(g, batch[i]));
    assert (open + [Frame(g, batch[..i + 1])])[..|open|] == open;
    assert batch[..i + 1][..i] == batch[..i];
  }

  lemma AllSuccessorsStarted(s: State, g: FiberId, started: set<FiberId>)
    requires g in s.arena && UsersStarted(s, g, s.arena[g].provided, started)
    requires forall x :: x in Children(s, g) ==> x in started
    ensures CascadeStarted(s, g, started)
  {
  }

  lemma {:induction false} DisposeEachKeeps(s: State, fs: seq<FiberId>)
    requires Core(s)
    ensures var t := DisposeEach(s, fs);
            Core(t) && t.arena.Keys == s.arena.Keys && (QueueBlocked(s) ==> QueueBlocked(t))
  {
    if fs != [] {
      DisposeEachKeeps(s, fs[..|fs| - 1]);
      DisposeKeeps(DisposeEach(s, fs[..|fs| - 1]), fs[|fs| - 1], Disposed);
      DisposeKeepsIds(DisposeEach(s, fs[..|fs| - 1]), fs[|fs| - 1]);
    }
  }

  lemma DisposeKeepsIds(s: State, f: FiberId)
    ensures DisposeState(s, f, Disposed).arena.Keys == s.arena.Keys
  {
  }

  lemma CascadeStarts(s: State, c: Cascade)
    requires Core(s) && c.origin == s
    ensures forall past :: Within(s, c, [], Walk({}, {}, [], past))
  {
    MidBegins(c);
  }

  /** A cascade with nothing open has torn down exactly the closure of its root. */
  lemma CascadeEnds(v: State, c: Cascade, w: Walk, past: seq<Event>)
    requires Core(c.origin) && c.root in c.origin.registry
    requires Within(v, c, [], w) && c.root in w.started && Continues(c, c.root, Walk({}, {}, [], past), w)
    ensures w.started == Doomed(c.origin, c.root) && v == DisposeState(c.origin, c.root, c.final)
    ensures Replay(c.origin, w.trace) == Some(Machine([], Doomed(c.origin, c.root)))
  {
    assert w.done == w.started;
    DoomedIsLeast(c.origin, c.root, w.started);
  }

  lemma {:induction false} PeersIgnoreQueue(s: State, q: seq<Entry>)
    ensures PeersOf(s.(pending := []), q) == PeersOf(s, q)
  {
    if q != [] { PeersIgnoreQueue(s, q[1..]); }
  }

  lemma AllFall(s: State)
    requires Core(s) && ROOT_FIBER in s.registry
    ensures Doomed(s, ROOT_FIBER) == s.registry
  {
    forall f | f in s.registry ensures f in Doomed(s, ROOT_FIBER) {
      RootReaches(s, f);
    }
  }

  /** Fresh fiber ids are unused. */
  ghost predicate FreshIds(s: State)
  {
    forall f :: f in s.arena || f in s.registry ==> f < s.nextFiber
  }

  ghost predicate Consecutive(ids: seq<FiberId>, base: FiberId)
  {
    forall i :: 0 <= i < |ids| ==> ids[i] == base + i
  }

  lemma NextInLine(ids: seq<FiberId>, base: FiberId)
    requires Consecutive(ids, base)
    ensures Consecutive(ids + [base + |ids|], base)
  {
  }

  class Kernel {
    var nextFiber: FiberId
    var nextRealm: RealmId
    var nextHandler: nat
    var arena: map<FiberId, Fiber>
    var registry: set<FiberId>
    var realms: RealmTree
    var pending: seq<Entry>
    var pipelines: map<Point, seq<Middleware>>

    /** What disposals did so far, in order. */
    ghost var log: seq<Event>

    function View(): State
      reads this
    {
      State(nextFiber, nextRealm, nextHandler, arena, registry, realms, pending, pipelines)
    }

    /** The kernel is within the cascade `c` at `w`, and its log says so. */
    ghost predicate At(c: Cascade, open: seq<Frame>, w: Walk)
      reads this
    {
      Within(View(), c, open, w) && log == w.past + w.trace
    }

    constructor ()
      ensures View() == Init() && Inv(View()) && Calm(View()) && log == []
    {
      nextFiber, nextRealm, nextHandler := 1, 1, 0;
      arena := map[ROOT_FIBER := Fiber(ROOT_FIBER, ROOT_REALM, Ready, false, [], [], [], [])];
      registry := {ROOT_FIBER};
      realms := map[ROOT_REALM := Realm(None, map[])];
      pending := [];
      pipelines := map[];
      log := [];
      new;
      InitInv();
    }

    // ---- walks over the realm tree ----

    method ResolvingRealm(realm: RealmId, key: Key) returns (w: Option<RealmId>)
      ensures w == Resolve(realms, realm, key)
    {
      var next := Some(realm);
      while next.Some?
        invariant Resolve(realms, realm, key) == if next.Some? then Resolve(realms, next.value, key) else None
        decreases if next.Some? then next.value + 1 else 0
      {
        var current := next.value;
        if current !in realms { return None; }
        if key in realms[current].services { return Some(current); }
        next := realms[current].parent;
      }
      return None;
    }

    method LookupService(realm: RealmId, key: Key) returns (v: Option<Value>)
      ensures v == Lookup(realms, realm, key)
    {
      var next := Some(realm);
      while next.Some?
        invariant Lookup(realms, realm, key) == if next.Some? then Lookup(realms, next.value, key) else None
        decreases if next.Some? then next.value + 1 else 0
      {
        var current := next.value;
        if current !in realms { return None; }
        if key in realms[current].services { return Some(realms[current].services[key]); }
        next := realms[current].parent;
      }
      return None;
    }

    method VisibleFrom(from: RealmId, at: RealmId) returns (b: bool)
      ensures b == Visible(realms, from, at)
    {
      var next := Some(at);
      while next.Some?
        invariant Visible(realms, from, at) == (next.Some? && Visible(realms, from, next.value))
        decreases if next.Some? then next.value + 1 else 0
      {
        var current := next.value;
        if current == from { return true; }
        next := if current in realms then realms[current].parent else None;
      }
      return false;
    }

    method RealmChain(realm: RealmId) returns (chain: seq<RealmId>)
      ensures chain == Chain(realms, realm)
    {
      chain := [];
      var next := Some(realm);
      while next.Some?
        invariant next.Some? ==> Chain(realms, realm) == chain + Chain(realms, next.value)
        invariant next.None? ==> Chain(realms, realm) == chain
        decreases if next.Some? then next.value + 1 else 0
      {
        var current := next.value;
        chain := chain + [current];
        if current !in realms { return; }
        next := realms[current].parent;
      }
    }

    // ---- cleanups ----

    method RemovePipeline(p: Point, id: nat)
      modifies this`pipelines
      ensures View() == RunEffect(old(View()), RemoveMiddleware(p, id))
    {
      if p in pipelines {
        var entries := pipelines[p];
        var kept: seq<Middleware> := [];
        for i := 0 to |entries|
          invariant kept + Without(entries[i..], id) == Without(entries, id)
        {
          assert entries[i..][1..] == entries[i + 1..];
          if entries[i].id != id { kept := kept + [entries[i]]; }
        }
        assert entries[|entries|..] == [] && kept == Without(entries, id);
        pipelines := pipelines[p := kept];
      }
    }

    method RemoveServiceFrom(r: RealmId, k: Key, v: Value)
      modifies this`realms
      ensures View() == RunEffect(old(View()), RemoveService(r, k, v))
    {
      if r in realms && k in realms[r].services && realms[r].services[k] == v {
        realms := realms[r := realms[r].(services := realms[r].services - {k})];
      }
    }

    /** Runs one cleanup of the fiber `g`. */
    method RunCleanup(ghost g: FiberId, e: Effect)
      modifies this`realms, this`pipelines, this`log
      ensures View() == RunEffect(old(View()), e) && log == old(log) + [Ran(g, e)]
    {
      match e {
        case RemoveService(r, k, v) => RemoveServiceFrom(r, k, v);
        case RemoveMiddleware(p, id) => RemovePipeline(p, id);
        case Cleanup(_) =>
      }
      log := log + [Ran(g, e)];
    }

    method RemovePending(f: FiberId)
      modifies this`pending
      ensures View() == old(View()).(pending := DropEntries(old(pending), f))
    {
      var kept: seq<Entry> := [];
      for i := 0 to |pending|
        invariant pending == old(pending)
        invariant kept + DropEntries(pending[i..], f) == DropEntries(pending, f)
      {
        assert pending[i..][1..] == pending[i + 1..];
        if pending[i].fiber != f { kept := kept + [pending[i]]; }
      }
      pending := kept;
    }

    // ---- disposal ----

    /** The fibers that started on the binding of `key` held by `realm`, each once, in no particular order. */
    method DependentsOf(realm: RealmId, key: Key, exclude: FiberId) returns (found: seq<FiberId>)
      ensures Distinct(found)
      ensures forall x :: x in found <==> x in Dependents(View(), realm, key, exclude)
    {
      var fibers := Enumerate(registry);
      found := [];
      for i := 0 to |fibers|
        invariant Distinct(found)
        invariant forall x :: x in found <==> x in fibers[..i] && x in Dependents(View(), realm, key, exclude)
      {
        var x := fibers[i];
        TakeOneMore(fibers, i);
        if x != exclude && Live(View(), x) && (arena[x].phase.Starting? || arena[x].phase.Ready?)
           && key in arena[x].injected
        {
          var resolved := ResolvingRealm(arena[x].realm, key);
          if resolved == Some(realm) {
            NotListedBefore(fibers, i);
            found := found + [x];
          }
        }
      }
      assert fibers[..|fibers|] == fibers;
    }

    /** The live children, each once, in no particular order. */
    method ChildrenOf(parent: FiberId) returns (found: seq<FiberId>)
      ensures Distinct(found)
      ensures forall x :: x in found <==> x in Children(View(), parent)
    {
      var fibers := Enumerate(registry);
      found := [];
      for i := 0 to |fibers|
        invariant Distinct(found)
        invariant forall x :: x in found <==> x in fibers[..i] && x in Children(View(), parent)
      {
        var x := fibers[i];
        TakeOneMore(fibers, i);
        if x != parent && Live(View(), x) && arena[x].parent == parent {
          NotListedBefore(fibers, i);
          found := found + [x];
        }
      }
      assert fibers[..|fibers|] == fibers;
    }

    /** Runs a started fiber's cleanups newest first, until its list stays empty. */
    method Drain(g: FiberId, ghost c: Cascade, ghost open: seq<Frame>, ghost w: Walk)
      requires g in c.origin.arena && g in w.started && g !in w.done
      requires Within(View(), c, open + [Frame(g, c.origin.arena[g].disposables)], w)
      requires CascadeStarted(c.origin, g, w.started)
      modifies this
      ensures g in old(arena)
      ensures var t := RunAll(old(View()), Reverse(c.origin.arena[g].disposables));
              View() == t.(arena := old(arena)[g := old(arena)[g].(disposables := [])])
      ensures log == old(log) + RunsOf(g, c.origin.arena[g].disposables)
      ensures Replay(c.origin, w.trace + RunsOf(g, c.origin.arena[g].disposables))
           == Some(Machine(open + [Frame(g, [])], w.started))
    {
      ghost var owed := c.origin.arena[g].disposables;
      ghost var s0, log0 := View(), log;
      ghost var emptied := arena[g := arena[g].(disposables := [])];
      assert owed == [] ==> Reverse(owed) == [] && emptied == arena;
      assert owed == [] ==> log0 + RunsOf(g, owed) == log0 && w.trace + RunsOf(g, owed) == w.trace;
      var drained := false;
      while !drained
        invariant (View() == s0 && !drained && log == log0)
               || (View() == RunAll(s0, Reverse(owed)).(arena := emptied)
                   && log == log0 + RunsOf(g, owed)
                   && Replay(c.origin, w.trace + RunsOf(g, owed)) == Some(Machine(open + [Frame(g, [])], w.started)))
        decreases !drained, if g in arena then |arena[g].disposables| else 0
      {
        RunAllArena(s0, Reverse(owed), s0.arena);
        var batch := arena[g].disposables;
        arena := arena[g := arena[g].(disposables := [])];
        if batch == [] {
          drained := true;
        } else {
          RunBatch(g, batch, c, open, w);
          assert View() == RunAll(s0.(arena := emptied), Reverse(owed));
          RunAllArena(s0, Reverse(owed), emptied);
        }
      }
    }

    method RunBatch(g: FiberId, batch: seq<Effect>, ghost c: Cascade, ghost open: seq<Frame>, ghost w: Walk)
      requires g in c.origin.arena && batch == c.origin.arena[g].disposables
      requires Replay(c.origin, w.trace) == Some(Machine(open + [Frame(g, batch)], w.started))
      requires CascadeStarted(c.origin, g, w.started)
      modifies this`realms, this`pipelines, this`log
      ensures View() == RunAll(old(View()), Reverse(batch))
      ensures log == old(log) + RunsOf(g, batch)
      ensures Replay(c.origin, w.trace + RunsOf(g, batch)) == Some(Machine(open + [Frame(g, [])], w.started))
    {
      var i := |batch|;
      assert batch[..i] == batch && batch[i..] == [];
      assert w.trace + RunsOf(g, []) == w.trace;
      while i > 0
        invariant 0 <= i <= |batch|
        invariant View() == RunAll(old(View()), Reverse(batch[i..]))
        invariant log == old(log) + RunsOf(g, batch[i..])
        invariant Replay(c.origin, w.trace + RunsOf(g, batch[i..]))
                      == Some(Machine(open + [Frame(g, batch[..i])], w.started))
      {
        i := i - 1;
        RunCleanup(g, batch[i]);
        RunOneMore(old(View()), batch, i);
        TraceOneMore(c.origin, w.trace, open, g, batch, i, w.started);
        Associate(old(log), RunsOf(g, batch[i + 1..]), [Ran(g, batch[i])]);
      }
      assert batch[0..] == batch && batch[..0] == [];
    }

    /** Step 6: leave the queue, publish the terminal phase, leave the registry. */
    method LeaveRegistry(g: FiberId, final: Phase)
      requires g in arena
      modifies this
      ensures View() == old(View()).(pending := DropEntries(old(pending), g),
                                     arena := old(arena)[g := old(arena)[g].(phase := final)],
                                     registry := old(registry) - {g})
      ensures log == old(log) + [Ended(g)]
    {
      RemovePending(g);
      arena := arena[g := arena[g].(phase := final)];
      registry := registry - {g};
      log := log + [Ended(g)];
    }

    /**
     * The recursive teardown. Whatever order the registry is iterated in, the kernel is at every point
     * `Mid` of the state the cascade began in, and what this call adds is reachable from `g` there.
     */
    method DisposeFiber(g: FiberId, final: Phase, ghost c: Cascade, ghost open: seq<Frame>, ghost w: Walk)
      returns (ghost w': Walk)
      requires At(c, open, w) && g in c.origin.registry && Triggered(c.origin, open, w.started, g)
      requires g in w.started || final == FinalPhase(c, g)
      requires c.root in w.started || g == c.root
      modifies this
      ensures At(c, open, w') && g in w'.started && Continues(c, g, w, w')
      ensures g !in w.started ==> Spans(g, w.trace, w'.trace)
      decreases |c.origin.registry - w.started|, 0
    {
      BeginDisposal(View(), c, open, w, g);
      if arena[g].disposalStarted {
        ContinuesRefl(c, g, w);
        return w;
      }
      ghost var frame := Frame(g, c.origin.arena[g].disposables);
      RegistryShrinks(c.origin.registry, w.started, g);
      arena := arena[g := arena[g].(disposalStarted := true)];
      log := log + [Began(g)];
      Associate(w.past, w.trace, [Began(g)]);
      ghost var w2 := DisposeFollowers(g, c, open + [frame], Mark(w, g));
      w' := EndDisposal(g, final, c, open, w, w2);
    }

    /** Steps 3 and 4: everything that `g` leads to goes before its own cleanups run. */
    method DisposeFollowers(g: FiberId, ghost c: Cascade, ghost open: seq<Frame>, ghost w: Walk)
      returns (ghost w': Walk)
      requires At(c, open, w) && c.root in w.started && g in w.started && g !in w.done && Innermost(open, g)
      requires g in c.origin.arena && g in arena && arena[g].provided == c.origin.arena[g].provided
      modifies this
      ensures At(c, open, w') && Continues(c, g, w, w') && CascadeStarted(c.origin, g, w'.started)
      decreases |c.origin.registry - w.started|, 5
    {
      ghost var w1;
      var visited;
      visited, w1 := DisconnectDependents(g, c, open, w);
      SubsetSize(c.origin.registry - w1.started, c.origin.registry - w.started);
      w' := DisposeChildren(g, visited, c, open, w, w1);
      AllSuccessorsStarted(c.origin, g, w'.started);
    }

    /** Steps 5 and 6: run the cleanups, and leave. */
    method EndDisposal(g: FiberId, final: Phase, ghost c: Cascade, ghost open: seq<Frame>, ghost w: Walk,
                       ghost w2: Walk)
      returns (ghost w': Walk)
      requires g in c.origin.registry && g in c.origin.arena && g !in w.started && w.done <= w.started
      requires At(c, open + [Frame(g, c.origin.arena[g].disposables)], w2) && Continues(c, g, Mark(w, g), w2)
      requires CascadeStarted(c.origin, g, w2.started) && final == FinalPhase(c, g)
      modifies this
      ensures At(c, open, w') && g in w'.started && Continues(c, g, w, w') && Spans(g, w.trace, w'.trace)
    {
      ghost var m, owed := View(), c.origin.arena[g].disposables;
      Drain(g, c, open, w2);
      ghost var v1 := View();
      LeaveRegistry(g, final);
      LeaveInSteps(m, v1, View(), g, Reverse(owed), final);
      w' := Finish(w2, g, owed);
      FinishDisposal(m, View(), c, open, w, w2, g);
      FinishLog(w2.past, w2.trace, RunsOf(g, owed), Ended(g));
      FinishSpans(c, w, w2, g, owed);
    }

    /** Step 3: dispose the fibers that run on services this fiber provided. */
    method DisconnectDependents(g: FiberId, ghost c: Cascade, ghost open: seq<Frame>, ghost w: Walk)
      returns (visited: set<FiberId>, ghost w': Walk)
      requires At(c, open, w) && c.root in w.started && g in w.started && g !in w.done && Innermost(open, g)
      requires g in c.origin.arena && g in arena && arena[g].provided == c.origin.arena[g].provided
      modifies this
      ensures At(c, open, w') && Continues(c, g, w, w')
      ensures visited <= w'.started
      ensures UsersStarted(c.origin, g, c.origin.arena[g].provided, w'.started)
      decreases |c.origin.registry - w.started|, 4
    {
      w', visited := w, {g};
      ContinuesRefl(c, g, w);
      var provided := arena[g].provided;
      for i := 0 to |provided|
        invariant At(c, open, w') && Continues(c, g, w, w')
        invariant visited <= w'.started
        invariant UsersStarted(c.origin, g, provided[..i], w'.started)
      {
        ghost var before := w';
        SubsetSize(c.origin.registry - w'.started, c.origin.registry - w.started);
        visited, w' := DisconnectUsers(g, provided[i], visited, c, open, w', i);
        ContinuesTrans(c, g, w, before, w');
        OneMoreService(c.origin, g, provided[..i], provided[i], before.started, w'.started);
        TakeOneMore(provided, i);
      }
      assert provided[..|provided|] == provided;
    }

    method DisconnectUsers(g: FiberId, p: Provided, seen: set<FiberId>, ghost c: Cascade, ghost open: seq<Frame>,
                           ghost w: Walk, ghost i: nat)
      returns (visited: set<FiberId>, ghost w': Walk)
      requires At(c, open, w) && c.root in w.started && seen <= w.started && Innermost(open, g)
      requires g in c.origin.arena && i < |c.origin.arena[g].provided| && p == c.origin.arena[g].provided[i]
      requires UsersStarted(c.origin, g, c.origin.arena[g].provided[..i], w.started)
      modifies this
      ensures At(c, open, w') && Continues(c, g, w, w')
      ensures visited <= w'.started
      ensures forall x :: x in Dependents(c.origin, p.realm, p.key, g) ==> x in w'.started
      decreases |c.origin.registry - w.started|, 3
    {
      DependentsLead(View(), c, open, w, g, p, i);
      var dependents := DependentsOf(p.realm, p.key, g);
      visited, w' := DisposeListed(g, dependents, seen, c, open, w);
    }

    /** Step 4: dispose the child fibers. */
    method DisposeChildren(g: FiberId, visited: set<FiberId>, ghost c: Cascade, ghost open: seq<Frame>,
                           ghost w: Walk, ghost w1: Walk)
      returns (ghost w': Walk)
      requires At(c, open, w1) && Continues(c, g, w, w1) && Innermost(open, g)
      requires c.root in w1.started && g in w1.started && visited <= w1.started && g in c.origin.arena
      requires UsersStarted(c.origin, g, c.origin.arena[g].provided, w1.started)
      modifies this
      ensures At(c, open, w') && Continues(c, g, w, w') && w1.started <= w'.started
      ensures forall x :: x in Children(c.origin, g) ==> x in w'.started
      decreases |c.origin.registry - w1.started|, 3
    {
      var children := ChildrenOf(g);
      ChildrenMid(c, w1.started, w1.done, g);
      var _, w2 := DisposeListed(g, children, visited, c, open, w1);
      w' := w2;
      ContinuesTrans(c, g, w, w1, w');
    }

    /** Disposes the listed fibers that this disposal has not visited yet. */
    method DisposeListed(g: FiberId, list: seq<FiberId>, seen: set<FiberId>, ghost c: Cascade, ghost open: seq<Frame>,
                         ghost w: Walk)
      returns (visited: set<FiberId>, ghost w': Walk)
      requires At(c, open, w) && c.root in w.started && seen <= w.started && Innermost(open, g)
      requires forall x :: x in list ==> Due(c.origin, g, w.started, x)
      modifies this
      ensures At(c, open, w') && Continues(c, g, w, w')
      ensures visited <= w'.started
      ensures forall x :: x in list ==> x in w'.started
      decreases |c.origin.registry - w.started|, 2
    {
      visited, w' := seen, w;
      ContinuesRefl(c, g, w);
      for j := 0 to |list|
        invariant At(c, open, w') && Continues(c, g, w, w')
        invariant visited <= w'.started
        invariant FirstStarted(list, j, w'.started)
      {
        assert list[j] in list;
        ghost var before := w'.started;
        SubsetSize(c.origin.registry - before, c.origin.registry - w.started);
        DueStays(c.origin, g, w.started, before, list[j]);
        visited, w' := Visit(g, list[j], visited, c, open, w, w');
        OneMoreStarted(list, j, before, w'.started);
      }
    }

    /** Disposes a fiber that `g` leads to, unless the disposal of `g` has visited it already. */
    method Visit(g: FiberId, x: FiberId, seen: set<FiberId>, ghost c: Cascade, ghost open: seq<Frame>,
                 ghost w: Walk, ghost w1: Walk)
      returns (visited: set<FiberId>, ghost w': Walk)
      requires At(c, open, w1) && Continues(c, g, w, w1) && c.root in w1.started
      requires Due(c.origin, g, w1.started, x) && seen <= w1.started && Innermost(open, g)
      modifies this
      ensures At(c, open, w') && Continues(c, g, w, w')
      ensures x in w'.started && w1.started <= w'.started && visited <= w'.started
      decreases |c.origin.registry - w1.started|, 1
    {
      if x in seen { return seen, w1; }
      visited := seen + {x};
      DueIsEdge(c.origin, g, w1.started, x);
      w' := DisposeFiber(x, Disposed, c, open, w1);
      ContinuesVia(c, g, x, w1, w');
      ContinuesTrans(c, g, w, w1, w');
    }

    /**
     * Disposes a fiber. Whatever the iteration order, exactly the closure of `f` in the state before the
     * call is torn down, everything else stays as it was, and the teardown follows the discipline of `Trace`.
     */
    method Dispose(f: FiberId, final: Phase) returns (ghost trace: seq<Event>)
      requires Core(View()) && f in arena && final.Terminal()
      modifies this
      ensures View() == DisposeState(old(View()), f, final)
      ensures Core(View()) && (QueueBlocked(old(View())) ==> QueueBlocked(View()))
      ensures log == old(log) + trace
      ensures Replay(old(View()), trace) == Some(Machine([], Doomed(old(View()), f)))
      ensures if Live(old(View()), f) then trace != [] && trace[0] == Began(f) && trace[|trace| - 1] == Ended(f)
              else trace == []
    {
      ghost var s := View();
      if arena[f].disposalStarted {
        assert Doomed(s, f) == {};
        return [];
      }
      trace := DisposeLive(f, final);
      DisposeKeeps(s, f, final);
    }

    method DisposeLive(f: FiberId, final: Phase) returns (ghost trace: seq<Event>)
      requires Core(View()) && Live(View(), f)
      modifies this
      ensures View() == DisposeState(old(View()), f, final) && log == old(log) + trace
      ensures Replay(old(View()), trace) == Some(Machine([], Doomed(old(View()), f)))
      ensures trace != [] && trace[0] == Began(f) && trace[|trace| - 1] == Ended(f)
    {
      ghost var c := Cascade(View(), f, final);
      CascadeStarts(View(), c);
      ghost var w := DisposeFiber(f, final, c, [], Walk({}, {}, [], log));
      CascadeEnds(View(), c, w, old(log));
      SpansAll(f, w.trace);
      return w.trace;
    }

    /** Disposes the listed fibers one after another; the outcome does not depend on their order. */
    method DisposeInTurn(fs: seq<FiberId>) returns (ghost traces: seq<seq<Event>>)
      requires Core(View()) && forall f :: f in fs ==> f in arena
      modifies this
      ensures TornInTurn(old(View()), fs, traces) && log == old(log) + Joined(traces)
      ensures View() == Gone(old(View()), DoomedAll(old(View()), Elements(fs)))
      ensures Core(View()) && (QueueBlocked(old(View())) ==> QueueBlocked(View()))
    {
      ghost var s := View();
      assert fs[..0] == [] && log + [] == log;
      traces := [];
      for i := 0 to |fs|
        invariant View() == DisposeEach(s, fs[..i])
        invariant TornInTurn(s, fs[..i], traces) && log == old(log) + Joined(traces)
      {
        DisposeEachKeeps(s, fs[..i]);
        TakeOneMore(fs, i);
        assert fs[..i + 1][..i] == fs[..i];
        ghost var trace := Dispose(fs[i], Disposed);
        TornOnceMore(s, fs[..i], traces, fs[i], trace);
        Associate(old(log), Joined(traces), trace);
        traces := traces + [trace];
      }
      assert fs[..|fs|] == fs;
      DisposeEachKeeps(s, fs);
      DisposeEachIsUnion(s, fs);
    }

    /** `Kernel::dispose`: the root's cascade, then a sweep of leftover queue entries. */
    method DisposeKernel() returns (ghost trace: seq<Event>)
      requires Core(View())
      modifies this
      ensures log == old(log) + trace && Replay(old(View()), trace) == Some(Machine([], old(registry)))
      ensures View() == DisposeState(old(View()), ROOT_FIBER, Disposed)
      ensures registry == {} && pending == [] && forall r :: r in realms ==> realms[r].services == map[]
    {
      RootTakesEverything(View());
      RootDoomsAll(View());
      trace := [];
      if ROOT_FIBER in registry {
        AllFall(View());
        trace := Dispose(ROOT_FIBER, Disposed);
      }
      // The sweep of leftover queue entries finds none: a queued fiber is registered, hence in the cascade.
      assert pending == [];
    }

    // ---- reactive start ----

    /** Drains the queue and splits it into the entries that may start now and those put back. */
    method TakeSatisfied() returns (ready: seq<Entry>)
      modifies this`pending
      ensures ready == ReadyOf(old(View()), old(pending))
      ensures View() == old(View()).(pending := RestOf(old(View()), old(pending)))
    {
      ghost var s := View();
      var entries := pending;
      pending := [];
      var peers := PeersOf(View(), entries);
      PeersIgnoreQueue(s, entries);
      var rest: seq<Entry> := [];
      ready := [];
      assert entries[0..] == entries;
      for i := 0 to |entries|
        invariant View() == s.(pending := [])
        invariant ready + ReadyOf(s, entries[i..]) == ReadyOf(s, entries)
        invariant rest + RestOf(s, entries[i..]) == RestOf(s, entries)
      {
        var alive, satisfied := Judge(entries[i], peers, s);
        SplitNext(s, entries, i, ready, rest);
        if alive {
          if satisfied {
            ready := ready + [entries[i]];
          } else {
            rest := rest + [entries[i]];
          }
        }
      }
      assert entries[|entries|..] == [];
      pending := pending + rest;
    }

    /** Whether a drained entry is still alive, and whether its dependencies are satisfied. */
    method Judge(e: Entry, peers: seq<Peer>, ghost s: State) returns (alive: bool, satisfied: bool)
      requires View() == s.(pending := []) && peers == PeersOf(s, s.pending)
      ensures alive <==> StillAlive(s, e)
      ensures satisfied <==> Wakes(s, e)
    {
      alive := e.fiber in arena && !arena[e.fiber].disposalStarted;
      if !alive { return false, false; }
      satisfied := DependenciesSatisfied(e.fiber, arena[e.fiber].realm, e.plugin, peers);
    }

    /** Hard dependencies must resolve; soft ones must resolve or have no unsettled declared provider. */
    method DependenciesSatisfied(waiting: FiberId, realm: RealmId, plugin: Plugin, peers: seq<Peer>)
      returns (satisfied: bool)
      ensures satisfied <==> Satisfied(View(), waiting, realm, plugin, peers)
    {
      for i := 0 to |plugin.inject|
        invariant forall j :: 0 <= j < i ==> DependencySatisfied(View(), waiting, realm, plugin.inject[j], peers)
      {
        var key := plugin.inject[i].key;
        var service := LookupService(realm, key);
        if service.None? {
          if plugin.inject[i].Hard? { return false; }
          var declared := FindDeclaredProvider(waiting, realm, key, peers);
          if declared { return false; }
        }
      }
      return true;
    }

    /** Whether a drained peer, a queued plugin or a starting one declares `key` where `realm` can see it. */
    method FindDeclaredProvider(waiting: FiberId, realm: RealmId, key: Key, peers: seq<Peer>) returns (found: bool)
      ensures found <==> HasDeclaredProvider(View(), waiting, realm, key, peers)
    {
      for i := 0 to |peers|
        invariant forall j :: 0 <= j < i ==> !(peers[j].fiber != waiting && key in peers[j].declares
                                               && Visible(realms, peers[j].realm, realm))
      {
        if peers[i].fiber != waiting && key in peers[i].declares {
          var visible := VisibleFrom(peers[i].realm, realm);
          if visible { return true; }
        }
      }
      found := FindPendingProvider(waiting, realm, key);
      if !found { found := FindStartingProvider(waiting, realm, key); }
    }

    method FindPendingProvider(waiting: FiberId, realm: RealmId, key: Key) returns (found: bool)
      ensures found <==> exists i :: 0 <= i < |pending| && PendingDeclares(View(), pending[i], waiting, realm, key)
    {
      for i := 0 to |pending|
        invariant forall j :: 0 <= j < i ==> !PendingDeclares(View(), pending[j], waiting, realm, key)
      {
        var e := pending[i];
        if e.fiber != waiting && e.fiber in arena && !arena[e.fiber].disposalStarted && key in e.plugin.declares {
          var visible := VisibleFrom(arena[e.fiber].realm, realm);
          if visible { return true; }
        }
      }
      return false;
    }

    method FindStartingProvider(waiting: FiberId, realm: RealmId, key: Key) returns (found: bool)
      ensures found <==> exists f :: f in registry && StartingDeclares(View(), f, waiting, realm, key)
    {
      var fibers := Enumerate(registry);
      for i := 0 to |fibers|
        invariant forall j :: 0 <= j < i ==> !StartingDeclares(View(), fibers[j], waiting, realm, key)
      {
        var f := fibers[i];
        if f != waiting && Live(View(), f) && arena[f].phase.Starting? && key in arena[f].declared {
          var visible := VisibleFrom(arena[f].realm, realm);
          if visible {
            assert f in fibers;
            return true;
          }
        }
      }
      assert forall f :: f in registry ==> f in fibers;
      return false;
    }

    method StartPlugin(e: Entry)
      modifies this`arena
      ensures View() == StartFiber(old(View()), e)
    {
      if e.fiber !in arena || arena[e.fiber].disposalStarted { return; }
      var keys: seq<Key> := [];
      var inject := e.plugin.inject;
      for i := 0 to |inject|
        invariant keys + HardKeys(inject[i..]) == HardKeys(inject)
        invariant View() == old(View())
      {
        HardKeysNext(inject, i, keys);
        if inject[i].Hard? { keys := keys + [inject[i].key]; }
      }
      assert inject[|inject|..] == [] && keys == HardKeys(inject);
      arena := arena[e.fiber := arena[e.fiber].(injected := keys, declared := e.plugin.declares, phase := Starting)];
    }

    method WakeSatisfied()
      modifies this
      ensures View() == Wake(old(View()))
      ensures log == old(log)
    {
      ghost var s := View();
      var ready := TakeSatisfied();
      ghost var taken := View();
      assert ready[0..] == ready;
      for i := 0 to |ready|
        invariant StartAll(View(), ready[i..]) == StartAll(taken, ready) && log == old(log)
      {
        assert ready[i..][0] == ready[i] && ready[i..][1..] == ready[i + 1..];
        StartPlugin(ready[i]);
      }
      assert ready[|ready|..] == [];
    }

    // ---- operations on contexts ----

    method Provide(ctx: Ctx, k: Key, v: Value)
      requires Core(View()) && Known(View(), ctx)
      modifies this
      ensures View() == Operations.Provide(old(View()), ctx, k, v)
      ensures if Active(old(View()), ctx.fiber) && Replaces(old(View()), ctx, k, v)
              then LogsTeardowns(Bind(old(View()), ctx, k, v),
                                 Dependents(Bind(old(View()), ctx, k, v), ctx.realm, k, ctx.fiber), old(log), log)
              else log == old(log)
    {
      if !Active(View(), ctx.fiber) { return; }
      ghost var s := View();
      var previous := InsertService(ctx, k, v);
      BindKeepsCore(s, ctx, k, v);
      if previous.Some? && previous.value != v {
        DisconnectReplaced(ctx, k);
      }
      WakeSatisfied();
    }

    /** Binds the value, and hands its cleanup to the providing fiber. */
    method InsertService(ctx: Ctx, k: Key, v: Value) returns (previous: Option<Value>)
      requires Known(View(), ctx)
      modifies this`realms, this`arena
      ensures View() == Bind(old(View()), ctx, k, v)
      ensures Replaces(old(View()), ctx, k, v) <==> previous.Some? && previous.value != v
    {
      var services := realms[ctx.realm].services;
      previous := if k in services then Some(services[k]) else None;
      realms := realms[ctx.realm := realms[ctx.realm].(services := services[k := v])];
      var rec := arena[ctx.fiber];
      arena := arena[ctx.fiber := rec.(provided := rec.provided + [Provided(k, ctx.realm)],
                                       disposables := rec.disposables + [RemoveService(ctx.realm, k, v)])];
    }

    method DisconnectReplaced(ctx: Ctx, k: Key)
      requires Core(View())
      modifies this
      ensures View() == Gone(old(View()), DoomedAll(old(View()), Dependents(old(View()), ctx.realm, k, ctx.fiber)))
      ensures LogsTeardowns(old(View()), Dependents(old(View()), ctx.realm, k, ctx.fiber), old(log), log)
    {
      var dependents := DependentsOf(ctx.realm, k, ctx.fiber);
      assert Elements(dependents) == Dependents(View(), ctx.realm, k, ctx.fiber);
      ghost var traces := DisposeInTurn(dependents);
    }

    method CreateChild(ctx: Ctx) returns (id: FiberId)
      modifies this
      ensures id == old(nextFiber) && View() == CreateFiber(old(View()), ctx)
      ensures log == old(log)
    {
      id := nextFiber;
      nextFiber := nextFiber + 1;
      arena := arena[id := Fiber(ctx.fiber, ctx.realm, Pending, false, [], [], [], [])];
      registry := registry + {id};
    }

    /** Takes a newborn fiber out again, finished, when the fiber above it is no longer active. */
    method Bury(id: FiberId)
      requires id in arena
      modifies this
      ensures var rec := old(arena)[id].(disposalStarted := true, phase := Disposed);
              View() == old(View()).(arena := old(arena)[id := rec], registry := old(registry) - {id})
      ensures log == old(log)
    {
      arena := arena[id := arena[id].(disposalStarted := true, phase := Disposed)];
      registry := registry - {id};
    }

    method Register(ctx: Ctx, plugin: Plugin) returns (id: FiberId)
      requires FreshIds(View()) && Known(View(), ctx)
      modifies this
      ensures id == old(nextFiber) && View() == Operations.Register(old(View()), ctx, plugin)
      ensures log == old(log)
    {
      id := CreateChild(ctx);
      if !Active(View(), ctx.fiber) {
        Bury(id);
        return;
      }
      var satisfied := DependenciesSatisfied(id, ctx.realm, plugin, []);
      if satisfied {
        StartPlugin(Entry(id, plugin));
      } else {
        pending := pending + [Entry(id, plugin)];
      }
    }

    method EnqueuePlugin(ctx: Ctx, plugin: Plugin) returns (id: FiberId)
      requires FreshIds(View()) && Known(View(), ctx)
      modifies this
      ensures id == old(nextFiber) && View() == Enqueue(old(View()), ctx, plugin)
      ensures FreshIds(View()) && Known(View(), ctx) && nextFiber == id + 1
      ensures log == old(log)
    {
      id := CreateChild(ctx);
      if !Active(View(), ctx.fiber) {
        Bury(id);
      } else {
        pending := pending + [Entry(id, plugin)];
      }
    }

    /** Queues every plugin before any of them may start. */
    method RegisterBatch(ctx: Ctx, plugins: seq<Plugin>) returns (ids: seq<FiberId>)
      requires FreshIds(View()) && Known(View(), ctx)
      modifies this
      ensures View() == Operations.RegisterBatch(old(View()), ctx, plugins)
      ensures |ids| == |plugins| && Consecutive(ids, old(nextFiber))
      ensures log == old(log)
    {
      ghost var s := View();
      ids := [];
      assert plugins[..0] == [];
      for i := 0 to |plugins|
        invariant View() == EnqueueAll(s, ctx, plugins[..i]) && FreshIds(View()) && Known(View(), ctx)
        invariant |ids| == i && nextFiber == s.nextFiber + i && Consecutive(ids, s.nextFiber)
        invariant log == old(log)
      {
        assert plugins[..i + 1][..i] == plugins[..i];
        var id := EnqueuePlugin(ctx, plugins[i]);
        NextInLine(ids, s.nextFiber);
        ids := ids + [id];
      }
      assert plugins[..|plugins|] == plugins;
      WakeSatisfied();
    }

    method ForkScope(ctx: Ctx) returns (id: FiberId)
      requires FreshIds(View()) && Known(View(), ctx)
      modifies this
      ensures id == old(nextFiber) && View() == Fork(old(View()), ctx)
      ensures log == old(log)
    {
      id := CreateChild(ctx);
      if Active(View(), ctx.fiber) {
        arena := arena[id := arena[id].(phase := Ready)];
      } else {
        Bury(id);
      }
    }

    method DeriveRealm(ctx: Ctx) returns (derived: Ctx)
      requires Inv(View()) && Known(View(), ctx)
      modifies this
      ensures derived == Ctx(ctx.fiber, old(nextRealm)) && View() == Derive(old(View()), ctx) && Known(View(), derived)
      ensures Inv(View()) && (Calm(old(View())) ==> Calm(View()))
      ensures log == old(log)
    {
      DeriveKeeps(View(), ctx);
      var realm := CreateRealm(ctx.realm);
      derived := Ctx(ctx.fiber, realm);
    }

    method CreateRealm(parent: RealmId) returns (id: RealmId)
      requires IsFresh(View()) && parent in realms
      modifies this`nextRealm, this`realms
      ensures id == old(nextRealm)
      ensures View() == old(View()).(nextRealm := id + 1, realms := old(realms)[id := Realm(Some(parent), map[])])
    {
      id := nextRealm;
      nextRealm := nextRealm + 1;
      realms := realms[id := Realm(Some(parent), map[])];
    }

    method PushEffect(f: FiberId, e: Effect)
      modifies this`arena
      ensures View() == AddEffect(old(View()), f, e)
    {
      if f in registry && f in arena {
        arena := arena[f := arena[f].(disposables := arena[f].disposables + [e])];
      }
    }

    method AddEffectTo(f: FiberId, token: nat)
      requires Inv(View())
      modifies this
      ensures View() == AddEffect(old(View()), f, Cleanup(token))
      ensures Inv(View()) && (Calm(old(View())) ==> Calm(View()))
      ensures log == old(log)
    {
      EffectKeeps(View(), f, token);
      PushEffect(f, Cleanup(token));
    }

    method RegisterMiddleware(ctx: Ctx, p: Point, prepend: bool) returns (id: nat)
      requires Inv(View()) && Known(View(), ctx)
      modifies this
      ensures id == old(nextHandler) && View() == AddMiddleware(old(View()), ctx, p, prepend)
      ensures Inv(View()) && (Calm(old(View())) ==> Calm(View()))
      ensures log == old(log)
    {
      ghost var s := View();
      id := AppendMiddleware(ctx, p, prepend);
      PushEffect(ctx.fiber, RemoveMiddleware(p, id));
      MiddlewareKeeps(s, ctx, p, prepend);
    }

    method AppendMiddleware(ctx: Ctx, p: Point, prepend: bool) returns (id: nat)
      modifies this`nextHandler, this`pipelines
      ensures id == old(nextHandler) && View() == WithMiddleware(old(View()), ctx, p, prepend)
    {
      id := nextHandler;
      nextHandler := nextHandler + 1;
      var entries := if p in pipelines then pipelines[p] else [];
      pipelines := pipelines[p := entries + [Middleware(ctx.realm, ctx.fiber, id, prepend)]];
    }

    // ---- the end of a setup task ----

    method SetupSucceeded(f: FiberId)
      requires Inv(View()) && IsStarting(View(), f)
      modifies this
      ensures View() == SetupDone(old(View()), f)
      ensures Inv(View()) && Calm(View())
      ensures log == old(log)
    {
      ghost var s := View();
      if !arena[f].disposalStarted {
        arena := arena[f := arena[f].(phase := Ready)];
      }
      WakeSatisfied();
      SetupDoneKeeps(s, f);
    }

    method SetupFailed(f: FiberId) returns (ghost trace: seq<Event>)
      requires Inv(View()) && IsStarting(View(), f)
      modifies this
      ensures View() == DisposeState(old(View()), f, Failed)
      ensures Inv(View()) && f !in registry && f in arena && arena[f].phase == Failed
      ensures log == old(log) + trace
      ensures Replay(old(View()), trace) == Some(Machine([], Doomed(old(View()), f)))
    {
      ghost var s := View();
      assert Live(s, f);
      DoomedIsClosed(s, f);
      trace := Dispose(f, Failed);
    }

    // ---- pipelines ----

    /** Lists ancestors, the realm and its descendants breadth first, and numbers them. */
    method PipelineSlice(realm: RealmId) returns (order: map<RealmId, nat>)
      requires realm in realms
      ensures Indexes(order, Slice.SliceOf(realms, realm))
    {
      order := map[];
      var ancestors := RealmChain(realm);
      Slice.ChainKnown(realms, realm);
      Slice.ReverseIndex(ancestors);
      ghost var found := Reverse(ancestors);
      for i := 0 to |ancestors|
        invariant Indexes(order, found[..i])
      {
        assert found[i] == ancestors[|ancestors| - 1 - i];
        assert found[..i + 1] == found[..i] + [found[i]];
        order := order[ancestors[|ancestors| - 1 - i] := i];
      }
      assert found[..|ancestors|] == found;
      var nextIndex := |ancestors|;
      var queue := [realm];
      ghost var head := |ancestors| - 1;
      assert found[head..] == queue;
      while queue != []
        invariant Slice.Known(realms, found) && head <= |found| && queue == found[head..] && nextIndex == |found|
        invariant Indexes(order, found)
        invariant Slice.Bfs(realms, found, head) == Slice.SliceOf(realms, realm)
        decreases |realms.Keys| - head
      {
        Slice.KnownSize(realms, found);
        var current := queue[0];
        assert current == found[head];
        queue := queue[1..];
        var listed := Enumerate(Slice.Kids(realms, current));
        var children := SortIds(listed);
        IncreasingIsUnique(children, InOrder(Slice.Kids(realms, current)));
        Slice.AppendGrows(realms, found, children);
        ghost var before := found;
        order, nextIndex, queue, found := NumberChildren(children, order, nextIndex, queue, found, head + 1);
        head := head + 1;
        assert Slice.Bfs(realms, before, head - 1) == Slice.Bfs(realms, found, head);
      }
    }

    method NumberChildren(children: seq<RealmId>, order: map<RealmId, nat>, nextIndex: nat, queue: seq<RealmId>,
                          ghost found: seq<RealmId>, ghost head: nat)
      returns (order': map<RealmId, nat>, nextIndex': nat, queue': seq<RealmId>, ghost found': seq<RealmId>)
      requires Slice.Known(realms, found) && forall k :: k in children ==> k in realms
      requires head <= |found| && queue == found[head..] && nextIndex == |found| && Indexes(order, found)
      ensures found' == Slice.Append(found, children)
      ensures head <= |found'| && queue' == found'[head..] && nextIndex' == |found'| && Indexes(order', found')
    {
      order', nextIndex', queue', found' := order, nextIndex, queue, found;
      assert children[0..] == children;
      for i := 0 to |children|
        invariant Slice.Append(found', children[i..]) == Slice.Append(found, children)
        invariant head <= |found'| && queue' == found'[head..] && nextIndex' == |found'| && Indexes(order', found')
      {
        var child := children[i];
        assert children[i..][0] == child && children[i..][1..] == children[i + 1..];
        if child !in order' {
          order' := order'[child := nextIndex'];
          nextIndex' := nextIndex' + 1;
          queue' := queue' + [child];
          found' := found' + [child];
        }
      }
      assert children[|children|..] == [];
    }

    /** The snapshot a dispatch from `realm` runs through, outermost middleware first. */
    method PipelineChain(p: Point, realm: RealmId) returns (chain: seq<Middleware>)
      requires realm in realms && forall q :: q in pipelines ==> Ascending(pipelines[q])
      ensures chain == DequeChain(Slice.SliceOf(realms, realm), ActiveOnly(View(), Middlewares(View(), p)))
    {
      var order := PipelineSlice(realm);
      var entries := if p in pipelines then pipelines[p] else [];
      chain := [];
      for i := 0 to |entries|
        invariant InSlice(order, chain) && Sorted(order, chain)
        invariant forall m :: m in chain <==> m in entries[..i] && Active(View(), m.fiber) && m.realm in order
      {
        var m := entries[i];
        assert entries[..i + 1] == entries[..i] + [m];
        if m.realm in order && Active(View(), m.fiber) {
          forall x | x in chain ensures x.id != m.id {
            var j :| 0 <= j < i && entries[j] == x;
          }
          chain := Insert(order, chain, m);
        }
      }
      assert entries[..|entries|] == entries;
      ActiveOnlyMembers(View(), entries);
      SortIsDequeChain(order, Slice.SliceOf(realms, realm), ActiveOnly(View(), entries), chain);
    }

    /** Takes the snapshot of the chain and runs it around the built-in behaviour. */
    method Waterfall<I(!new), O>(p: Point, realm: RealmId, handlers: Middleware -> Onion.Layer<I, O>, fallback: I -> O,
                                 input: I)
      returns (output: O)
      requires realm in realms && forall q :: q in pipelines ==> Ascending(pipelines[q])
      ensures output == Dispatch.Dispatched(Slice.SliceOf(realms, realm), ActiveOnly(View(), Middlewares(View(), p)),
                                            handlers, fallback, input)
    {
      var chain := PipelineChain(p, realm);
      output := Onion.Run(Dispatch.Layers(chain, handlers), 0, fallback, input);
    }
  }
}
