// What a disposal does to the kernel, stated in closed form over the state it began in.

module Disposal {
  import opened Basics
  import opened Realms
  import opened KernelState

  // ---- running one cleanup ----

  function Without(ms: seq<Middleware>, id: nat): (r: seq<Middleware>)
  {
    if ms == [] then []
    else if ms[0].id == id then Without(ms[1..], id)
    else [ms[0]] + Without(ms[1..], id)
  }

  /** Removes a binding only when the table still holds this exact value. */
  function RemoveServiceIf(rs: RealmTree, r: RealmId, k: Key, v: Value): RealmTree
  {
    if r in rs && k in rs[r].services && rs[r].services[k] == v
    then rs[r := rs[r].(services := rs[r].services - {k})]
    else rs
  }

  function RunEffect(s: State, e: Effect): State
  {
    match e
    case RemoveService(r, k, v) => s.(realms := RemoveServiceIf(s.realms, r, k, v))
    case RemoveMiddleware(p, id) =>
      if p in s.pipelines then s.(pipelines := s.pipelines[p := Without(s.pipelines[p], id)]) else s
    case Cleanup(_) => s
  }

  function RunAll(s: State, es: seq<Effect>): State
    decreases es
  {
    if es == [] then s else RunAll(RunEffect(s, es[0]), es[1..])
  }

  lemma {:induction false} RunAllThen(s: State, es: seq<Effect>, e: Effect)
    ensures RunAll(s, es + [e]) == RunEffect(RunAll(s, es), e)
    decreases es
  {
    if es == [] {
      assert es + [e] == [e];
      assert [e][1..] == [];
    } else {
      assert (es + [e])[1..] == es[1..] + [e];
      RunAllThen(RunEffect(s, es[0]), es[1..], e);
    }
  }

  // ---- a cascade in progress ----

  /**
   * A disposal cascade over the state `origin` it began in: `started` fibers have been marked, and the
   * `done` ones among them have also drained their effects and left the registry. `root` ends in the
   * phase `final`, every other fiber in Disposed.
   */
  datatype Cascade = Cascade(origin: State, root: FiberId, final: Phase)

  ghost predicate Withdrawn(s: State, done: set<FiberId>, r: RealmId, k: Key, v: Value)
  {
    exists d :: d in done && d in s.arena && RemoveService(r, k, v) in s.arena[d].disposables
  }

  ghost predicate Dropped(s: State, done: set<FiberId>, p: Point, id: nat)
  {
    exists d :: d in done && d in s.arena && RemoveMiddleware(p, id) in s.arena[d].disposables
  }

  ghost function KeepBindings(s: State, done: set<FiberId>, r: RealmId): map<Key, Value>
    requires r in s.realms
  {
    map k | k in s.realms[r].services && !Withdrawn(s, done, r, k, s.realms[r].services[k]) :: s.realms[r].services[k]
  }

  ghost function KeepRealms(s: State, done: set<FiberId>): RealmTree
  {
    map r | r in s.realms :: Realm(s.realms[r].parent, KeepBindings(s, done, r))
  }

  ghost function KeepMiddlewares(s: State, done: set<FiberId>, p: Point, ms: seq<Middleware>): seq<Middleware>
  {
    if ms == [] then []
    else if Dropped(s, done, p, ms[0].id) then KeepMiddlewares(s, done, p, ms[1..])
    else [ms[0]] + KeepMiddlewares(s, done, p, ms[1..])
  }

  ghost function KeepPipelines(s: State, done: set<FiberId>): map<Point, seq<Middleware>>
  {
    map p | p in s.pipelines :: KeepMiddlewares(s, done, p, s.pipelines[p])
  }

  ghost function KeepQueue(q: seq<Entry>, done: set<FiberId>): seq<Entry>
  {
    if q == [] then []
    else if q[0].fiber in done then KeepQueue(q[1..], done)
    else [q[0]] + KeepQueue(q[1..], done)
  }

  function Finished(rec: Fiber, phase: Phase): Fiber
  {
    rec.(disposalStarted := true, phase := phase, disposables := [])
  }

  function FinalPhase(c: Cascade, x: FiberId): Phase
  {
    if x == c.root then c.final else Disposed
  }

  ghost function Record(c: Cascade, started: set<FiberId>, done: set<FiberId>, x: FiberId): Fiber
    requires x in c.origin.arena
  {
    var rec := c.origin.arena[x];
    if x in done then Finished(rec, FinalPhase(c, x))
    else if x in started then rec.(disposalStarted := true)
    else rec
  }

  ghost function Mid(c: Cascade, started: set<FiberId>, done: set<FiberId>): State
  {
    c.origin.(
    arena := map x | x in c.origin.arena :: Record(c, started, done, x),
    registry := c.origin.registry - done,
    realms := KeepRealms(c.origin, done),
    pending := KeepQueue(c.origin.pending, done),
    pipelines := KeepPipelines(c.origin, done))
  }

  /**
   * The state after the cascade: the fibers of `dead` are finished and the effects of their cleanups are in
   * place. The records of all other fibers are as they were.
   */
  ghost function Torn(s: State, dead: set<FiberId>, root: FiberId, final: Phase): State
  {
    Mid(Cascade(s, root, final), dead, dead)
  }

  /** The closed form of a whole disposal; disposing what is already going is a no-op. */
  ghost function DisposeState(s: State, f: FiberId, final: Phase): State
  {
    if Live(s, f) then Torn(s, Doomed(s, f), f, final) else s
  }

  // ---- the cascade begins and advances ----

  lemma {:induction false} KeepQueueNone(q: seq<Entry>)
    ensures KeepQueue(q, {}) == q
  {
    if q != [] { KeepQueueNone(q[1..]); }
  }

  lemma {:induction false} KeepMiddlewaresNone(s: State, p: Point, ms: seq<Middleware>)
    ensures KeepMiddlewares(s, {}, p, ms) == ms
  {
    if ms != [] { KeepMiddlewaresNone(s, p, ms[1..]); }
  }

  lemma MidBegins(c: Cascade)
    ensures Mid(c, {}, {}) == c.origin
  {
    var s := c.origin;
    KeepQueueNone(s.pending);
    forall r | r in s.realms ensures KeepRealms(s, {})[r] == s.realms[r] {
      assert KeepBindings(s, {}, r) == s.realms[r].services;
    }
    assert KeepRealms(s, {}) == s.realms;
    forall p | p in s.pipelines ensures KeepPipelines(s, {})[p] == s.pipelines[p] {
      KeepMiddlewaresNone(s, p, s.pipelines[p]);
    }
    assert KeepPipelines(s, {}) == s.pipelines;
    assert Mid(c, {}, {}).arena == s.arena;
    assert s.registry - {} == s.registry;
  }

  /** Raising the `disposal_started` flag of one more fiber. */
  lemma MidMarks(c: Cascade, started: set<FiberId>, done: set<FiberId>, g: FiberId)
    requires g in c.origin.arena && g !in started && done <= started
    ensures var m := Mid(c, started, done);
            g in m.arena && m.arena[g] == c.origin.arena[g] &&
            Mid(c, started + {g}, done) == m.(arena := m.arena[g := m.arena[g].(disposalStarted := true)])
  {
    var m := Mid(c, started, done);
    assert Mid(c, started + {g}, done).arena == m.arena[g := m.arena[g].(disposalStarted := true)];
  }

  /** Which bindings of realm `r` survive a batch of cleanups. */
  function Remaining(es: seq<Effect>, r: RealmId, services: map<Key, Value>): map<Key, Value>
  {
    map k | k in services && RemoveService(r, k, services[k]) !in es :: services[k]
  }

  lemma RemainingStep(rs: RealmTree, e: Effect, es: seq<Effect>, r: RealmId)
    requires r in rs
    ensures var after := if e.RemoveService? then RemoveServiceIf(rs, e.realm, e.key, e.value) else rs;
            SameShape(rs, after) &&
            Remaining(es, r, after[r].services) == Remaining([e] + es, r, rs[r].services)
  {
    var after := if e.RemoveService? then RemoveServiceIf(rs, e.realm, e.key, e.value) else rs;
    assert forall k :: k in after[r].services <==>
             k in rs[r].services && e != RemoveService(r, k, rs[r].services[k]);
  }

  lemma {:induction false} RunAllRealms(s: State, es: seq<Effect>, r: RealmId)
    ensures var t := RunAll(s, es);
            && t == s.(realms := t.realms, pipelines := t.pipelines)
            && SameShape(s.realms, t.realms)
            && (r in s.realms ==> t.realms[r].services == Remaining(es, r, s.realms[r].services))
    decreases es
  {
    if es != [] {
      var u := RunEffect(s, es[0]);
      RunAllRealms(u, es[1..], r);
      assert es == [es[0]] + es[1..];
      if r in s.realms {
        RemainingStep(s.realms, es[0], es[1..], r);
      }
    }
  }

  /** Which middlewares survive a batch of cleanups. */
  function Surviving(es: seq<Effect>, p: Point, ms: seq<Middleware>): seq<Middleware>
  {
    if ms == [] then []
    else if RemoveMiddleware(p, ms[0].id) in es then Surviving(es, p, ms[1..])
    else [ms[0]] + Surviving(es, p, ms[1..])
  }

  lemma {:induction false} SurvivingStep(es: seq<Effect>, p: Point, ms: seq<Middleware>, e: Effect)
    ensures Surviving(es, p, if e.RemoveMiddleware? && e.point == p then Without(ms, e.id) else ms)
         == Surviving([e] + es, p, ms)
  {
    if ms != [] {
      SurvivingStep(es, p, ms[1..], e);
    }
  }

  lemma {:induction false} SurvivingNothing(p: Point, ms: seq<Middleware>)
    ensures Surviving([], p, ms) == ms
  {
    if ms != [] { SurvivingNothing(p, ms[1..]); }
  }

  lemma {:induction false} RunAllPipelines(s: State, es: seq<Effect>, p: Point)
    ensures RunAll(s, es).pipelines.Keys == s.pipelines.Keys
    ensures p in s.pipelines ==> RunAll(s, es).pipelines[p] == Surviving(es, p, s.pipelines[p])
    decreases es
  {
    if es == [] {
      if p in s.pipelines { SurvivingNothing(p, s.pipelines[p]); }
    } else {
      var u := RunEffect(s, es[0]);
      RunAllPipelines(u, es[1..], p);
      assert es == [es[0]] + es[1..];
      if p in s.pipelines { SurvivingStep(es[1..], p, s.pipelines[p], es[0]); }
    }
  }

  lemma {:induction false} KeepThenSurvive(s: State, done: set<FiberId>, g: FiberId, es: seq<Effect>,
                                           p: Point, ms: seq<Middleware>)
    requires g in s.arena && forall e :: e in es <==> e in s.arena[g].disposables
    ensures Surviving(es, p, KeepMiddlewares(s, done, p, ms)) == KeepMiddlewares(s, done + {g}, p, ms)
  {
    if ms != [] {
      KeepThenSurvive(s, done, g, es, p, ms[1..]);
      var m := ms[0];
      assert Dropped(s, done + {g}, p, m.id) <==> Dropped(s, done, p, m.id) || RemoveMiddleware(p, m.id) in es by {
        if RemoveMiddleware(p, m.id) in es {
          assert g in done + {g};
        }
      }
      if !Dropped(s, done, p, m.id) {
        var rest := KeepMiddlewares(s, done, p, ms[1..]);
        assert ([m] + rest)[0] == m && ([m] + rest)[1..] == rest;
      }
    }
  }

  function DropEntries(q: seq<Entry>, f: FiberId): seq<Entry>
  {
    if q == [] then []
    else if q[0].fiber == f then DropEntries(q[1..], f)
    else [q[0]] + DropEntries(q[1..], f)
  }

  lemma {:induction false} KeepThenDrop(q: seq<Entry>, done: set<FiberId>, g: FiberId)
    ensures DropEntries(KeepQueue(q, done), g) == KeepQueue(q, done + {g})
  {
    if q != [] {
      KeepThenDrop(q[1..], done, g);
      if q[0].fiber !in done {
        var rest := KeepQueue(q[1..], done);
        assert ([q[0]] + rest)[0] == q[0] && ([q[0]] + rest)[1..] == rest;
      }
    }
  }

  /** What the last steps of `dispose_fiber` do: run the drained effects newest first, then leave. */
  function Leave(s: State, g: FiberId, effects: seq<Effect>, phase: Phase): State
    requires g in s.arena
  {
    var t := RunAll(s, effects);
    if g !in t.arena then t else
    t.(pending := DropEntries(t.pending, g),
       arena := t.arena[g := Finished(t.arena[g], phase)],
       registry := t.registry - {g})
  }

  lemma DrainedRealms(c: Cascade, started: set<FiberId>, done: set<FiberId>, g: FiberId, es: seq<Effect>)
    requires g in c.origin.arena && forall e :: e in es <==> e in c.origin.arena[g].disposables
    ensures RunAll(Mid(c, started, done), es).realms == KeepRealms(c.origin, done + {g})
  {
    var s := c.origin;
    var m := Mid(c, started, done);
    var t := RunAll(m, es);
    RunAllRealms(m, es, 0);
    forall r | r in s.realms ensures t.realms[r] == KeepRealms(s, done + {g})[r] {
      RunAllRealms(m, es, r);
      forall k, v ensures Withdrawn(s, done + {g}, r, k, v) <==>
                          Withdrawn(s, done, r, k, v) || RemoveService(r, k, v) in es
      {
        if RemoveService(r, k, v) in es {
          assert g in done + {g};
        }
      }
      assert t.realms[r].services == KeepBindings(s, done + {g}, r);
    }
  }

  lemma DrainedPipelines(c: Cascade, started: set<FiberId>, done: set<FiberId>, g: FiberId, es: seq<Effect>)
    requires g in c.origin.arena && forall e :: e in es <==> e in c.origin.arena[g].disposables
    ensures RunAll(Mid(c, started, done), es).pipelines == KeepPipelines(c.origin, done + {g})
  {
    var s := c.origin;
    var m := Mid(c, started, done);
    var t := RunAll(m, es);
    RunAllPipelines(m, es, 0);
    forall p | p in s.pipelines ensures t.pipelines[p] == KeepPipelines(s, done + {g})[p] {
      RunAllPipelines(m, es, p);
      KeepThenSurvive(s, done, g, es, p, s.pipelines[p]);
    }
  }

  /** Draining a started fiber's effects and leaving moves it from `started` to `done`. */
  lemma MidFinishes(c: Cascade, started: set<FiberId>, done: set<FiberId>, g: FiberId)
    requires g in c.origin.arena && g in started && g !in done && done <= started
    ensures g in Mid(c, started, done).arena
    ensures Leave(Mid(c, started, done), g, Reverse(c.origin.arena[g].disposables), FinalPhase(c, g))
         == Mid(c, started, done + {g})
  {
    var s := c.origin;
    var m := Mid(c, started, done);
    var es := Reverse(s.arena[g].disposables);
    var n := Mid(c, started, done + {g});
    ReverseMembers(s.arena[g].disposables);
    RunAllRealms(m, es, 0);
    DrainedRealms(c, started, done, g, es);
    DrainedPipelines(c, started, done, g, es);
    KeepThenDrop(s.pending, done, g);
    assert m.arena[g := Finished(m.arena[g], FinalPhase(c, g))] == n.arena;
    assert m.registry - {g} == n.registry;
  }

  // ---- stability of resolution ----

  /**
   * The invariant that makes the cascade exact: while it runs, every fiber that no disposal has reached
   * resolves each key it injected to the realm it resolved before the cascade began.
   */
  lemma ResolutionStable(s: State, started: set<FiberId>, done: set<FiberId>, x: FiberId, k: Key)
    requires CleanupsOk(s) && ClosedInto(s, done, started)
    requires Live(s, x) && x !in started && done <= started
    requires s.arena[x].phase.Starting? || s.arena[x].phase.Ready?
    requires k in s.arena[x].injected
    ensures Resolve(KeepRealms(s, done), s.arena[x].realm, k) == Resolve(s.realms, s.arena[x].realm, k)
  {
    var w := Resolve(s.realms, s.arena[x].realm, k);
    var rs' := KeepRealms(s, done);
    if w.Some? {
      var v := s.realms[w.value].services[k];
      if Withdrawn(s, done, w.value, k, v) {
        var d :| d in done && d in s.arena && RemoveService(w.value, k, v) in s.arena[d].disposables;
        assert Provided(k, w.value) in s.arena[d].provided;
        assert x in Dependents(s, w.value, k, d);
        assert Edge(s, d, x);
        assert false;
      }
    }
    FewerBindings(s.realms, rs', s.arena[x].realm, k);
  }

  /** Mid-cascade, `dependents_of` finds exactly the original dependents not yet started. */
  lemma DependentsMid(c: Cascade, started: set<FiberId>, done: set<FiberId>, p: Provided, g: FiberId)
    requires CleanupsOk(c.origin) && ClosedInto(c.origin, done, started) && done <= started
    ensures Dependents(Mid(c, started, done), p.realm, p.key, g)
         == Dependents(c.origin, p.realm, p.key, g) - started
  {
    var s := c.origin;
    var m := Mid(c, started, done);
    forall x ensures x in Dependents(m, p.realm, p.key, g) <==> x in Dependents(s, p.realm, p.key, g) - started {
      if x in m.arena && x !in started && Live(s, x) && (s.arena[x].phase.Starting? || s.arena[x].phase.Ready?)
         && p.key in s.arena[x].injected
      {
        ResolutionStable(s, started, done, x, p.key);
      }
    }
  }

  lemma ChildrenMid(c: Cascade, started: set<FiberId>, done: set<FiberId>, g: FiberId)
    requires done <= started
    ensures Children(Mid(c, started, done), g) == Children(c.origin, g) - started
  {
  }

  // ---- what the torn state keeps ----

  lemma {:induction false} KeepMiddlewaresIsFilter(s: State, done: set<FiberId>, p: Point, ms: seq<Middleware>)
    ensures forall m :: m in KeepMiddlewares(s, done, p, ms) <==> m in ms && !Dropped(s, done, p, m.id)
  {
    if ms != [] {
      KeepMiddlewaresIsFilter(s, done, p, ms[1..]);
      assert ms == [ms[0]] + ms[1..];
    }
  }

  lemma {:induction false} KeepMiddlewaresAscend(s: State, done: set<FiberId>, p: Point, ms: seq<Middleware>)
    requires Ascending(ms)
    ensures Ascending(KeepMiddlewares(s, done, p, ms))
  {
    if ms != [] {
      var tail := ms[1..];
      assert Ascending(tail);
      KeepMiddlewaresAscend(s, done, p, tail);
      KeepMiddlewaresIsFilter(s, done, p, tail);
      var rest := KeepMiddlewares(s, done, p, tail);
      forall j | 0 <= j < |rest| ensures ms[0].id < rest[j].id {
        assert rest[j] in tail;
      }
    }
  }

  lemma {:induction false} KeepQueueIsFilter(q: seq<Entry>, done: set<FiberId>)
    ensures forall e :: e in KeepQueue(q, done) <==> e in q && e.fiber !in done
    ensures UniqueFibers(q) ==> UniqueFibers(KeepQueue(q, done))
  {
    if q != [] {
      KeepQueueIsFilter(q[1..], done);
      assert q == [q[0]] + q[1..];
      if UniqueFibers(q) {
        assert UniqueFibers(q[1..]);
        forall e | e in KeepQueue(q[1..], done) ensures e.fiber != q[0].fiber {
          var j :| 0 <= j < |q[1..]| && q[1..][j] == e;
          assert q[j + 1] == e;
        }
      }
    }
  }

  ghost predicate UniqueFibers(q: seq<Entry>)
  {
    forall i, j :: 0 <= i < j < |q| ==> q[i].fiber != q[j].fiber
  }

  /** Teardown of any closed set keeps the invariant; nothing that survives loses a hard dependency. */
  lemma TornKeepsCore(s: State, dead: set<FiberId>, root: FiberId, final: Phase)
    requires Core(s) && dead <= s.registry && ClosedInto(s, dead, dead) && final.Terminal()
    ensures Core(Torn(s, dead, root, final))
  {
    TornRecords(s, dead, root, final);
    TornTreeOk(s, dead, root, final);
    TornBindingsOwned(s, dead, root, final);
    TornQueueOk(s, dead, root, final);
    TornHardSound(s, dead, root, final);
    TornMiddlewaresOk(s, dead, root, final);
  }

  lemma TornRecords(s: State, dead: set<FiberId>, root: FiberId, final: Phase)
    requires RootOk(s) && IdsOk(s) && Quiescent(s) && CleanupsOk(s) && final.Terminal() && dead <= s.registry
    ensures var t := Torn(s, dead, root, final); RootOk(t) && IdsOk(t) && Quiescent(t) && CleanupsOk(t)
  {
  }

  lemma TornTreeOk(s: State, dead: set<FiberId>, root: FiberId, final: Phase)
    requires TreeOk(s) && IdsOk(s) && Quiescent(s) && ClosedInto(s, dead, dead)
    ensures TreeOk(Torn(s, dead, root, final))
  {
    var t := Torn(s, dead, root, final);
    forall f | f in t.registry && f in t.arena && f != ROOT_FIBER
      ensures t.arena[f].parent < f && t.arena[f].parent in t.registry
    {
      assert t.arena[f] == s.arena[f];
      var p := s.arena[f].parent;
      if p in dead && p in s.arena {
        assert f in Children(s, p);
        assert Edge(s, p, f);
      }
    }
  }

  lemma TornBindingsOwned(s: State, dead: set<FiberId>, root: FiberId, final: Phase)
    requires BindingsOwned(s)
    ensures BindingsOwned(Torn(s, dead, root, final))
  {
    var t := Torn(s, dead, root, final);
    forall r, k | r in t.realms && k in t.realms[r].services ensures Owned(t, r, k, t.realms[r].services[k]) {
      var v := s.realms[r].services[k];
      assert Owned(s, r, k, v);
      var f :| f in s.registry && f in s.arena && RemoveService(r, k, v) in s.arena[f].disposables;
      assert f !in dead;
      assert f in t.registry && RemoveService(r, k, v) in t.arena[f].disposables;
    }
  }

  lemma TornQueueOk(s: State, dead: set<FiberId>, root: FiberId, final: Phase)
    requires QueueOk(s) && final.Terminal()
    ensures QueueOk(Torn(s, dead, root, final))
  {
    var t := Torn(s, dead, root, final);
    KeepQueueIsFilter(s.pending, dead);
    forall i | 0 <= i < |t.pending|
      ensures t.pending[i].fiber in t.registry && t.pending[i].fiber in t.arena
              && t.arena[t.pending[i].fiber].phase.Pending?
    {
      assert t.pending[i] in s.pending;
    }
    forall f | f in t.registry && f in t.arena && t.arena[f].phase.Pending?
      ensures exists i :: 0 <= i < |t.pending| && t.pending[i].fiber == f
    {
      var i :| 0 <= i < |s.pending| && s.pending[i].fiber == f;
      assert s.pending[i] in t.pending;
    }
    assert UniqueFibers(s.pending);
    assert UniqueFibers(t.pending);
  }

  lemma TornHardSound(s: State, dead: set<FiberId>, root: FiberId, final: Phase)
    requires HardSound(s) && CleanupsOk(s) && Quiescent(s) && ClosedInto(s, dead, dead)
    ensures HardSound(Torn(s, dead, root, final))
  {
    var t := Torn(s, dead, root, final);
    forall f, k | f in t.registry && f in t.arena
                  && (t.arena[f].phase.Starting? || t.arena[f].phase.Ready?) && k in t.arena[f].injected
      ensures Resolve(t.realms, t.arena[f].realm, k).Some?
    {
      ResolutionStable(s, dead, dead, f, k);
    }
  }

  /** A middleware left standing belongs to a fiber left standing, or to one that was gone before. */
  lemma TornMiddlewareOk(s: State, dead: set<FiberId>, root: FiberId, final: Phase, p: Point, m: Middleware)
    requires MiddlewareOk(s, p, m) && !Dropped(s, dead, p, m.id)
    ensures MiddlewareOk(Torn(s, dead, root, final), p, m)
  {
    var t := Torn(s, dead, root, final);
    assert m.fiber in s.registry && m.fiber in dead ==> Dropped(s, dead, p, m.id);
    assert forall f :: f in t.arena ==>
             t.arena[f].disposables == s.arena[f].disposables || t.arena[f].disposables == [];
  }

  lemma TornMiddlewaresOk(s: State, dead: set<FiberId>, root: FiberId, final: Phase)
    requires MiddlewaresOk(s)
    ensures MiddlewaresOk(Torn(s, dead, root, final))
  {
    var t := Torn(s, dead, root, final);
    forall p | p in t.pipelines ensures Ascending(t.pipelines[p]) {
      KeepMiddlewaresAscend(s, dead, p, s.pipelines[p]);
    }
    forall p, m | p in t.pipelines && m in t.pipelines[p] ensures MiddlewareOk(t, p, m) {
      KeepMiddlewaresIsFilter(s, dead, p, s.pipelines[p]);
      TornMiddlewareOk(s, dead, root, final, p, m);
    }
    assert forall f :: f in t.arena ==>
             t.arena[f].disposables == s.arena[f].disposables || t.arena[f].disposables == [];
  }

  /** Whatever was blocked in the queue stays blocked: a teardown only removes bindings. */
  lemma TornKeepsBlocked(s: State, dead: set<FiberId>, root: FiberId, final: Phase)
    requires QueueBlocked(s)
    ensures QueueBlocked(Torn(s, dead, root, final))
  {
    var t := Torn(s, dead, root, final);
    KeepQueueIsFilter(s.pending, dead);
    forall i | 0 <= i < |t.pending| ensures Blocked(t, t.pending[i]) {
      var e := t.pending[i];
      assert e in s.pending;
      var d :| d in e.plugin.inject && Resolve(s.realms, s.arena[e.fiber].realm, d.key).None?;
      FewerBindings(s.realms, t.realms, s.arena[e.fiber].realm, d.key);
    }
  }

  // ---- what a disposal leaves of the survivors ----

  /** A fiber the cascade does not reach keeps its record and its registration. */
  lemma SurvivorKeepsRecord(s: State, f: FiberId, final: Phase, b: FiberId)
    requires b in s.arena && b !in Doomed(s, f)
    ensures var t := DisposeState(s, f, final);
            b in t.arena && t.arena[b] == s.arena[b] && (b in t.registry <==> b in s.registry)
  {
  }

  /** Some fiber that falls with `f` holds the cleanup of this very value. */
  ghost predicate FallsWith(s: State, f: FiberId, r: RealmId, k: Key, v: Value)
  {
    exists d :: d in Doomed(s, f) && d in s.arena && RemoveService(r, k, v) in s.arena[d].disposables
  }

  /**
   * A binding outlives a disposal if and only if no fiber that falls holds a cleanup of its value, whoever else
   * holds one. Where it stays it keeps its value, and no binding appears.
   */
  lemma BindingStaysIff(s: State, f: FiberId, final: Phase, r: RealmId, k: Key)
    requires Live(s, f) && r in s.realms
    ensures var t := DisposeState(s, f, final);
            && r in t.realms
            && (k in t.realms[r].services <==>
                  k in s.realms[r].services && !FallsWith(s, f, r, k, s.realms[r].services[k]))
            && (k in t.realms[r].services ==> t.realms[r].services[k] == s.realms[r].services[k])
  {
    assert KeepRealms(s, Doomed(s, f))[r].services == KeepBindings(s, Doomed(s, f), r);
  }

  /** The cleanup of this value is held by `b` alone. */
  ghost predicate SoleHolder(s: State, b: FiberId, r: RealmId, k: Key, v: Value)
  {
    forall d :: d in s.arena && RemoveService(r, k, v) in s.arena[d].disposables ==> d == b
  }

  /** A surviving provider that provided its value alone keeps its binding. */
  lemma SoleProviderKeepsBinding(s: State, f: FiberId, final: Phase, b: FiberId, r: RealmId, k: Key)
    requires Live(s, f) && b !in Doomed(s, f) && r in s.realms && k in s.realms[r].services
    requires SoleHolder(s, b, r, k, s.realms[r].services[k])
    ensures var t := DisposeState(s, f, final);
            r in t.realms && k in t.realms[r].services && t.realms[r].services[k] == s.realms[r].services[k]
  {
    BindingStaysIff(s, f, final, r, k);
  }

  /**
   * A provider whose value was replaced still takes the users of the replacement down with it, although their
   * binding stays.
   */
  lemma ReplacedProviderDisconnects(s: State, a: FiberId, final: Phase, r: RealmId, k: Key, x: FiberId)
    requires Core(s) && Live(s, a) && r in s.realms && k in s.realms[r].services
    requires Provided(k, r) in s.arena[a].provided && x in Dependents(s, r, k, a)
    requires !FallsWith(s, a, r, k, s.realms[r].services[k])
    ensures var t := DisposeState(s, a, final);
            && x in t.arena && t.arena[x].phase.Disposed? && x !in t.registry
            && r in t.realms && k in t.realms[r].services && t.realms[r].services[k] == s.realms[r].services[k]
  {
    assert Edge(s, a, x);
    DoomedIsClosed(s, a);
    BindingStaysIff(s, a, final, r, k);
  }
}
