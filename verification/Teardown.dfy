// Several disposals in a row: the outcome is the union of the closures, whatever the order.

module Teardown {
  import opened Basics
  import opened KernelState
  import opened Disposal

  /** Everything that disposing the fibers of `roots` takes down. */
  ghost function DoomedAll(s: State, roots: set<FiberId>): set<FiberId>
  {
    set x | x in s.registry && exists f :: f in roots && x in Doomed(s, f)
  }

  /** The state after the fibers of `dead` were disposed (and none of them failed). */
  ghost function Gone(s: State, dead: set<FiberId>): State
  {
    Torn(s, dead, ROOT_FIBER, Disposed)
  }

  ghost function DisposeEach(s: State, fs: seq<FiberId>): State
  {
    if fs == [] then s
    else DisposeState(DisposeEach(s, fs[..|fs| - 1]), fs[|fs| - 1], Disposed)
  }

  lemma RootIsIrrelevant(s: State, dead: set<FiberId>, f: FiberId)
    ensures Torn(s, dead, f, Disposed) == Gone(s, dead)
  {
    assert Torn(s, dead, f, Disposed).arena == Gone(s, dead).arena;
  }

  // ---- edges after a teardown ----

  /** Between survivors of a closed teardown the cascade graph is what it was. */
  lemma EdgesAfter(s: State, dead: set<FiberId>, root: FiberId, final: Phase, a: FiberId, b: FiberId)
    requires CleanupsOk(s) && ClosedInto(s, dead, dead) && a !in dead
    ensures Edge(Torn(s, dead, root, final), a, b) <==> Edge(s, a, b) && b !in dead
  {
    var t := Torn(s, dead, root, final);
    var c := Cascade(s, root, final);
    ChildrenMid(c, dead, dead, a);
    forall p: Provided ensures Dependents(t, p.realm, p.key, a) == Dependents(s, p.realm, p.key, a) - dead {
      DependentsMid(c, dead, dead, p, a);
    }
    if a in s.arena {
      assert t.arena[a] == s.arena[a];
      if Edge(s, a, b) && b !in dead && b !in Children(s, a) {
        var p :| p in s.arena[a].provided && b in Dependents(s, p.realm, p.key, a);
        assert b in Dependents(t, p.realm, p.key, a);
      }
      if Edge(t, a, b) && b !in Children(t, a) {
        var p :| p in t.arena[a].provided && b in Dependents(t, p.realm, p.key, a);
        assert b in Dependents(s, p.realm, p.key, a);
      }
    }
  }

  /** The closure of a survivor loses exactly what is gone already. */
  lemma DoomedAfter(s: State, dead: set<FiberId>, f: FiberId)
    requires CleanupsOk(s) && ClosedInto(s, dead, dead) && f !in dead
    ensures Doomed(Gone(s, dead), f) == Doomed(s, f) - dead
  {
    var t := Gone(s, dead);
    if Live(s, f) {
      assert t.arena[f] == s.arena[f] && Live(t, f);
      forall x | x in Doomed(s, f) - dead ensures x in Doomed(t, f) {
        var p :| Joins(s, p, f, x);
        PathSurvives(s, dead, p);
        assert Joins(t, p, f, x);
      }
      forall x | x in Doomed(t, f) ensures x in Doomed(s, f) - dead {
        var p :| Joins(t, p, f, x);
        PathWasThere(s, dead, p);
        assert Joins(s, p, f, x);
      }
    }
  }

  lemma {:induction false} PathSurvives(s: State, dead: set<FiberId>, p: seq<FiberId>)
    requires CleanupsOk(s) && ClosedInto(s, dead, dead) && IsPath(s, p) && p[|p| - 1] !in dead
    ensures IsPath(Gone(s, dead), p)
  {
    forall i | 0 <= i < |p| ensures p[i] !in dead {
      if p[i] in dead {
        assert IsPath(s, p[i..]) by {
          forall j | 0 <= j < |p[i..]| - 1 ensures Edge(s, p[i..][j], p[i..][j + 1]) {
            assert Edge(s, p[i + j], p[i + j + 1]);
          }
        }
        assert p[i..][|p| - 1 - i] == p[|p| - 1];
        ClosedHoldsReachable(s, dead, p[i..]);
      }
    }
    forall i | 0 <= i < |p| - 1 ensures Edge(Gone(s, dead), p[i], p[i + 1]) {
      EdgesAfter(s, dead, ROOT_FIBER, Disposed, p[i], p[i + 1]);
    }
  }

  lemma {:induction false} PathWasThere(s: State, dead: set<FiberId>, p: seq<FiberId>)
    requires CleanupsOk(s) && ClosedInto(s, dead, dead) && IsPath(Gone(s, dead), p) && p[0] !in dead
    ensures IsPath(s, p)
  {
    assert forall i :: 0 <= i < |p| ==> p[i] !in dead by {
      var i := 0;
      while i < |p|
        invariant 0 <= i <= |p| && forall j :: 0 <= j < i ==> p[j] !in dead
      {
        if i > 0 {
          assert Edge(Gone(s, dead), p[i - 1], p[i]);
          EdgesAfter(s, dead, ROOT_FIBER, Disposed, p[i - 1], p[i]);
        }
        i := i + 1;
      }
    }
    forall i | 0 <= i < |p| - 1 ensures Edge(s, p[i], p[i + 1]) {
      assert Edge(Gone(s, dead), p[i], p[i + 1]);
      EdgesAfter(s, dead, ROOT_FIBER, Disposed, p[i], p[i + 1]);
    }
  }

  // ---- composition ----

  lemma {:induction false} KeepQueueTwice(q: seq<Entry>, a: set<FiberId>, b: set<FiberId>)
    ensures KeepQueue(KeepQueue(q, a), b) == KeepQueue(q, a + b)
  {
    if q != [] {
      KeepQueueTwice(q[1..], a, b);
      if q[0].fiber !in a {
        var rest := KeepQueue(q[1..], a);
        assert ([q[0]] + rest)[0] == q[0] && ([q[0]] + rest)[1..] == rest;
      }
    }
  }

  lemma {:induction false} KeepMiddlewaresTwice(s: State, t: State, a: set<FiberId>, b: set<FiberId>,
                                                p: Point, ms: seq<Middleware>)
    requires forall f, id :: f in b && f !in a ==> (Dropped(t, {f}, p, id) <==> Dropped(s, {f}, p, id))
    requires forall f, id :: f in b && f in a ==> !Dropped(t, {f}, p, id)
    ensures KeepMiddlewares(t, b, p, KeepMiddlewares(s, a, p, ms)) == KeepMiddlewares(s, a + b, p, ms)
  {
    if ms != [] {
      KeepMiddlewaresTwice(s, t, a, b, p, ms[1..]);
      var m := ms[0];
      assert Dropped(s, a, p, m.id) || Dropped(t, b, p, m.id) <==> Dropped(s, a + b, p, m.id) by {
        if Dropped(s, a, p, m.id) {
          var d :| d in a && d in s.arena && RemoveMiddleware(p, m.id) in s.arena[d].disposables;
          assert d in a + b;
        }
        if Dropped(t, b, p, m.id) {
          var d :| d in b && d in t.arena && RemoveMiddleware(p, m.id) in t.arena[d].disposables;
          assert d in {d};
          assert Dropped(t, {d}, p, m.id);
          assert Dropped(s, {d}, p, m.id);
          assert d in a + b;
        }
        if Dropped(s, a + b, p, m.id) {
          var d :| d in a + b && d in s.arena && RemoveMiddleware(p, m.id) in s.arena[d].disposables;
          assert d in {d};
          if d !in a {
            assert Dropped(s, {d}, p, m.id);
            assert Dropped(t, {d}, p, m.id);
          }
        }
      }
      if !Dropped(s, a, p, m.id) {
        var rest := KeepMiddlewares(s, a, p, ms[1..]);
        assert ([m] + rest)[0] == m && ([m] + rest)[1..] == rest;
      }
    }
  }

  lemma KeepBindingsTwice(s: State, a: set<FiberId>, b: set<FiberId>, r: RealmId)
    requires r in s.realms
    ensures KeepBindings(Gone(s, a), b, r) == KeepBindings(s, a + b, r)
  {
    var t := Gone(s, a);
    forall k, v ensures Withdrawn(s, a, r, k, v) || Withdrawn(t, b, r, k, v) <==> Withdrawn(s, a + b, r, k, v) {
      if Withdrawn(s, a, r, k, v) {
        var d :| d in a && d in s.arena && RemoveService(r, k, v) in s.arena[d].disposables;
        assert d in a + b;
      }
      if Withdrawn(t, b, r, k, v) {
        var d :| d in b && d in t.arena && RemoveService(r, k, v) in t.arena[d].disposables;
        assert d in a + b && RemoveService(r, k, v) in s.arena[d].disposables;
      }
      if Withdrawn(s, a + b, r, k, v) {
        var d :| d in a + b && d in s.arena && RemoveService(r, k, v) in s.arena[d].disposables;
        if d !in a { assert d in b && t.arena[d] == s.arena[d]; }
      }
    }
    assert t.realms[r].services == KeepBindings(s, a, r);
  }

  lemma RealmsTwice(s: State, a: set<FiberId>, b: set<FiberId>)
    ensures KeepRealms(Gone(s, a), b) == KeepRealms(s, a + b)
  {
    forall r | r in s.realms ensures KeepRealms(Gone(s, a), b)[r] == KeepRealms(s, a + b)[r] {
      KeepBindingsTwice(s, a, b, r);
    }
  }

  /** What is left of a fiber's cleanups after tearing down `a`: all of them, or none if it fell. */
  lemma DroppedAfter(s: State, a: set<FiberId>, p: Point, f: FiberId, id: nat)
    ensures Dropped(Gone(s, a), {f}, p, id) <==> f !in a && Dropped(s, {f}, p, id)
  {
    if f in s.arena && f !in a { assert Gone(s, a).arena[f] == s.arena[f]; }
  }

  lemma PipelineTwice(s: State, t: State, a: set<FiberId>, b: set<FiberId>, p: Point, ms: seq<Middleware>)
    requires t == Gone(s, a)
    ensures KeepMiddlewares(t, b, p, KeepMiddlewares(s, a, p, ms)) == KeepMiddlewares(s, a + b, p, ms)
  {
    forall f, id ensures Dropped(t, {f}, p, id) <==> f !in a && Dropped(s, {f}, p, id) {
      DroppedAfter(s, a, p, f, id);
    }
    KeepMiddlewaresTwice(s, t, a, b, p, ms);
  }

  lemma PipelinesTwice(s: State, a: set<FiberId>, b: set<FiberId>)
    ensures KeepPipelines(Gone(s, a), b) == KeepPipelines(s, a + b)
  {
    forall p | p in s.pipelines ensures KeepPipelines(Gone(s, a), b)[p] == KeepPipelines(s, a + b)[p] {
      PipelineTwice(s, Gone(s, a), a, b, p, s.pipelines[p]);
    }
  }

  /** Tearing down `a` and then `b` is tearing down both. */
  lemma GoneTwice(s: State, a: set<FiberId>, b: set<FiberId>)
    ensures Gone(Gone(s, a), b) == Gone(s, a + b)
  {
    RealmsTwice(s, a, b);
    PipelinesTwice(s, a, b);
    KeepQueueTwice(s.pending, a, b);
    assert Gone(Gone(s, a), b).arena == Gone(s, a + b).arena;
    assert Gone(Gone(s, a), b).registry == Gone(s, a + b).registry;
  }

  lemma GoneNone(s: State)
    ensures Gone(s, {}) == s
  {
    MidBegins(Cascade(s, ROOT_FIBER, Disposed));
  }

  lemma DoomedAllIsClosed(s: State, roots: set<FiberId>)
    ensures ClosedInto(s, DoomedAll(s, roots), DoomedAll(s, roots))
  {
    forall a, b | a in DoomedAll(s, roots) && Edge(s, a, b) ensures b in DoomedAll(s, roots) {
      var f :| f in roots && a in Doomed(s, f);
      DoomedIsClosed(s, f);
      assert b in Doomed(s, f);
    }
  }

  /** One more disposal on top of a torn state. */
  lemma DisposeAfter(s: State, roots: set<FiberId>, f: FiberId)
    requires CleanupsOk(s) && Quiescent(s) && IdsOk(s)
    ensures DisposeState(Gone(s, DoomedAll(s, roots)), f, Disposed) == Gone(s, DoomedAll(s, roots + {f}))
  {
    var dead := DoomedAll(s, roots);
    var t := Gone(s, dead);
    DoomedAllIsClosed(s, roots);
    assert DoomedAll(s, roots + {f}) == dead + Doomed(s, f) by {
      forall x | x in Doomed(s, f) ensures x in DoomedAll(s, roots + {f}) {
        assert f in roots + {f};
      }
      forall x | x in dead ensures x in DoomedAll(s, roots + {f}) {
        var g :| g in roots && x in Doomed(s, g);
        assert g in roots + {f};
      }
    }
    if f in dead {
      var g :| g in roots && f in Doomed(s, g);
      assert !Live(t, f);
      if Live(s, f) {
        DoomedIsLeast(s, f, dead);
      }
      assert dead + Doomed(s, f) == dead;
    } else {
      DoomedAfter(s, dead, f);
      if Live(s, f) {
        assert t.arena[f] == s.arena[f];
        RootIsIrrelevant(t, Doomed(t, f), f);
        GoneTwice(s, dead, Doomed(t, f));
        assert dead + Doomed(t, f) == dead + Doomed(s, f);
      } else {
        assert f in t.arena ==> t.arena[f] == s.arena[f];
        assert dead + Doomed(s, f) == dead;
      }
    }
  }

  /**
   * Disposing fibers one after another takes down the union of their closures, computed in the first
   * state: neither the order nor repetitions matter.
   */
  lemma {:induction false} DisposeEachIsUnion(s: State, fs: seq<FiberId>)
    requires CleanupsOk(s) && Quiescent(s) && IdsOk(s)
    ensures DisposeEach(s, fs) == Gone(s, DoomedAll(s, Elements(fs)))
  {
    if fs == [] {
      NothingDoomed(s, Elements(fs));
      GoneNone(s);
    } else {
      DisposeEachIsUnion(s, fs[..|fs| - 1]);
      DisposeAfter(s, Elements(fs[..|fs| - 1]), fs[|fs| - 1]);
      SetGrows(fs);
    }
  }

  lemma NothingDoomed(s: State, roots: set<FiberId>)
    requires roots == {}
    ensures DoomedAll(s, roots) == {}
  {
  }

  lemma SetGrows(fs: seq<FiberId>)
    requires fs != []
    ensures Elements(fs) == Elements(fs[..|fs| - 1]) + {fs[|fs| - 1]}
  {
    assert fs == fs[..|fs| - 1] + [fs[|fs| - 1]];
  }

  lemma OrderOfDisposalsIsIrrelevant(s: State, fs: seq<FiberId>, gs: seq<FiberId>)
    requires CleanupsOk(s) && Quiescent(s) && IdsOk(s)
    requires forall f :: f in fs <==> f in gs
    ensures DisposeEach(s, fs) == DisposeEach(s, gs)
  {
    DisposeEachIsUnion(s, fs);
    DisposeEachIsUnion(s, gs);
    assert Elements(fs) == Elements(gs);
  }

  // ---- the whole kernel ----

  /** Every registered fiber hangs below the root. */
  lemma {:induction false} RootReaches(s: State, f: FiberId)
    requires TreeOk(s) && Quiescent(s) && IdsOk(s) && f in s.registry
    ensures ROOT_FIBER in s.registry && Reaches(s, ROOT_FIBER, f)
    decreases f
  {
    if f == ROOT_FIBER {
      ReachesSelf(s, f);
    } else {
      var p := s.arena[f].parent;
      RootReaches(s, p);
      assert f in Children(s, p);
      assert Edge(s, p, f);
      ReachesThen(s, ROOT_FIBER, p, f);
    }
  }

  lemma RootDoomsAll(s: State)
    requires Core(s)
    ensures DisposeState(s, ROOT_FIBER, Disposed) == if ROOT_FIBER in s.registry then Gone(s, s.registry) else s
    ensures ROOT_FIBER !in s.registry ==> s.registry == {}
  {
    forall f | f in s.registry ensures ROOT_FIBER in s.registry && f in Doomed(s, ROOT_FIBER) {
      RootReaches(s, f);
    }
    if ROOT_FIBER in s.registry {
      assert Doomed(s, ROOT_FIBER) == s.registry;
    }
  }

  lemma QueuedIsRegistered(s: State)
    requires QueueOk(s) && s.pending != []
    ensures s.registry != {}
  {
    assert s.pending[0].fiber in s.registry;
  }

  lemma EmptyRegistryHoldsNothing(s: State)
    requires Core(s) && s.registry == {}
    ensures s.pending == [] && forall r :: r in s.realms ==> s.realms[r].services == map[]
  {
    if s.pending != [] { QueuedIsRegistered(s); }
    assert forall r, k :: r in s.realms && k in s.realms[r].services ==> Owned(s, r, k, s.realms[r].services[k]);
    assert forall r, k, v :: !Owned(s, r, k, v);
  }

  /** No leaks: disposing the root leaves no fiber registered, nothing queued and no service bound. */
  lemma RootTakesEverything(s: State)
    requires Core(s)
    ensures var t := DisposeState(s, ROOT_FIBER, Disposed);
            t.registry == {} && t.pending == [] && forall r :: r in t.realms ==> t.realms[r].services == map[]
  {
    RootDoomsAll(s);
    if ROOT_FIBER in s.registry {
      assert ClosedInto(s, s.registry, s.registry);
      TornKeepsCore(s, s.registry, ROOT_FIBER, Disposed);
    }
    EmptyRegistryHoldsNothing(DisposeState(s, ROOT_FIBER, Disposed));
  }

  /** The only middlewares that outlive the kernel were registered through an already unregistered fiber. */
  lemma OnlyOrphanMiddlewaresRemain(s: State, p: Point, m: Middleware)
    requires Core(s) && p in s.pipelines
    ensures m in DisposeState(s, ROOT_FIBER, Disposed).pipelines[p] <==>
              m in s.pipelines[p] && m.fiber !in s.registry
  {
    RootDoomsAll(s);
    if m in s.pipelines[p] { assert MiddlewareOk(s, p, m); }
    KeepMiddlewaresIsFilter(s, s.registry, p, s.pipelines[p]);
    if m in s.pipelines[p] && m.fiber in s.registry {
      assert Dropped(s, s.registry, p, m.id);
    }
  }
}
