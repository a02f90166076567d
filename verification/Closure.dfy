// Who falls with whom, said in terms of the records and the realm chains alone.

module Closure {
  import opened Basics
  import opened Realms
  import opened KernelState
  import opened Disposal
  import opened Teardown

  predicate IsRunning(rec: Fiber)
  {
    rec.phase.Starting? || rec.phase.Ready?
  }

  /**
   * `x` runs on what `y` provided: it injected a key whose first binder on its realm chain is a realm where `y`
   * provided that key.
   */
  ghost predicate UsesServiceOf(s: State, y: FiberId, x: FiberId, k: Key, w: RealmId)
  {
    && y in s.arena && x in s.arena && k in s.arena[x].injected && IsRunning(s.arena[x])
    && FirstBinder(s.realms, Chain(s.realms, s.arena[x].realm), w, k)
    && Provided(k, w) in s.arena[y].provided
  }

  /** `x` is registered below `y`, or runs on a service of `y`. */
  ghost predicate HangsOn(s: State, y: FiberId, x: FiberId)
  {
    && x in s.registry && x in s.arena && y in s.arena && x != y
    && (s.arena[x].parent == y || exists k, w :: UsesServiceOf(s, y, x, k, w))
  }

  lemma UsersAreDependents(s: State, y: FiberId, x: FiberId, k: Key, w: RealmId)
    requires IdsOk(s) && Quiescent(s) && x in s.registry && x != y && y in s.arena
             && Provided(k, w) in s.arena[y].provided
    ensures x in Dependents(s, w, k, y) <==> UsesServiceOf(s, y, x, k, w)
  {
    if x in s.arena { ResolveIsFirstOnChain(s.realms, s.arena[x].realm, k); }
  }

  /** The edges of the cascade, for every state between two operations. */
  lemma EdgeIffHangsOn(s: State, y: FiberId, x: FiberId)
    requires IdsOk(s) && Quiescent(s)
    ensures Edge(s, y, x) <==> HangsOn(s, y, x)
  {
    if y in s.arena && x in s.registry && x != y {
      forall k, w | Provided(k, w) in s.arena[y].provided
        ensures x in Dependents(s, w, k, y) <==> UsesServiceOf(s, y, x, k, w)
      {
        UsersAreDependents(s, y, x, k, w);
      }
      if k, w :| UsesServiceOf(s, y, x, k, w) {
        assert Provided(k, w) in s.arena[y].provided;
        assert x in Dependents(s, Provided(k, w).realm, Provided(k, w).key, y);
      }
      if p :| p in s.arena[y].provided && x in Dependents(s, p.realm, p.key, y) {
        assert p == Provided(p.key, p.realm);
        assert UsesServiceOf(s, y, x, p.key, p.realm);
      }
    }
  }

  /** The closure is reached one edge at a time from within. */
  lemma LastStep(s: State, f: FiberId, x: FiberId) returns (y: FiberId)
    requires x in Doomed(s, f) && x != f
    ensures y in Doomed(s, f) && Edge(s, y, x)
  {
    var p :| Joins(s, p, f, x);
    var last := |p| - 1;
    y := p[last - 1];
    assert Edge(s, p[last - 1], p[last - 1 + 1]);
    assert Joins(s, p[..last], f, y) by {
      forall i | 0 <= i < |p[..last]| - 1 ensures Edge(s, p[..last][i], p[..last][i + 1]) {
        assert Edge(s, p[i], p[i + 1]);
      }
    }
    if last > 1 { assert Edge(s, p[last - 2], p[last - 2 + 1]); }
  }

  /**
   * Exactly who falls with a live fiber: itself, and whoever hangs on a fiber that falls, as a registered child
   * or as a running user of a service resolved through its own realm chain.
   */
  lemma FallsIff(s: State, f: FiberId, x: FiberId)
    requires IdsOk(s) && Quiescent(s) && Live(s, f)
    ensures x in Doomed(s, f) <==> x == f || exists y :: y in Doomed(s, f) && HangsOn(s, y, x)
  {
    DoomedIsClosed(s, f);
    if x in Doomed(s, f) && x != f {
      var y := LastStep(s, f, x);
      EdgeIffHangsOn(s, y, x);
    }
    if y :| y in Doomed(s, f) && HangsOn(s, y, x) {
      EdgeIffHangsOn(s, y, x);
    }
  }

  /** And nobody else: the closure lies in every set that holds the fiber and whoever hangs on its members. */
  lemma FallsOnlyIf(s: State, f: FiberId, all: set<FiberId>)
    requires IdsOk(s) && Quiescent(s) && Live(s, f) && f in all
    requires forall y, x :: y in all && HangsOn(s, y, x) ==> x in all
    ensures Doomed(s, f) <= all
  {
    forall a, b | a in all && Edge(s, a, b) ensures b in all {
      EdgeIffHangsOn(s, a, b);
    }
    DoomedIsLeast(s, f, all);
  }

  /** Realms isolate: who falls with `f` without being below a falling fiber read a service a falling one provided. */
  lemma OnlyReadersFall(s: State, f: FiberId, x: FiberId) returns (y: FiberId)
    requires IdsOk(s) && Quiescent(s) && Live(s, f) && x in Doomed(s, f) && x != f
    ensures y in Doomed(s, f) && y in s.arena && x in s.arena
    ensures s.arena[x].parent == y || exists k, w :: UsesServiceOf(s, y, x, k, w)
  {
    y := LastStep(s, f, x);
    EdgeIffHangsOn(s, y, x);
  }

  // ---- what a disposal leaves of each fiber and each registration ----

  /** Who falls is finished, emptied, unregistered and unqueued, in the phase asked for; nobody else changes. */
  lemma FallenAreFinished(s: State, f: FiberId, final: Phase, x: FiberId)
    requires QueueOk(s) && Live(s, f) && x in s.arena
    ensures var t := DisposeState(s, f, final);
            && x in t.arena
            && (x in Doomed(s, f) ==>
                  && x !in t.registry && t.arena[x].disposalStarted && t.arena[x].disposables == []
                  && t.arena[x].phase == (if x == f then final else Disposed)
                  && (forall e :: e in t.pending ==> e.fiber != x))
            && (x !in Doomed(s, f) ==>
                  && t.arena[x] == s.arena[x] && (x in t.registry <==> x in s.registry)
                  && (forall e: Entry :: e.fiber == x ==> (e in t.pending <==> e in s.pending)))
  {
    KeepQueueIsFilter(s.pending, Doomed(s, f));
  }

  /** A middleware outlives a disposal exactly if its fiber does, or was gone before; the order stays. */
  lemma MiddlewareStaysIff(s: State, f: FiberId, final: Phase, p: Point, m: Middleware)
    requires MiddlewaresOk(s) && Live(s, f) && p in s.pipelines
    ensures var t := DisposeState(s, f, final);
            && p in t.pipelines && Ascending(t.pipelines[p])
            && (m in t.pipelines[p] <==> m in s.pipelines[p] && m.fiber !in Doomed(s, f))
  {
    KeepMiddlewaresIsFilter(s, Doomed(s, f), p, s.pipelines[p]);
    KeepMiddlewaresAscend(s, Doomed(s, f), p, s.pipelines[p]);
    if m in s.pipelines[p] {
      assert MiddlewareOk(s, p, m);
      if m.fiber in Doomed(s, f) {
        assert Dropped(s, Doomed(s, f), p, m.id);
      }
    }
  }
}
