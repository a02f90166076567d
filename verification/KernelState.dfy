// The kernel's registries as one value, the dependency graph over fibers, and the invariant.

module KernelState {
  import opened Basics
  import opened Realms

  /** Lifecycle state of a fiber (`State` in the source). */
  datatype Phase = Pending | Starting | Ready | Failed | Disposed
  {
    predicate Terminal() { Failed? || Disposed? }
  }

  /** A cleanup future, as data: what it does when it is run. */
  datatype Effect =
    | RemoveService(realm: RealmId, key: Key, value: Value)
    | RemoveMiddleware(point: Point, id: nat)
    | Cleanup(token: nat)

  datatype Provided = Provided(key: Key, realm: RealmId)

  datatype Fiber = Fiber(
    parent: FiberId,
    realm: RealmId,
    phase: Phase,
    disposalStarted: bool,
    disposables: seq<Effect>,
    injected: seq<Key>,
    declared: seq<Key>,
    provided: seq<Provided>)

  datatype Dependency = Hard(key: Key) | Soft(key: Key)

  datatype Plugin = Plugin(inject: seq<Dependency>, declares: seq<Key>)

  datatype Entry = Entry(fiber: FiberId, plugin: Plugin)

  datatype Middleware = Middleware(realm: RealmId, fiber: FiberId, id: nat, prepend: bool)

  /** A context: the fiber and the realm a caller acts through. */
  datatype Ctx = Ctx(fiber: FiberId, realm: RealmId)

  /**
   * The kernel's registries. `arena` holds the record of every fiber a handle may still name, `registry`
   * the ids that are in the kernel's fiber map.
   */
  datatype State = State(
    nextFiber: FiberId,
    nextRealm: RealmId,
    nextHandler: nat,
    arena: map<FiberId, Fiber>,
    registry: set<FiberId>,
    realms: RealmTree,
    pending: seq<Entry>,
    pipelines: map<Point, seq<Middleware>>)

  function Init(): State
  {
    State(1, 1, 0,
          map[ROOT_FIBER := Fiber(ROOT_FIBER, ROOT_REALM, Ready, false, [], [], [], [])],
          {ROOT_FIBER},
          map[ROOT_REALM := Realm(None, map[])],
          [],
          map[])
  }

  // ---- queries ----

  /** Registered, and no disposal of it has begun. */
  predicate Live(s: State, f: FiberId)
  {
    f in s.registry && f in s.arena && !s.arena[f].disposalStarted
  }

  predicate Active(s: State, f: FiberId)
  {
    Live(s, f) && s.arena[f].phase != Disposed
  }

  function Children(s: State, parent: FiberId): set<FiberId>
  {
    set x | x in s.registry && x != parent && Live(s, x) && s.arena[x].parent == parent
  }

  /** Fibers that started on the binding of `key` held by `realm`. */
  function Dependents(s: State, realm: RealmId, key: Key, exclude: FiberId): set<FiberId>
  {
    set x | x in s.registry && x != exclude && Live(s, x)
            && (s.arena[x].phase.Starting? || s.arena[x].phase.Ready?)
            && key in s.arena[x].injected
            && Resolve(s.realms, s.arena[x].realm, key) == Some(realm)
  }

  // ---- the cascade graph ----

  /**
   * Disposing `a` disposes `b` directly: `b` is a child of `a`, or runs on the binding now held at a realm and
   * key where `a` once provided, whoever provided the present value.
   */
  ghost predicate Edge(s: State, a: FiberId, b: FiberId)
  {
    && a in s.arena
    && (b in Children(s, a)
        || exists p :: p in s.arena[a].provided && b in Dependents(s, p.realm, p.key, a))
  }

  ghost predicate IsPath(s: State, p: seq<FiberId>)
  {
    |p| > 0 && forall i :: 0 <= i < |p| - 1 ==> Edge(s, p[i], p[i + 1])
  }

  ghost predicate Joins(s: State, p: seq<FiberId>, a: FiberId, b: FiberId)
  {
    IsPath(s, p) && p[0] == a && p[|p| - 1] == b
  }

  /** The reflexive-transitive closure of the cascade graph. */
  ghost predicate Reaches(s: State, a: FiberId, b: FiberId)
  {
    exists p :: Joins(s, p, a, b)
  }

  /** Everything a disposal of `f` must take down. */
  ghost function Doomed(s: State, f: FiberId): set<FiberId>
  {
    set x | x in s.registry && Live(s, f) && Reaches(s, f, x)
  }

  lemma ReachesSelf(s: State, a: FiberId)
    ensures Reaches(s, a, a)
  {
    assert Joins(s, [a], a, a);
  }

  lemma ReachesVia(s: State, a: FiberId, b: FiberId, c: FiberId)
    requires Edge(s, a, b) && Reaches(s, b, c)
    ensures Reaches(s, a, c)
  {
    var p :| Joins(s, p, b, c);
    assert Joins(s, [a] + p, a, c);
  }

  lemma ReachesThen(s: State, a: FiberId, b: FiberId, c: FiberId)
    requires Reaches(s, a, b) && Edge(s, b, c)
    ensures Reaches(s, a, c)
  {
    var p :| Joins(s, p, a, b);
    assert Joins(s, p + [c], a, c);
  }

  /** Every cascade edge out of `done` leads into `started`. */
  ghost predicate ClosedInto(s: State, done: set<FiberId>, started: set<FiberId>)
  {
    forall a, b :: a in done && Edge(s, a, b) ==> b in started
  }

  /** A set closed under the cascade edges holds everything its members reach. */
  lemma {:induction false} ClosedHoldsReachable(s: State, done: set<FiberId>, p: seq<FiberId>)
    requires ClosedInto(s, done, done) && IsPath(s, p) && p[0] in done
    ensures forall x :: x in p ==> x in done
  {
    if |p| > 1 {
      assert Edge(s, p[0], p[1]);
      assert IsPath(s, p[1..]) by {
        forall i | 0 <= i < |p[1..]| - 1 ensures Edge(s, p[1..][i], p[1..][i + 1]) {
          assert Edge(s, p[i + 1], p[i + 2]);
        }
      }
      ClosedHoldsReachable(s, done, p[1..]);
      assert p == [p[0]] + p[1..];
    }
  }

  lemma DoomedIsClosed(s: State, f: FiberId)
    ensures ClosedInto(s, Doomed(s, f), Doomed(s, f))
    ensures Live(s, f) ==> f in Doomed(s, f)
  {
    ReachesSelf(s, f);
    forall a, b | a in Doomed(s, f) && Edge(s, a, b) ensures b in Doomed(s, f) {
      ReachesThen(s, f, a, b);
    }
  }

  /** The closure is the least closed set that holds `f`. */
  lemma DoomedIsLeast(s: State, f: FiberId, done: set<FiberId>)
    requires Live(s, f) && f in done && ClosedInto(s, done, done)
    ensures Doomed(s, f) <= done
  {
    forall x | x in Doomed(s, f) ensures x in done {
      var p :| Joins(s, p, f, x);
      ClosedHoldsReachable(s, done, p);
    }
  }

  // ---- the invariant ----

  ghost predicate IdsOk(s: State)
  {
    && s.registry <= s.arena.Keys
    && (forall f :: f in s.arena ==> f < s.nextFiber && s.arena[f].realm in s.realms)
    && (forall r :: r in s.realms ==> r < s.nextRealm)
  }

  /** Registered fibers are alive and no disposal is in flight; all others are finished and hold nothing. */
  ghost predicate Quiescent(s: State)
  {
    forall f :: f in s.arena ==>
                  if f in s.registry
                  then !s.arena[f].disposalStarted && !s.arena[f].phase.Terminal()
                  else s.arena[f].disposalStarted && s.arena[f].phase.Terminal() && s.arena[f].disposables == []
  }

  /** The registry is a tree rooted at the root fiber. */
  ghost predicate TreeOk(s: State)
  {
    forall f {:trigger s.arena[f].parent} :: f in s.registry && f in s.arena && f != ROOT_FIBER ==>
                  s.arena[f].parent < f && s.arena[f].parent in s.registry
  }

  /** A fiber that holds the cleanup of a binding remembers that it provided the binding. */
  ghost predicate CleanupsOk(s: State)
  {
    forall f, e :: f in s.arena && e in s.arena[f].disposables && e.RemoveService? ==>
                     Provided(e.key, e.realm) in s.arena[f].provided
  }

  /** No leaks: every binding has a registered owner that holds its cleanup. */
  ghost predicate Owned(s: State, r: RealmId, k: Key, v: Value)
  {
    exists f :: f in s.registry && f in s.arena && RemoveService(r, k, v) in s.arena[f].disposables
  }

  ghost predicate BindingsOwned(s: State)
  {
    forall r, k :: r in s.realms && k in s.realms[r].services ==> Owned(s, r, k, s.realms[r].services[k])
  }

  /** The queue holds exactly the live Pending fibers, each once. */
  ghost predicate QueueOk(s: State)
  {
    && (forall i :: 0 <= i < |s.pending| ==>
          s.pending[i].fiber in s.registry && s.pending[i].fiber in s.arena
          && s.arena[s.pending[i].fiber].phase.Pending?)
    && (forall i, j :: 0 <= i < j < |s.pending| ==> s.pending[i].fiber != s.pending[j].fiber)
    && (forall f :: f in s.registry && f in s.arena && s.arena[f].phase.Pending? ==>
          exists i :: 0 <= i < |s.pending| && s.pending[i].fiber == f)
  }

  /** Hard-dependency soundness: whatever a running fiber injected still resolves. */
  ghost predicate HardSound(s: State)
  {
    forall f, k :: f in s.registry && f in s.arena
                   && (s.arena[f].phase.Starting? || s.arena[f].phase.Ready?)
                   && k in s.arena[f].injected
                   ==> Resolve(s.realms, s.arena[f].realm, k).Some?
  }

  ghost predicate Ascending(ms: seq<Middleware>)
  {
    forall i, j :: 0 <= i < j < |ms| ==> ms[i].id < ms[j].id
  }

  /** A middleware is known, and the fiber that registered it alone holds its cleanup while registered. */
  ghost predicate MiddlewareOk(s: State, p: Point, m: Middleware)
  {
    && m.id < s.nextHandler && m.fiber in s.arena && m.realm in s.realms
    && (m.fiber in s.registry ==> RemoveMiddleware(p, m.id) in s.arena[m.fiber].disposables)
    && (forall f :: f in s.arena && RemoveMiddleware(p, m.id) in s.arena[f].disposables ==> f == m.fiber)
  }

  /** Middlewares are kept in registration order, each with its owner. */
  ghost predicate MiddlewaresOk(s: State)
  {
    && (forall p :: p in s.pipelines ==> Ascending(s.pipelines[p]))
    && (forall p, m :: p in s.pipelines && m in s.pipelines[p] ==> MiddlewareOk(s, p, m))
    && (forall f, e :: f in s.arena && e in s.arena[f].disposables && e.RemoveMiddleware? ==> e.id < s.nextHandler)
  }

  /** The root fiber is its own parent and never waited or injected anything. */
  ghost predicate RootOk(s: State)
  {
    && ROOT_FIBER in s.arena
    && s.arena[ROOT_FIBER].parent == ROOT_FIBER
    && s.arena[ROOT_FIBER].injected == []
    && !s.arena[ROOT_FIBER].phase.Pending?
  }

  ghost predicate Core(s: State)
  {
    && RootOk(s) && IdsOk(s) && Quiescent(s) && TreeOk(s) && CleanupsOk(s) && BindingsOwned(s)
    && QueueOk(s) && HardSound(s) && MiddlewaresOk(s)
  }

  /** Some declared key of the entry, hard or soft, does not resolve from its fiber's realm. */
  ghost predicate Blocked(s: State, e: Entry)
  {
    e.fiber in s.arena
    && exists d :: d in e.plugin.inject && Resolve(s.realms, s.arena[e.fiber].realm, d.key).None?
  }

  /** No wake-up is lost: whatever is still queued misses something. */
  ghost predicate QueueBlocked(s: State)
  {
    forall i :: 0 <= i < |s.pending| ==> Blocked(s, s.pending[i])
  }

  ghost predicate Inv(s: State)
  {
    Core(s) && QueueBlocked(s)
  }

  lemma InitInv()
    ensures Inv(Init())
  {
  }
}
