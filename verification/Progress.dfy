// Progress of soft starts: no deadlock without a cause, every schedule drains, and the one lost wake-up.

module Progress {
  import opened Basics
  import opened Realms
  import opened KernelState
  import opened Disposal
  import opened Start
  import opened Operations
  import opened Runs

  /** `a` waits for `b`: it misses a soft key that the queued plugin `b` declares where `a` can see it. */
  ghost predicate SoftWaits(s: State, a: Entry, b: Entry)
  {
    && a in s.pending && b in s.pending && a.fiber != b.fiber && a.fiber in s.arena && b.fiber in s.arena
    && exists k :: Soft(k) in a.plugin.inject && Resolve(s.realms, s.arena[a.fiber].realm, k).None?
                   && k in b.plugin.declares && Visible(s.realms, s.arena[b.fiber].realm, s.arena[a.fiber].realm)
  }

  ghost predicate WaitChain(s: State, w: seq<Entry>)
  {
    |w| > 0 && w[0] in s.pending && forall i :: 0 <= i < |w| - 1 ==> SoftWaits(s, w[i], w[i + 1])
  }

  /** Nobody waits for itself through a chain of soft waits. */
  ghost predicate SoftAcyclic(s: State)
  {
    forall w :: WaitChain(s, w) && |w| > 1 ==> w[0] != w[|w| - 1]
  }

  ghost predicate HardBlocked(s: State, e: Entry)
  {
    e.fiber in s.arena
    && exists k :: Hard(k) in e.plugin.inject && Resolve(s.realms, s.arena[e.fiber].realm, k).None?
  }

  ghost predicate NothingStarting(s: State)
  {
    forall f :: f in s.registry && f in s.arena ==> !s.arena[f].phase.Starting?
  }

  /** With nothing starting, an entry that is not satisfied misses a hard key or waits for a queued plugin. */
  lemma WaitsForSomebody(s: State, e: Entry) returns (b: Entry)
    requires QueueOk(s) && Quiescent(s) && NothingStarting(s) && e in s.pending
    requires e.fiber in s.arena && !Satisfied(s, e.fiber, s.arena[e.fiber].realm, e.plugin, [])
    requires !HardBlocked(s, e)
    ensures SoftWaits(s, e, b)
  {
    var realm := s.arena[e.fiber].realm;
    var j :| 0 <= j < |e.plugin.inject| && !DependencySatisfied(s, e.fiber, realm, e.plugin.inject[j], []);
    var d := e.plugin.inject[j];
    assert d in e.plugin.inject && (d == Hard(d.key) || d == Soft(d.key));
    var i :| 0 <= i < |s.pending| && PendingDeclares(s, s.pending[i], e.fiber, realm, d.key);
    b := s.pending[i];
  }

  lemma QueuedWaits(s: State, e: Entry)
    requires QueueOk(s) && Quiescent(s) && Calm(s) && e in s.pending
    ensures e.fiber in s.arena && !Satisfied(s, e.fiber, s.arena[e.fiber].realm, e.plugin, [])
  {
    var i :| 0 <= i < |s.pending| && s.pending[i] == e;
    assert StillAlive(s, s.pending[i]);
  }

  lemma ChainGrows(s: State, e: Entry, rest: seq<Entry>)
    requires WaitChain(s, rest) && e in s.pending && SoftWaits(s, e, rest[0])
    ensures WaitChain(s, [e] + rest)
  {
    var w := [e] + rest;
    forall k | 0 <= k < |w| - 1 ensures SoftWaits(s, w[k], w[k + 1]) {
      if k > 0 { assert SoftWaits(s, rest[k - 1], rest[k - 1 + 1]); }
    }
  }

  /** Follow the waits for `n` steps, or stop at an entry that misses a hard key. */
  lemma {:induction false} FollowWaits(s: State, e: Entry, n: nat) returns (w: seq<Entry>)
    requires QueueOk(s) && Quiescent(s) && NothingStarting(s) && Calm(s) && e in s.pending
    ensures WaitChain(s, w) && w[0] == e
    ensures |w| == n + 1 || HardBlocked(s, w[|w| - 1])
    ensures forall x :: x in w ==> x in s.pending
    decreases n
  {
    if n == 0 || HardBlocked(s, e) {
      w := [e];
    } else {
      QueuedWaits(s, e);
      var b := WaitsForSomebody(s, e);
      var rest := FollowWaits(s, b, n - 1);
      w := [e] + rest;
      ChainGrows(s, e, rest);
    }
  }

  /** Without soft cycles a chain of waits never meets the same entry again. */
  lemma ChainIsDistinct(s: State, w: seq<Entry>)
    requires SoftAcyclic(s) && WaitChain(s, w) && forall x :: x in w ==> x in s.pending
    ensures Distinct(w)
  {
    forall i, j | 0 <= i < j < |w| ensures w[i] != w[j] {
      var part := w[i..j + 1];
      assert part[0] == w[i] && part[|part| - 1] == w[j] && w[i] in w;
      assert WaitChain(s, part) by {
        forall k | 0 <= k < |part| - 1 ensures SoftWaits(s, part[k], part[k + 1]) {
          assert SoftWaits(s, w[i + k], w[i + k + 1]);
        }
      }
    }
  }

  /**
   * Every stuck start has a cause. In a calm kernel with nothing starting and no soft cycle, each queued
   * fiber leads, through soft waits, to a queued fiber whose hard dependency is missing.
   */
  lemma StuckOnMissingHard(s: State, e: Entry)
    requires QueueOk(s) && Quiescent(s) && NothingStarting(s) && Calm(s) && SoftAcyclic(s) && e in s.pending
    ensures exists w :: WaitChain(s, w) && w[0] == e && HardBlocked(s, w[|w| - 1])
  {
    var universe := Elements(s.pending);
    var w := FollowWaits(s, e, |universe|);
    ChainIsDistinct(s, w);
    DistinctSize(w);
    SubsetSize(Elements(w), universe);
  }

  /** So a queue of fibers that miss no hard key cannot get stuck. */
  lemma NoDeadlock(s: State)
    requires QueueOk(s) && Quiescent(s) && NothingStarting(s) && Calm(s) && SoftAcyclic(s)
    requires forall e :: e in s.pending ==> !HardBlocked(s, e)
    ensures s.pending == []
  {
    if s.pending != [] {
      var e := s.pending[0];
      StuckOnMissingHard(s, e);
      var w :| WaitChain(s, w) && w[0] == e && HardBlocked(s, w[|w| - 1]);
      ChainStaysQueued(s, w);
    }
  }

  lemma ChainStaysQueued(s: State, w: seq<Entry>)
    requires WaitChain(s, w)
    ensures w[|w| - 1] in s.pending
  {
    if |w| > 1 {
      assert SoftWaits(s, w[|w| - 2], w[|w| - 2 + 1]);
    }
  }

  /** A fiber does not start in the pass that wakes the fiber it soft-waits for. */
  lemma WaitersAreNotWoken(s: State, a: Entry, b: Entry)
    requires QueueOk(s) && Quiescent(s) && SoftWaits(s, a, b)
    ensures a !in Woken(s)
  {
    var realm := s.arena[a.fiber].realm;
    var k :| Soft(k) in a.plugin.inject && Resolve(s.realms, realm, k).None?
             && k in b.plugin.declares && Visible(s.realms, s.arena[b.fiber].realm, realm);
    var i :| 0 <= i < |s.pending| && s.pending[i] == b;
    var j :| 0 <= j < |a.plugin.inject| && a.plugin.inject[j] == Soft(k);
    var n :| 0 <= n < |s.pending| && s.pending[n] == a;
    assert PendingDeclares(s, s.pending[i], a.fiber, realm, k);
    assert !DependencySatisfied(s, a.fiber, realm, a.plugin.inject[j], []);
    WakesIfSatisfied(s, s.pending[n]);
  }

  /** With nothing starting, no missing hard key and no soft cycle, a pass over a non-empty queue wakes somebody. */
  lemma SomebodyWakes(s: State)
    requires QueueOk(s) && Quiescent(s) && NothingStarting(s) && SoftAcyclic(s) && s.pending != []
    requires forall e :: e in s.pending ==> !HardBlocked(s, e)
    ensures ReadyOf(s, s.pending) != []
  {
    if Woken(s) == {} {
      assert Calm(s) by {
        forall i | 0 <= i < |s.pending| && StillAlive(s, s.pending[i])
          ensures !Satisfied(s, s.pending[i].fiber, s.arena[s.pending[i].fiber].realm, s.pending[i].plugin, [])
        {
          WakesIfSatisfied(s, s.pending[i]);
          assert s.pending[i] !in Woken(s);
        }
      }
      NoDeadlock(s);
    } else {
      var e :| e in Woken(s);
      SplitMembers(s, s.pending);
      assert e in ReadyOf(s, s.pending);
    }
  }

  // ---- every schedule of finishing setups drains the queue ----

  /** A setup finishes without error, or somebody provides a service that replaces none. */
  ghost predicate Constructive(s: State, op: Op)
    requires Enabled(s, op)
  {
    match op
    case OpSetupDone(_) => true
    case OpProvide(ctx, k, v) => !Replaces(s, ctx, k, v)
    case _ => false
  }

  /** Setups finish and services appear in any order the runtime picks. */
  ghost predicate Schedule(s: State, ops: seq<Op>, t: State)
    decreases |ops|
  {
    if ops == [] then t == s
    else IsFresh(s) && Enabled(s, ops[0]) && Constructive(s, ops[0]) && Schedule(Apply(s, ops[0]), ops[1..], t)
  }

  function SetupsFinished(ops: seq<Op>): nat
  {
    if ops == [] then 0 else (if ops[0].OpSetupDone? then 1 else 0) + SetupsFinished(ops[1..])
  }

  function Unsettled(s: State): set<FiberId>
  {
    set f | f in s.registry && f in s.arena && (s.arena[f].phase.Pending? || s.arena[f].phase.Starting?)
  }

  ghost predicate Drainable(s: State)
  {
    Inv(s) && Calm(s) && SoftAcyclic(s) && forall e :: e in s.pending ==> !HardBlocked(s, e)
  }

  /** Finishing one setup settles one fiber for good and adds no obstacle. */
  lemma SetupDoneAdvances(s: State, f: FiberId)
    requires Drainable(s) && IsStarting(s, f)
    ensures Drainable(SetupDone(s, f))
    ensures Unsettled(SetupDone(s, f)) < Unsettled(s)
  {
    SetupDoneKeeps(s, f);
    var woken := SetupDoneIsPass(s, f);
    PassAdvances(s, f, woken, SetupDone(s, f));
  }

  lemma SetupDoneIsPass(s: State, f: FiberId) returns (woken: set<Entry>)
    requires Core(s) && IsStarting(s, f)
    ensures f in s.registry
    ensures var t := s.(arena := s.arena[f := s.arena[f].(phase := Ready)]); Core(t) && Pass(t, woken, SetupDone(s, f))
  {
    assert f in s.registry && !s.arena[f].disposalStarted;
    ReadyKeepsCore(s, f);
    var t := s.(arena := s.arena[f := s.arena[f].(phase := Ready)]);
    WakeIsPass(t);
    woken := Woken(t);
  }

  lemma PassAdvances(s: State, f: FiberId, woken: set<Entry>, u: State)
    requires f in s.registry && f in s.arena && s.arena[f].phase.Starting?
    requires var t := s.(arena := s.arena[f := s.arena[f].(phase := Ready)]); Core(t) && Pass(t, woken, u)
    requires SoftAcyclic(s) && forall e :: e in s.pending ==> !HardBlocked(s, e)
    ensures Unsettled(u) < Unsettled(s)
    ensures SoftAcyclic(u) && forall e :: e in u.pending ==> !HardBlocked(u, e)
  {
    var t := s.(arena := s.arena[f := s.arena[f].(phase := Ready)]);
    PassRecords(t, woken, u);
    SettlesOne(s, t, u, f);
    assert forall g :: g in u.arena ==> SameButPhase(t.arena[g], u.arena[g]);
    ObstaclesShrink(s, u);
  }

  lemma ReadyKeepsCore(s: State, f: FiberId)
    requires Core(s) && f in s.registry && f in s.arena && s.arena[f].phase.Starting?
    ensures Core(s.(arena := s.arena[f := s.arena[f].(phase := Ready)]))
  {
    var t := s.(arena := s.arena[f := s.arena[f].(phase := Ready)]);
    assert SameHoldings(s, t);
    SameHoldingsKeep(s, t);
    ReadyKeepsQueue(s, f);
  }

  lemma ReadyKeepsQueue(s: State, f: FiberId)
    requires QueueOk(s) && HardSound(s) && f in s.registry && f in s.arena && s.arena[f].phase.Starting?
    ensures QueueOk(s.(arena := s.arena[f := s.arena[f].(phase := Ready)]))
    ensures HardSound(s.(arena := s.arena[f := s.arena[f].(phase := Ready)]))
  {
  }

  /** `u` binds at least what `s` binds, over the same realms. */
  ghost predicate BindsMore(s: State, u: State)
  {
    && SameShape(s.realms, u.realms)
    && forall r, k :: r in s.realms && k in s.realms[r].services ==> k in u.realms[r].services
  }

  lemma WaitsWereThere(s: State, u: State, a: Entry, b: Entry)
    requires BindsMore(s, u) && forall e :: e in u.pending ==> e in s.pending
    requires forall f :: f in u.arena ==> f in s.arena && u.arena[f].realm == s.arena[f].realm
    ensures SoftWaits(u, a, b) ==> SoftWaits(s, a, b)
    ensures HardBlocked(u, a) ==> HardBlocked(s, a)
  {
    if a.fiber in u.arena {
      var realm := u.arena[a.fiber].realm;
      SameShapeSameWalks(s.realms, u.realms, realm);
      forall k ensures Resolve(u.realms, realm, k).None? ==> Resolve(s.realms, realm, k).None? {
        MoreBindings(s.realms, u.realms, realm, k);
      }
    }
  }

  lemma ObstaclesShrink(s: State, u: State)
    requires BindsMore(s, u) && forall e :: e in u.pending ==> e in s.pending
    requires forall f :: f in u.arena ==> f in s.arena && u.arena[f].realm == s.arena[f].realm
    requires SoftAcyclic(s) && forall e :: e in s.pending ==> !HardBlocked(s, e)
    ensures SoftAcyclic(u) && forall e :: e in u.pending ==> !HardBlocked(u, e)
  {
    forall e | e in u.pending ensures !HardBlocked(u, e) {
      WaitsWereThere(s, u, e, e);
    }
    forall w | WaitChain(u, w) && |w| > 1 ensures w[0] != w[|w| - 1] {
      forall i | 0 <= i < |w| - 1 ensures SoftWaits(s, w[i], w[i + 1]) {
        assert SoftWaits(u, w[i], w[i + 1]);
        WaitsWereThere(s, u, w[i], w[i + 1]);
      }
      assert WaitChain(s, w);
    }
  }

  /** Providing without replacing settles or starts fibers and adds no obstacle. */
  lemma ProvideAdvances(s: State, ctx: Ctx, k: Key, v: Value)
    requires Drainable(s) && Known(s, ctx) && !Replaces(s, ctx, k, v)
    ensures Drainable(Provide(s, ctx, k, v))
    ensures Unsettled(Provide(s, ctx, k, v)) <= Unsettled(s)
  {
    ProvideKeeps(s, ctx, k, v);
    if Active(s, ctx.fiber) {
      var t, u := Bind(s, ctx, k, v), Provide(s, ctx, k, v);
      BindKeepsCore(s, ctx, k, v);
      WakeIsPass(t);
      PassRecords(t, Woken(t), u);
      BoundThenWoken(s, ctx, k, v, u, Woken(t));
      MovesOnAdvances(s, u);
    }
  }

  /** A binding and a pass that wakes pending fibers leave every fiber where it was, or further. */
  ghost predicate MovesOn(s: State, u: State)
  {
    && BindsMore(s, u) && u.registry == s.registry && u.arena.Keys == s.arena.Keys
    && (forall e :: e in u.pending ==> e in s.pending)
    && forall f :: f in s.arena ==>
         u.arena[f].realm == s.arena[f].realm
         && (u.arena[f].phase == s.arena[f].phase || (s.arena[f].phase.Pending? && u.arena[f].phase.Starting?))
  }

  lemma MovesOnAdvances(s: State, u: State)
    requires MovesOn(s, u) && SoftAcyclic(s) && forall e :: e in s.pending ==> !HardBlocked(s, e)
    ensures Unsettled(u) <= Unsettled(s)
    ensures SoftAcyclic(u) && forall e :: e in u.pending ==> !HardBlocked(u, e)
  {
    ObstaclesShrink(s, u);
  }

  lemma BoundThenWoken(s: State, ctx: Ctx, k: Key, v: Value, u: State, woken: set<Entry>)
    requires Known(s, ctx) && Pass(Bind(s, ctx, k, v), woken, u) && SameHoldings(Bind(s, ctx, k, v), u)
    requires forall f :: f in s.arena && u.arena[f] != Bind(s, ctx, k, v).arena[f] ==>
               f in s.registry && Bind(s, ctx, k, v).arena[f].phase.Pending? && u.arena[f].phase.Starting?
    ensures MovesOn(s, u)
  {
    var t := Bind(s, ctx, k, v);
    assert u.realms == t.realms;
    forall f | f in s.arena
      ensures u.arena[f].realm == s.arena[f].realm
      ensures u.arena[f].phase == s.arena[f].phase || (s.arena[f].phase.Pending? && u.arena[f].phase.Starting?)
    {
      assert SameButPhase(t.arena[f], u.arena[f]);
    }
  }

  lemma SettlesOne(s: State, t: State, u: State, f: FiberId)
    requires f in s.arena && f in s.registry && s.arena[f].phase.Starting?
    requires t == s.(arena := s.arena[f := s.arena[f].(phase := Ready)])
    requires SameHoldings(t, u)
    requires forall g :: g in t.arena && u.arena[g] != t.arena[g] ==>
               g in t.registry && t.arena[g].phase.Pending? && u.arena[g].phase.Starting?
    ensures Unsettled(u) < Unsettled(s)
  {
    assert f in Unsettled(s) && f !in Unsettled(u);
  }

  /**
   * Soft-start progress. From a calm kernel whose queued fibers miss no hard key and do not wait in a
   * circle, every schedule of finishing setups and added services has at most as many finishing setups as
   * there are unsettled fibers, and once no setup is left to finish the queue is empty.
   */
  lemma {:induction false} EveryScheduleDrains(s: State, ops: seq<Op>, t: State)
    requires Drainable(s) && Schedule(s, ops, t)
    ensures SetupsFinished(ops) + |Unsettled(t)| <= |Unsettled(s)|
    ensures NothingStarting(t) ==> t.pending == [] && Unsettled(t) == {}
    decreases |ops|
  {
    if ops == [] {
      if NothingStarting(s) {
        NoDeadlock(s);
        assert Unsettled(s) == {} by {
          if f :| f in Unsettled(s) { PendingIsQueued(s, f); }
        }
      }
    } else {
      OpAdvances(s, ops[0]);
      EveryScheduleDrains(Apply(s, ops[0]), ops[1..], t);
    }
  }

  lemma OpAdvances(s: State, op: Op)
    requires Drainable(s) && Enabled(s, op) && Constructive(s, op)
    ensures Drainable(Apply(s, op))
    ensures |Unsettled(Apply(s, op))| + (if op.OpSetupDone? then 1 else 0) <= |Unsettled(s)|
  {
    match op
    case OpSetupDone(f) =>
      SetupDoneAdvances(s, f);
      ProperSubsetSize(Unsettled(SetupDone(s, f)), Unsettled(s));
    case OpProvide(ctx, k, v) =>
      ProvideAdvances(s, ctx, k, v);
      SubsetSize(Unsettled(Provide(s, ctx, k, v)), Unsettled(s));
  }

  lemma PendingIsQueued(s: State, f: FiberId)
    requires QueueOk(s) && f in s.registry && f in s.arena && s.arena[f].phase.Pending?
    ensures s.pending != []
  {
    var i :| 0 <= i < |s.pending| && s.pending[i].fiber == f;
  }

  lemma ProperSubsetSize<T>(a: set<T>, b: set<T>)
    requires a < b
    ensures |a| < |b|
  {
    assert b == a + (b - a);
  }

  // ---- the wake-up that is lost ----

  /** A batch of a plugin that soft-injects key 7 and of one that declares it. */
  function Consumer(): Plugin { Plugin([Soft(7)], []) }

  function Declarer(): Plugin { Plugin([], [7]) }

  function BatchOfTwo(): State
  {
    RegisterBatch(Init(), Ctx(ROOT_FIBER, ROOT_REALM), [Consumer(), Declarer()])
  }

  const IDLE: Fiber := Fiber(ROOT_FIBER, ROOT_REALM, Pending, false, [], [], [], [])

  /** The root realm binds nothing, fiber 1 waits in the queue, fiber 2 is being set up. */
  function Waiting(): State
  {
    State(3, 1, 0,
          map[ROOT_FIBER := IDLE.(phase := Ready), 1 := IDLE, 2 := IDLE.(phase := Starting, declared := [7])],
          {ROOT_FIBER, 1, 2},
          map[ROOT_REALM := Realm(None, map[])],
          [Entry(1, Consumer())],
          map[])
  }

  function Queued(): State
  {
    Waiting().(arena := map[ROOT_FIBER := IDLE.(phase := Ready), 1 := IDLE, 2 := IDLE],
               pending := [Entry(1, Consumer()), Entry(2, Declarer())])
  }

  lemma BatchQueuesBoth()
    ensures EnqueueAll(Init(), Ctx(ROOT_FIBER, ROOT_REALM), [Consumer(), Declarer()]) == Queued()
  {
    var ctx, plugins := Ctx(ROOT_FIBER, ROOT_REALM), [Consumer(), Declarer()];
    var s1 := Enqueue(Init(), ctx, Consumer());
    assert s1.pending == [Entry(1, Consumer())] && s1.registry == {0, 1};
    assert plugins[..1] == [Consumer()] && [Consumer()][..0] == [];
    assert EnqueueAll(Init(), ctx, []) == Init();
    assert EnqueueAll(Init(), ctx, [Consumer()]) == s1;
    var s2 := Enqueue(s1, ctx, Declarer());
    assert EnqueueAll(Init(), ctx, plugins) == s2;
    assert s2.registry == {0, 1, 2};
    assert s2.arena == Queued().arena;
  }

  lemma OnlyTheDeclarerWakes()
    ensures Wakes(Queued(), Entry(2, Declarer())) && !Wakes(Queued(), Entry(1, Consumer()))
  {
    var s := Queued();
    var drained, peers := s.(pending := []), PeersOf(s, s.pending);
    assert peers[1] == Peer(2, ROOT_REALM, [7]);
    assert HasDeclaredProvider(drained, 1, ROOT_REALM, 7, peers);
    assert !DependencySatisfied(drained, 1, ROOT_REALM, Consumer().inject[0], peers);
  }

  lemma BatchOfTwoStarts()
    ensures BatchOfTwo() == Waiting()
  {
    BatchQueuesBoth();
    InitInv();
    BatchIsPass(Init(), Ctx(ROOT_FIBER, ROOT_REALM), [Consumer(), Declarer()], Queued());
    WokenOfTwo();
    PassOverQueued(BatchOfTwo());
  }

  lemma BatchIsPass(s: State, ctx: Ctx, plugins: seq<Plugin>, queued: State)
    requires Core(s) && Known(s, ctx) && EnqueueAll(s, ctx, plugins) == queued
    ensures Pass(queued, Woken(queued), RegisterBatch(s, ctx, plugins))
  {
    EnqueueAllKeeps(s, ctx, plugins);
    WakeIsPass(queued);
  }

  lemma WokenOfTwo()
    ensures Woken(Queued()) == {Entry(2, Declarer())}
  {
    OnlyTheDeclarerWakes();
    var s := Queued();
    assert s.pending[1] == Entry(2, Declarer());
    assert forall e :: e in s.pending ==> e == Entry(1, Consumer()) || e == Entry(2, Declarer());
  }

  lemma TwoDiffer(q: seq<Entry>)
    requires UniqueEntries(q) && |q| > 1
    ensures q[0] != q[1]
  {
  }

  lemma PassOverQueued(t: State)
    requires Pass(Queued(), {Entry(2, Declarer())}, t)
    ensures t == Waiting()
  {
    var s := Queued();
    var e1 := Entry(1, Consumer());
    assert s.pending[0] == e1;
    assert forall i :: 0 <= i < |t.pending| ==> t.pending[i] in s.pending && t.pending[i] == e1;
    assert e1 in t.pending;
    if |t.pending| > 1 { TwoDiffer(t.pending); }
    assert t.pending == [e1];
    assert HardKeys([]) == [];
    assert t.arena == Waiting().arena;
  }

  lemma OnlyTheDeclarerDies()
    ensures Doomed(Waiting(), 2) == {2} && ClosedInto(Waiting(), {2}, {2})
  {
    var s := Waiting();
    forall b ensures !Edge(s, 2, b) {
      assert s.arena[2].provided == [];
    }
    DoomedIsClosed(s, 2);
    DoomedIsLeast(s, 2, {2});
  }

  lemma ConsumerIsStranded()
    ensures Stranded(Waiting(), {2}, Entry(1, Consumer()))
  {
    var s := Waiting();
    assert forall e :: e in s.pending ==> e == Entry(1, Consumer());
    assert !ProviderLeft(s, {2}, 1, ROOT_REALM, 7);
  }

  /**
   * The promise that a soft dependent starts once every declared provider has settled is not kept: when the
   * provider's setup fails, the dependent stays queued although it would be judged satisfied.
   */
  lemma FailedProviderStrandsItsDependent()
    ensures Inv(BatchOfTwo()) && Calm(BatchOfTwo()) && IsStarting(BatchOfTwo(), 2)
    ensures var t := DisposeState(BatchOfTwo(), 2, Failed);
            t.pending == [Entry(1, Consumer())] && Inv(t) && NothingStarting(t) && !Calm(t)
  {
    var s := Waiting();
    InitInv();
    BatchKeeps(Init(), Ctx(ROOT_FIBER, ROOT_REALM), [Consumer(), Declarer()]);
    BatchOfTwoStarts();
    OnlyTheDeclarerDies();
    ConsumerIsStranded();
    DisposeKeeps(s, 2, Failed);
    CalmUnlessStranded(s, {2}, 2, Failed);
    StrandedQueue(s);
  }

  lemma StrandedQueue(s: State)
    requires s == Waiting() && Doomed(s, 2) == {2}
    ensures var t := DisposeState(s, 2, Failed); t.pending == [Entry(1, Consumer())] && NothingStarting(t)
  {
    assert s.pending[1..] == [];
    assert KeepQueue([], {2}) == [];
    assert KeepQueue(s.pending, {2}) == [s.pending[0]];
  }
}
