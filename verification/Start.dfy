// Reactive start: when a queued plugin may start, and what one wake-up pass does to the queue.

module Start {
  import opened Basics
  import opened Realms
  import opened KernelState

  /** A drained queue entry as the others see it: its declarations stay visible while the queue is empty. */
  datatype Peer = Peer(fiber: FiberId, realm: RealmId, declares: seq<Key>)

  function HardKeys(inject: seq<Dependency>): seq<Key>
  {
    if inject == [] then []
    else (if inject[0].Hard? then [inject[0].key] else []) + HardKeys(inject[1..])
  }

  lemma {:induction false} HardKeysMembers(inject: seq<Dependency>, k: Key)
    ensures k in HardKeys(inject) <==> Hard(k) in inject
  {
    if inject != [] {
      HardKeysMembers(inject[1..], k);
      assert inject == [inject[0]] + inject[1..];
    }
  }

  lemma HardKeysNext(inject: seq<Dependency>, i: nat, keys: seq<Key>)
    requires i < |inject|
    ensures inject[i].Hard? ==> keys + HardKeys(inject[i..]) == (keys + [inject[i].key]) + HardKeys(inject[i + 1..])
    ensures inject[i].Soft? ==> HardKeys(inject[i..]) == HardKeys(inject[i + 1..])
  {
    assert inject[i..][0] == inject[i] && inject[i..][1..] == inject[i + 1..];
    if inject[i].Hard? { Associate(keys, [inject[i].key], HardKeys(inject[i + 1..])); }
  }

  /** A live plugin, pending or starting, has declared that it provides `key` where `realm` can see it. */
  predicate HasDeclaredProvider(s: State, waiting: FiberId, realm: RealmId, key: Key, peers: seq<Peer>)
  {
    || (exists i :: 0 <= i < |peers| && peers[i].fiber != waiting && key in peers[i].declares
                    && Visible(s.realms, peers[i].realm, realm))
    || (exists i :: 0 <= i < |s.pending| && PendingDeclares(s, s.pending[i], waiting, realm, key))
    || (exists f :: f in s.registry && StartingDeclares(s, f, waiting, realm, key))
  }

  predicate PendingDeclares(s: State, e: Entry, waiting: FiberId, realm: RealmId, key: Key)
  {
    && e.fiber != waiting && e.fiber in s.arena && !s.arena[e.fiber].disposalStarted
    && key in e.plugin.declares && Visible(s.realms, s.arena[e.fiber].realm, realm)
  }

  predicate StartingDeclares(s: State, f: FiberId, waiting: FiberId, realm: RealmId, key: Key)
  {
    && f != waiting && Live(s, f) && s.arena[f].phase.Starting?
    && key in s.arena[f].declared && Visible(s.realms, s.arena[f].realm, realm)
  }

  predicate DependencySatisfied(s: State, waiting: FiberId, realm: RealmId, d: Dependency, peers: seq<Peer>)
  {
    || Lookup(s.realms, realm, d.key).Some?
    || (d.Soft? && !HasDeclaredProvider(s, waiting, realm, d.key, peers))
  }

  predicate Satisfied(s: State, waiting: FiberId, realm: RealmId, plugin: Plugin, peers: seq<Peer>)
  {
    forall i :: 0 <= i < |plugin.inject| ==> DependencySatisfied(s, waiting, realm, plugin.inject[i], peers)
  }

  // ---- one wake-up pass ----

  function PeersOf(s: State, q: seq<Entry>): (peers: seq<Peer>)
    ensures |peers| == |q|
    ensures forall i :: 0 <= i < |q| && q[i].fiber in s.arena ==>
                          peers[i] == Peer(q[i].fiber, s.arena[q[i].fiber].realm, q[i].plugin.declares)
  {
    if q == [] then []
    else [if q[0].fiber in s.arena then Peer(q[0].fiber, s.arena[q[0].fiber].realm, q[0].plugin.declares)
          else Peer(q[0].fiber, ROOT_REALM, [])] + PeersOf(s, q[1..])
  }

  /** Whether the drained entry is still alive, and whether it is judged satisfied. */
  predicate StillAlive(s: State, e: Entry)
  {
    e.fiber in s.arena && !s.arena[e.fiber].disposalStarted
  }

  predicate Wakes(s: State, e: Entry)
  {
    StillAlive(s, e) && Satisfied(s.(pending := []), e.fiber, s.arena[e.fiber].realm, e.plugin, PeersOf(s, s.pending))
  }

  function ReadyOf(s: State, q: seq<Entry>): seq<Entry>
  {
    if q == [] then []
    else (if Wakes(s, q[0]) then [q[0]] else []) + ReadyOf(s, q[1..])
  }

  function RestOf(s: State, q: seq<Entry>): seq<Entry>
  {
    if q == [] then []
    else (if StillAlive(s, q[0]) && !Wakes(s, q[0]) then [q[0]] else []) + RestOf(s, q[1..])
  }

  function Started(rec: Fiber, plugin: Plugin): Fiber
  {
    rec.(injected := HardKeys(plugin.inject), declared := plugin.declares, phase := Starting)
  }

  function StartFiber(s: State, e: Entry): State
  {
    if e.fiber !in s.arena || s.arena[e.fiber].disposalStarted then s
    else s.(arena := s.arena[e.fiber := Started(s.arena[e.fiber], e.plugin)])
  }

  function StartAll(s: State, ready: seq<Entry>): State
    decreases ready
  {
    if ready == [] then s else StartAll(StartFiber(s, ready[0]), ready[1..])
  }

  function Wake(s: State): State
  {
    StartAll(s.(pending := RestOf(s, s.pending)), ReadyOf(s, s.pending))
  }

  // ---- the pass, element by element ----

  ghost predicate UniqueEntries(q: seq<Entry>)
  {
    forall i, j :: 0 <= i < j < |q| ==> q[i].fiber != q[j].fiber
  }

  lemma {:induction false} SplitMembers(s: State, q: seq<Entry>)
    ensures forall e :: e in ReadyOf(s, q) <==> e in q && Wakes(s, e)
    ensures forall e :: e in RestOf(s, q) <==> e in q && StillAlive(s, e) && !Wakes(s, e)
  {
    if q != [] {
      SplitMembers(s, q[1..]);
      assert q == [q[0]] + q[1..];
    }
  }

  /** Judging the next entry extends what was split off so far. */
  lemma SplitNext(s: State, q: seq<Entry>, i: nat, ready: seq<Entry>, rest: seq<Entry>)
    requires i < |q|
    ensures Wakes(s, q[i]) ==>
              && ready + ReadyOf(s, q[i..]) == (ready + [q[i]]) + ReadyOf(s, q[i + 1..])
              && RestOf(s, q[i..]) == RestOf(s, q[i + 1..])
    ensures StillAlive(s, q[i]) && !Wakes(s, q[i]) ==>
              && ReadyOf(s, q[i..]) == ReadyOf(s, q[i + 1..])
              && rest + RestOf(s, q[i..]) == (rest + [q[i]]) + RestOf(s, q[i + 1..])
    ensures !StillAlive(s, q[i]) ==>
              ReadyOf(s, q[i..]) == ReadyOf(s, q[i + 1..]) && RestOf(s, q[i..]) == RestOf(s, q[i + 1..])
  {
    assert q[i..][0] == q[i] && q[i..][1..] == q[i + 1..];
    Associate(ready, [q[i]], ReadyOf(s, q[i + 1..]));
    Associate(rest, [q[i]], RestOf(s, q[i + 1..]));
  }

  lemma {:induction false} SplitUnique(s: State, q: seq<Entry>)
    requires UniqueEntries(q)
    ensures UniqueEntries(ReadyOf(s, q)) && UniqueEntries(RestOf(s, q))
  {
    if q != [] {
      var tail := q[1..];
      assert UniqueEntries(tail);
      SplitUnique(s, tail);
      SplitMembers(s, tail);
      assert forall e :: e in tail ==> e.fiber != q[0].fiber by {
        forall e | e in tail ensures e.fiber != q[0].fiber {
          var j :| 0 <= j < |tail| && tail[j] == e;
          assert q[j + 1] == e;
        }
      }
      var ready, rest := ReadyOf(s, tail), RestOf(s, tail);
      assert forall i :: 0 <= i < |ready| ==> ready[i] in tail;
      assert forall i :: 0 <= i < |rest| ==> rest[i] in tail;
    }
  }

  ghost predicate Has(q: seq<Entry>, f: FiberId)
  {
    exists i :: 0 <= i < |q| && q[i].fiber == f
  }

  lemma {:induction false} StartAllRecords(s: State, ready: seq<Entry>, f: FiberId)
    requires UniqueEntries(ready)
    requires forall i :: 0 <= i < |ready| ==> ready[i].fiber in s.arena && !s.arena[ready[i].fiber].disposalStarted
    ensures var t := StartAll(s, ready);
            && t == s.(arena := t.arena) && t.arena.Keys == s.arena.Keys
            && (f in s.arena && !Has(ready, f) ==> t.arena[f] == s.arena[f])
            && (forall i :: 0 <= i < |ready| && ready[i].fiber == f ==>
                  t.arena[f] == Started(s.arena[f], ready[i].plugin))
    decreases ready
  {
    if ready != [] {
      var u := StartFiber(s, ready[0]);
      var tail := ready[1..];
      assert forall i :: 0 <= i < |tail| ==> tail[i] == ready[i + 1];
      assert forall i :: 0 <= i < |tail| ==> tail[i].fiber != ready[0].fiber;
      StartAllRecords(u, tail, f);
      if Has(tail, f) {
        var i :| 0 <= i < |tail| && tail[i].fiber == f;
        assert ready[i + 1].fiber == f;
      }
      assert StartAll(s, ready) == StartAll(u, tail);
      if !Has(ready, f) {
        assert ready[0].fiber != f;
      }
      forall i | 0 <= i < |ready| && ready[i].fiber == f
        ensures StartAll(s, ready).arena[f] == Started(s.arena[f], ready[i].plugin)
      {
        if i > 0 {
          assert tail[i - 1] == ready[i];
        } else {
          assert !Has(tail, f);
        }
      }
    }
  }

  /** A pass that wakes the entries `woken`: they start on their plugin, the rest stays queued as it was. */
  ghost predicate Pass(s: State, woken: set<Entry>, t: State)
  {
    && t == s.(arena := t.arena, pending := t.pending) && t.arena.Keys == s.arena.Keys
    && (forall e :: e in woken ==> e in s.pending && e.fiber in s.arena
                                   && t.arena[e.fiber] == Started(s.arena[e.fiber], e.plugin))
    && (forall f :: f in s.arena ==> t.arena[f] == s.arena[f] || exists e :: e in woken && e.fiber == f)
    && (forall e :: e in t.pending <==> e in s.pending && e !in woken)
    && UniqueEntries(t.pending)
  }

  ghost function Woken(s: State): set<Entry>
  {
    set e | e in s.pending && Wakes(s, e)
  }

  lemma ReadyAreWoken(s: State)
    requires QueueOk(s)
    ensures forall e :: e in ReadyOf(s, s.pending) <==> e in Woken(s)
    ensures UniqueEntries(ReadyOf(s, s.pending)) && UniqueEntries(RestOf(s, s.pending))
    ensures forall i :: 0 <= i < |ReadyOf(s, s.pending)| ==> StillAlive(s, ReadyOf(s, s.pending)[i])
  {
    SplitMembers(s, s.pending);
    SplitUnique(s, s.pending);
    forall i | 0 <= i < |ReadyOf(s, s.pending)| ensures StillAlive(s, ReadyOf(s, s.pending)[i]) {
      assert ReadyOf(s, s.pending)[i] in ReadyOf(s, s.pending);
    }
  }

  lemma WakeRecord(s: State, ready: seq<Entry>, t: State, f: FiberId)
    requires QueueOk(s) && ready == ReadyOf(s, s.pending) && t == Wake(s)
    ensures t == s.(arena := t.arena, pending := RestOf(s, s.pending)) && t.arena.Keys == s.arena.Keys
    ensures f in s.arena && !Has(ready, f) ==> t.arena[f] == s.arena[f]
    ensures forall i :: 0 <= i < |ready| && ready[i].fiber == f ==>
              f in s.arena && t.arena[f] == Started(s.arena[f], ready[i].plugin)
  {
    ReadyAreWoken(s);
    forall i | 0 <= i < |ready| ensures ready[i].fiber in s.arena && !s.arena[ready[i].fiber].disposalStarted {
      assert StillAlive(s, ready[i]);
    }
    StartAllRecords(s.(pending := RestOf(s, s.pending)), ready, f);
  }

  lemma WakeStarts(s: State, t: State, e: Entry)
    requires QueueOk(s) && t == Wake(s) && e in Woken(s)
    ensures e.fiber in s.arena && e.fiber in t.arena && t.arena[e.fiber] == Started(s.arena[e.fiber], e.plugin)
  {
    var ready := ReadyOf(s, s.pending);
    ReadyAreWoken(s);
    var j :| 0 <= j < |ready| && ready[j] == e;
    WakeRecord(s, ready, t, e.fiber);
  }

  lemma WakeLeaves(s: State, t: State, f: FiberId)
    requires QueueOk(s) && t == Wake(s) && f in s.arena
    ensures f in t.arena && (t.arena[f] == s.arena[f] || exists e :: e in Woken(s) && e.fiber == f)
  {
    var ready := ReadyOf(s, s.pending);
    WakeRecord(s, ready, t, f);
    if Has(ready, f) {
      var j :| 0 <= j < |ready| && ready[j].fiber == f;
      ReadyAreWoken(s);
      assert ready[j] in Woken(s);
    }
  }

  lemma WakeRests(s: State, e: Entry)
    requires QueueOk(s) && Quiescent(s)
    ensures e in RestOf(s, s.pending) <==> e in s.pending && e !in Woken(s)
  {
    SplitMembers(s, s.pending);
    if e in s.pending {
      var i :| 0 <= i < |s.pending| && s.pending[i] == e;
      assert StillAlive(s, s.pending[i]);
    }
  }

  lemma WakeIsPass(s: State)
    requires QueueOk(s) && Quiescent(s)
    ensures Pass(s, Woken(s), Wake(s))
  {
    var t := Wake(s);
    ReadyAreWoken(s);
    WakeRecord(s, ReadyOf(s, s.pending), t, ROOT_FIBER);
    forall e | e in Woken(s)
      ensures e in s.pending && e.fiber in s.arena && t.arena[e.fiber] == Started(s.arena[e.fiber], e.plugin)
    {
      WakeStarts(s, t, e);
    }
    forall f | f in s.arena ensures t.arena[f] == s.arena[f] || exists e :: e in Woken(s) && e.fiber == f {
      WakeLeaves(s, t, f);
    }
    forall e ensures e in t.pending <==> e in s.pending && e !in Woken(s) {
      WakeRests(s, e);
    }
  }

  // ---- the pass keeps the invariant and blocks no satisfied fiber ----

  /** A fiber's record may move on to another phase, keeping what it holds. */
  ghost predicate SameButPhase(rec: Fiber, rec': Fiber)
  {
    rec' == rec.(phase := rec'.phase, injected := rec'.injected, declared := rec'.declared)
  }

  ghost predicate SameHoldings(s: State, t: State)
  {
    && t == s.(arena := t.arena, pending := t.pending) && t.arena.Keys == s.arena.Keys
    && forall f :: f in s.arena ==> SameButPhase(s.arena[f], t.arena[f])
  }

  lemma SameHoldingsKeep(s: State, t: State)
    requires SameHoldings(s, t) && IdsOk(s) && TreeOk(s) && CleanupsOk(s) && BindingsOwned(s) && MiddlewaresOk(s)
    ensures IdsOk(t) && TreeOk(t) && CleanupsOk(t) && BindingsOwned(t) && MiddlewaresOk(t)
  {
    assert forall f :: f in s.arena ==>
             t.arena[f].disposables == s.arena[f].disposables && t.arena[f].provided == s.arena[f].provided;
    forall r, k | r in t.realms && k in t.realms[r].services ensures Owned(t, r, k, t.realms[r].services[k]) {
      assert Owned(s, r, k, s.realms[r].services[k]);
    }
    forall p, m | p in t.pipelines && m in t.pipelines[p] ensures MiddlewareOk(t, p, m) {
      assert MiddlewareOk(s, p, m);
    }
  }

  lemma PassKeepsCore(s: State, woken: set<Entry>, t: State)
    requires Core(s) && Pass(s, woken, t)
    requires forall e, k :: e in woken && Hard(k) in e.plugin.inject ==>
                              Resolve(s.realms, s.arena[e.fiber].realm, k).Some?
    ensures Core(t)
  {
    PassRecords(s, woken, t);
    SameHoldingsKeep(s, t);
    PassQueueOk(s, woken, t);
    PassHardSound(s, woken, t);
  }

  lemma PassRecords(s: State, woken: set<Entry>, t: State)
    requires Core(s) && Pass(s, woken, t)
    ensures SameHoldings(s, t)
    ensures forall f :: f in s.arena && t.arena[f] != s.arena[f] ==>
              f in s.registry && s.arena[f].phase.Pending? && t.arena[f].phase.Starting?
  {
    forall f | f in s.arena
      ensures SameButPhase(s.arena[f], t.arena[f])
      ensures t.arena[f] != s.arena[f] ==> f in s.registry && s.arena[f].phase.Pending? && t.arena[f].phase.Starting?
    {
      if t.arena[f] != s.arena[f] {
        var e :| e in woken && e.fiber == f;
        var i :| 0 <= i < |s.pending| && s.pending[i] == e;
      }
    }
  }

  lemma PassQueueOk(s: State, woken: set<Entry>, t: State)
    requires QueueOk(s) && Pass(s, woken, t)
    ensures QueueOk(t)
  {
    forall i | 0 <= i < |t.pending|
      ensures t.pending[i].fiber in t.registry && t.pending[i].fiber in t.arena
              && t.arena[t.pending[i].fiber].phase.Pending?
    {
      var e := t.pending[i];
      assert e in s.pending && e !in woken;
      if w :| w in woken && w.fiber == e.fiber {
        SameFiberSameEntry(s, e, w);
      }
    }
    forall f | f in t.registry && f in t.arena && t.arena[f].phase.Pending?
      ensures exists i :: 0 <= i < |t.pending| && t.pending[i].fiber == f
    {
      assert t.arena[f] == s.arena[f];
      var i :| 0 <= i < |s.pending| && s.pending[i].fiber == f;
      assert s.pending[i] in t.pending;
    }
  }

  lemma SameFiberSameEntry(s: State, e: Entry, w: Entry)
    requires QueueOk(s) && e in s.pending && w in s.pending && e.fiber == w.fiber
    ensures e == w
  {
    var i :| 0 <= i < |s.pending| && s.pending[i] == e;
    var j :| 0 <= j < |s.pending| && s.pending[j] == w;
  }

  lemma PassHardSound(s: State, woken: set<Entry>, t: State)
    requires HardSound(s) && Pass(s, woken, t)
    requires forall e, k :: e in woken && Hard(k) in e.plugin.inject ==>
                              Resolve(s.realms, s.arena[e.fiber].realm, k).Some?
    ensures HardSound(t)
  {
    forall f, k | f in t.registry && f in t.arena
                  && (t.arena[f].phase.Starting? || t.arena[f].phase.Ready?) && k in t.arena[f].injected
      ensures Resolve(t.realms, t.arena[f].realm, k).Some?
    {
      if t.arena[f] != s.arena[f] {
        var e :| e in woken && e.fiber == f;
        HardKeysMembers(e.plugin.inject, k);
      }
    }
  }

  lemma WakeKeepsCore(s: State)
    requires Core(s)
    ensures Core(Wake(s))
  {
    WakeIsPass(s);
    forall e, k | e in Woken(s) && Hard(k) in e.plugin.inject
      ensures Resolve(s.realms, s.arena[e.fiber].realm, k).Some?
    {
      var j :| 0 <= j < |e.plugin.inject| && e.plugin.inject[j] == Hard(k);
    }
    PassKeepsCore(s, Woken(s), Wake(s));
  }

  /** No queued fiber could start right now: nothing waits for a wake-up that has already been earned. */
  ghost predicate Calm(s: State)
  {
    forall i :: 0 <= i < |s.pending| && StillAlive(s, s.pending[i]) ==>
                  !Satisfied(s, s.pending[i].fiber, s.arena[s.pending[i].fiber].realm, s.pending[i].plugin, [])
  }

  /** Judging a drained entry against its peers is judging it against the queue. */
  lemma PeersStandForQueue(s: State, waiting: FiberId, realm: RealmId, key: Key)
    requires QueueOk(s) && Quiescent(s)
    ensures HasDeclaredProvider(s.(pending := []), waiting, realm, key, PeersOf(s, s.pending))
        <==> HasDeclaredProvider(s, waiting, realm, key, [])
  {
    var t, peers := s.(pending := []), PeersOf(s, s.pending);
    assert forall f :: StartingDeclares(t, f, waiting, realm, key) <==> StartingDeclares(s, f, waiting, realm, key);
    assert forall i :: 0 <= i < |s.pending| ==>
      (PendingDeclares(s, s.pending[i], waiting, realm, key) <==>
       peers[i].fiber != waiting && key in peers[i].declares && Visible(s.realms, peers[i].realm, realm));
  }

  lemma WakesIfSatisfied(s: State, e: Entry)
    requires QueueOk(s) && Quiescent(s) && StillAlive(s, e)
    ensures Wakes(s, e) <==> Satisfied(s, e.fiber, s.arena[e.fiber].realm, e.plugin, [])
  {
    var t, peers, realm := s.(pending := []), PeersOf(s, s.pending), s.arena[e.fiber].realm;
    forall i | 0 <= i < |e.plugin.inject|
      ensures DependencySatisfied(t, e.fiber, realm, e.plugin.inject[i], peers)
         <==> DependencySatisfied(s, e.fiber, realm, e.plugin.inject[i], [])
    {
      PeersStandForQueue(s, e.fiber, realm, e.plugin.inject[i].key);
    }
  }

  /** An entry the pass leaves queued still misses some key, and still is not satisfied. */
  lemma LeftoverWaits(s: State, t: State, e: Entry)
    requires Core(s) && Pass(s, Woken(s), t) && e in s.pending && e !in Woken(s)
    ensures e.fiber in s.arena && Blocked(t, e)
    ensures !Satisfied(t, e.fiber, s.arena[e.fiber].realm, e.plugin, [])
  {
    var n :| 0 <= n < |s.pending| && s.pending[n] == e;
    WakesIfSatisfied(s, e);
    var realm := s.arena[e.fiber].realm;
    var j :| 0 <= j < |e.plugin.inject| && !DependencySatisfied(s, e.fiber, realm, e.plugin.inject[j], []);
    var d := e.plugin.inject[j];
    if d.Soft? {
      ProviderSurvivesPass(s, Woken(s), t, e.fiber, realm, d.key);
    }
    assert !DependencySatisfied(t, e.fiber, realm, d, []);
    PassKeepsRealm(s, Woken(s), t, e.fiber);
    assert Resolve(t.realms, t.arena[e.fiber].realm, d.key).None?;
  }

  lemma PassKeepsRealm(s: State, woken: set<Entry>, t: State, f: FiberId)
    requires Pass(s, woken, t) && f in s.arena
    ensures f in t.arena && t.arena[f].realm == s.arena[f].realm
  {
    if t.arena[f] != s.arena[f] {
      var e :| e in woken && e.fiber == f;
    }
  }

  /** A pass wakes everything it can: afterwards the queue is calm and each entry misses some key. */
  lemma WakeCalms(s: State)
    requires Core(s)
    ensures Calm(Wake(s)) && QueueBlocked(Wake(s))
  {
    WakeIsPass(s);
    PassCalms(s, Wake(s));
  }

  lemma PassCalms(s: State, t: State)
    requires Core(s) && Pass(s, Woken(s), t)
    ensures Calm(t) && QueueBlocked(t)
  {
    forall i | 0 <= i < |t.pending|
      ensures Blocked(t, t.pending[i])
      ensures t.pending[i].fiber in t.arena
      ensures !Satisfied(t, t.pending[i].fiber, t.arena[t.pending[i].fiber].realm, t.pending[i].plugin, [])
    {
      var e := t.pending[i];
      assert e in t.pending;
      LeftoverWaits(s, t, e);
      PassKeepsRealm(s, Woken(s), t, e.fiber);
    }
  }

  lemma ProviderSurvivesPass(s: State, woken: set<Entry>, t: State, waiting: FiberId, realm: RealmId, key: Key)
    requires Core(s) && Pass(s, woken, t) && HasDeclaredProvider(s, waiting, realm, key, [])
    ensures HasDeclaredProvider(t, waiting, realm, key, [])
  {
    PassRecords(s, woken, t);
    if i :| 0 <= i < |s.pending| && PendingDeclares(s, s.pending[i], waiting, realm, key) {
      var e := s.pending[i];
      if e in woken {
        assert e.fiber in t.registry && StartingDeclares(t, e.fiber, waiting, realm, key);
      } else {
        assert e in t.pending;
        var j :| 0 <= j < |t.pending| && t.pending[j] == e;
        assert PendingDeclares(t, t.pending[j], waiting, realm, key);
      }
    } else {
      var f :| f in s.registry && StartingDeclares(s, f, waiting, realm, key);
      assert t.arena[f] == s.arena[f];
      assert StartingDeclares(t, f, waiting, realm, key);
    }
  }

  // ---- order independence ----

  lemma {:induction false} ReadyCounts(s: State, q: seq<Entry>, e: Entry)
    ensures multiset(ReadyOf(s, q))[e] == if Wakes(s, e) then multiset(q)[e] else 0
    ensures multiset(RestOf(s, q))[e] == if StillAlive(s, e) && !Wakes(s, e) then multiset(q)[e] else 0
  {
    if q != [] {
      ReadyCounts(s, q[1..], e);
      FirstCounts(q, e);
      HeadCounts(if Wakes(s, q[0]) then [q[0]] else [], ReadyOf(s, q[1..]), e);
      HeadCounts(if StillAlive(s, q[0]) && !Wakes(s, q[0]) then [q[0]] else [], RestOf(s, q[1..]), e);
    }
  }

  lemma FirstCounts(q: seq<Entry>, e: Entry)
    requires q != []
    ensures multiset(q)[e] == multiset(q[1..])[e] + if q[0] == e then 1 else 0
  {
    assert q == [q[0]] + q[1..];
  }

  lemma HeadCounts(head: seq<Entry>, tail: seq<Entry>, e: Entry)
    ensures multiset(head + tail)[e] == multiset(head)[e] + multiset(tail)[e]
  {
  }

  lemma SamePeersSameJudgement(s: State, q: seq<Entry>, e: Entry)
    requires multiset(q) == multiset(s.pending)
    requires forall i :: 0 <= i < |s.pending| ==> s.pending[i].fiber in s.arena
    ensures Wakes(s, e) ==> Wakes(s.(pending := q), e)
  {
    if Wakes(s, e) {
      var s' := s.(pending := q);
      var t, peers, peers' := s.(pending := []), PeersOf(s, s.pending), PeersOf(s', q);
      forall i | 0 <= i < |peers'| ensures peers'[i] in peers {
        assert q[i] in multiset(q);
        assert q[i] in s.pending;
        var j :| 0 <= j < |s.pending| && s.pending[j] == q[i];
        assert peers[j] == peers'[i];
      }
      forall j | 0 <= j < |e.plugin.inject|
        ensures DependencySatisfied(t, e.fiber, s.arena[e.fiber].realm, e.plugin.inject[j], peers')
      {
        assert DependencySatisfied(t, e.fiber, s.arena[e.fiber].realm, e.plugin.inject[j], peers);
      }
      assert s'.(pending := []) == t;
    }
  }

  /** Which fibers a pass starts and which it leaves does not depend on the order of the queue. */
  lemma WakeIgnoresQueueOrder(s: State, q: seq<Entry>)
    requires multiset(q) == multiset(s.pending)
    requires forall i :: 0 <= i < |s.pending| ==> s.pending[i].fiber in s.arena
    ensures multiset(ReadyOf(s.(pending := q), q)) == multiset(ReadyOf(s, s.pending))
    ensures multiset(RestOf(s.(pending := q), q)) == multiset(RestOf(s, s.pending))
  {
    var s' := s.(pending := q);
    assert s'.(pending := s.pending) == s;
    assert forall i :: 0 <= i < |q| ==> q[i] in multiset(q);
    forall e
      ensures multiset(ReadyOf(s', q))[e] == multiset(ReadyOf(s, s.pending))[e]
      ensures multiset(RestOf(s', q))[e] == multiset(RestOf(s, s.pending))[e]
    {
      SamePeersSameJudgement(s, q, e);
      SamePeersSameJudgement(s', s.pending, e);
      ReadyCounts(s, s.pending, e);
      ReadyCounts(s', q, e);
    }
  }
}
