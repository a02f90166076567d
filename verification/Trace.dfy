// The order of a teardown. A trace of a cascade is accepted by a small stack machine; the ordering
// guarantees follow from acceptance alone.

module Trace {
  import opened Basics
  import opened KernelState

  datatype Event =
    | Began(fiber: FiberId)                  // the disposal_started flag was raised
    | Ran(fiber: FiberId, effect: Effect)    // one cleanup of the fiber ran
    | Ended(fiber: FiberId)                  // the fiber published its terminal state and left

  /** One open disposal and the cleanups it still owes, oldest first. */
  datatype Frame = Frame(fiber: FiberId, owed: seq<Effect>)

  datatype Machine = Machine(open: seq<Frame>, seen: set<FiberId>)

  /** Everything `x` leads to has been started. */
  ghost predicate CascadeStarted(s: State, x: FiberId, seen: set<FiberId>)
  {
    forall y :: Edge(s, x, y) ==> y in seen
  }

  /** Every user of the services in `provided` has begun its teardown. */
  ghost predicate UsersStarted(s: State, g: FiberId, provided: seq<Provided>, started: set<FiberId>)
  {
    forall p, x :: p in provided && x in Dependents(s, p.realm, p.key, g) ==> x in started
  }

  /** `x` uses the `i`th service of `a`, and the users of all earlier ones have begun. */
  ghost predicate DueAsUser(s: State, a: FiberId, i: nat, seen: set<FiberId>, x: FiberId)
  {
    && a in s.arena && i < |s.arena[a].provided|
    && UsersStarted(s, a, s.arena[a].provided[..i], seen)
    && x in Dependents(s, s.arena[a].provided[i].realm, s.arena[a].provided[i].key, a)
  }

  /** `x` is a child of `a`, and the users of all its services have begun. */
  ghost predicate DueAsChild(s: State, a: FiberId, seen: set<FiberId>, x: FiberId)
  {
    a in s.arena && UsersStarted(s, a, s.arena[a].provided, seen) && x in Children(s, a)
  }

  /** The turn of `x` in the disposal of `a`: users first, service by service, then children. */
  ghost predicate Due(s: State, a: FiberId, seen: set<FiberId>, x: FiberId)
  {
    DueAsChild(s, a, seen, x) || exists i: nat :: DueAsUser(s, a, i, seen, x)
  }

  lemma DueIsEdge(s: State, a: FiberId, seen: set<FiberId>, x: FiberId)
    requires Due(s, a, seen, x)
    ensures Edge(s, a, x)
  {
    if !DueAsChild(s, a, seen, x) {
      var i: nat :| DueAsUser(s, a, i, seen, x);
      assert s.arena[a].provided[i] in s.arena[a].provided;
    }
  }

  lemma DueStays(s: State, a: FiberId, seen: set<FiberId>, seen': set<FiberId>, x: FiberId)
    requires Due(s, a, seen, x) && seen <= seen'
    ensures Due(s, a, seen', x)
  {
    if !DueAsChild(s, a, seen, x) {
      var i: nat :| DueAsUser(s, a, i, seen, x);
      assert DueAsUser(s, a, i, seen', x);
    }
  }

  /** A disposal begins on its own, or because it is the turn of its fiber in the innermost open one. */
  ghost predicate Triggered(s: State, open: seq<Frame>, seen: set<FiberId>, x: FiberId)
  {
    open == [] || Due(s, open[|open| - 1].fiber, seen, x)
  }

  /**
   * The teardown discipline over the graph of `s`: a disposal begins once, in its turn in the one that
   * encloses it; only the innermost open disposal may act; it runs its cleanups newest first, and only after
   * everything that depends on it has been started; it ends owing nothing.
   */
  ghost function Step(s: State, m: Machine, ev: Event): Option<Machine>
  {
    match ev
    case Began(x) =>
      if x in s.arena && x !in m.seen && Triggered(s, m.open, m.seen, x)
      then Some(Machine(m.open + [Frame(x, s.arena[x].disposables)], m.seen + {x}))
      else None
    case Ran(x, e) =>
      if |m.open| > 0 && m.open[|m.open| - 1].fiber == x && CascadeStarted(s, x, m.seen)
         && |m.open[|m.open| - 1].owed| > 0
         && m.open[|m.open| - 1].owed[|m.open[|m.open| - 1].owed| - 1] == e
      then var top := m.open[|m.open| - 1];
           Some(m.(open := m.open[..|m.open| - 1] + [Frame(x, top.owed[..|top.owed| - 1])]))
      else None
    case Ended(x) =>
      if |m.open| > 0 && m.open[|m.open| - 1] == Frame(x, []) && CascadeStarted(s, x, m.seen)
      then Some(m.(open := m.open[..|m.open| - 1]))
      else None
  }

  ghost function Replay(s: State, t: seq<Event>): Option<Machine>
  {
    if t == [] then Some(Machine([], {}))
    else match Replay(s, t[..|t| - 1])
      case None => None
      case Some(m) => Step(s, m, t[|t| - 1])
  }

  lemma ReplayThen(s: State, t: seq<Event>, ev: Event)
    requires Replay(s, t).Some?
    ensures Replay(s, t + [ev]) == Step(s, Replay(s, t).value, ev)
  {
    assert (t + [ev])[..|t|] == t;
  }

  lemma {:induction false} PrefixAccepted(s: State, t: seq<Event>, n: nat)
    requires Replay(s, t).Some? && n <= |t|
    ensures Replay(s, t[..n]).Some?
    decreases |t|
  {
    if n == |t| {
      assert t[..n] == t;
    } else {
      PrefixAccepted(s, t[..|t| - 1], n);
      assert t[..|t| - 1][..n] == t[..n];
    }
  }

  /** The cleanups of one fiber, in the order they ran. */
  function EffectsOf(t: seq<Event>, x: FiberId): seq<Effect>
  {
    if t == [] then []
    else
      var before := EffectsOf(t[..|t| - 1], x);
      var ev := t[|t| - 1];
      if ev.Ran? && ev.fiber == x then before + [ev.effect] else before
  }

  // ---- what an accepted trace has recorded ----

  ghost function BeganIn(t: seq<Event>): set<FiberId>
  {
    if t == [] then {}
    else BeganIn(t[..|t| - 1]) + (if t[|t| - 1].Began? then {t[|t| - 1].fiber} else {})
  }

  ghost function EndedIn(t: seq<Event>): set<FiberId>
  {
    if t == [] then {}
    else EndedIn(t[..|t| - 1]) + (if t[|t| - 1].Ended? then {t[|t| - 1].fiber} else {})
  }

  lemma {:induction false} BeganInMembers(t: seq<Event>, x: FiberId)
    ensures x in BeganIn(t) <==> Began(x) in t
    ensures x in EndedIn(t) <==> Ended(x) in t
  {
    if t != [] {
      BeganInMembers(t[..|t| - 1], x);
      assert t == t[..|t| - 1] + [t[|t| - 1]];
    }
  }

  ghost function OpenFibers(open: seq<Frame>): set<FiberId>
  {
    if open == [] then {} else OpenFibers(open[..|open| - 1]) + {open[|open| - 1].fiber}
  }

  ghost predicate OpenOnce(open: seq<Frame>)
  {
    open == [] || (open[|open| - 1].fiber !in OpenFibers(open[..|open| - 1]) && OpenOnce(open[..|open| - 1]))
  }

  lemma {:induction false} OpenFibersAt(open: seq<Frame>, x: FiberId) returns (p: int)
    ensures x in OpenFibers(open) ==> 0 <= p < |open| && open[p].fiber == x
    ensures forall q :: 0 <= q < |open| ==> open[q].fiber in OpenFibers(open)
  {
    p := 0;
    if open != [] {
      var top := |open| - 1;
      p := OpenFibersAt(open[..top], x);
      if open[top].fiber == x { p := top; }
      assert open == open[..top] + [open[top]];
    }
  }

  /** The machine's bookkeeping agrees with the trace it has read. */
  ghost predicate Recorded(t: seq<Event>, m: Machine)
  {
    m.seen == BeganIn(t) && EndedIn(t) <= m.seen && OpenFibers(m.open) == BeganIn(t) - EndedIn(t) && OpenOnce(m.open)
  }

  lemma RecordGrows(t: seq<Event>, ev: Event)
    ensures BeganIn(t + [ev]) == BeganIn(t) + (if ev.Began? then {ev.fiber} else {})
    ensures EndedIn(t + [ev]) == EndedIn(t) + (if ev.Ended? then {ev.fiber} else {})
  {
    assert (t + [ev])[..|t|] == t;
  }

  lemma OpenGrows(open: seq<Frame>, frame: Frame)
    ensures OpenFibers(open + [frame]) == OpenFibers(open) + {frame.fiber}
    ensures OpenOnce(open + [frame]) <==> OpenOnce(open) && frame.fiber !in OpenFibers(open)
  {
    assert (open + [frame])[..|open|] == open;
  }

  lemma BeganIsRecorded(t: seq<Event>, m: Machine, frame: Frame)
    requires Recorded(t, m) && frame.fiber !in m.seen
    ensures Recorded(t + [Began(frame.fiber)], Machine(m.open + [frame], m.seen + {frame.fiber}))
  {
    RecordGrows(t, Began(frame.fiber));
    OpenGrows(m.open, frame);
  }

  /** What the innermost disposal still owes does not matter. */
  lemma TopIsOpen(open: seq<Frame>, owed: seq<Effect>)
    requires open != [] && OpenOnce(open)
    ensures var below, top := open[..|open| - 1], open[|open| - 1];
            && OpenFibers(below + [Frame(top.fiber, owed)]) == OpenFibers(open)
            && OpenOnce(below + [Frame(top.fiber, owed)])
            && OpenFibers(below) == OpenFibers(open) - {top.fiber} && OpenOnce(below)
  {
    OpenGrows(open[..|open| - 1], Frame(open[|open| - 1].fiber, owed));
  }

  lemma RecordStep(s: State, t: seq<Event>, m: Machine, ev: Event)
    requires Step(s, m, ev).Some? && Recorded(t, m)
    ensures Recorded(t + [ev], Step(s, m, ev).value)
  {
    if ev.Began? {
      BeganIsRecorded(t, m, Frame(ev.fiber, s.arena[ev.fiber].disposables));
    } else {
      RecordGrows(t, ev);
      var top := m.open[|m.open| - 1];
      TopIsOpen(m.open, top.owed[..if ev.Ran? then |top.owed| - 1 else 0]);
    }
  }

  /** The machine knows what began and what is still open. */
  lemma {:induction false} AcceptedIsRecorded(s: State, t: seq<Event>)
    requires Replay(s, t).Some?
    ensures Recorded(t, Replay(s, t).value)
    decreases |t|
  {
    if t != [] {
      var t0, ev := t[..|t| - 1], t[|t| - 1];
      AcceptedIsRecorded(s, t0);
      RecordStep(s, t0, Replay(s, t0).value, ev);
      LastPart(t);
    }
  }

  /** Each disposal begins at most once and ends at most once. */
  lemma BeginsOnce(s: State, t: seq<Event>, i: nat, j: nat)
    requires Replay(s, t).Some? && i < |t| && j < |t|
    requires t[i] == t[j] && !t[i].Ran?
    ensures i == j
  {
    if i < j {
      RepeatIsRejected(s, t, i, j);
    } else if j < i {
      RepeatIsRejected(s, t, j, i);
    }
  }

  lemma RepeatIsRejected(s: State, t: seq<Event>, i: nat, j: nat)
    requires Replay(s, t).Some? && i < j < |t| && !t[i].Ran?
    ensures t[i] != t[j]
  {
    var m := Before(s, t, j);
    var p := OpenFibersAt(m.open, t[j].fiber);
    assert t[..j][i] == t[i];
    BeganInMembers(t[..j], t[i].fiber);
  }

  /** The machine just before event `i`, which accepts that event. */
  lemma Before(s: State, t: seq<Event>, i: nat) returns (m: Machine)
    requires Replay(s, t).Some? && i < |t|
    ensures Replay(s, t[..i]) == Some(m) && Step(s, m, t[i]).Some?
    ensures m.seen == BeganIn(t[..i]) && OpenFibers(m.open) == BeganIn(t[..i]) - EndedIn(t[..i])
    ensures OpenOnce(m.open) && EndedIn(t[..i]) <= m.seen
  {
    PrefixAccepted(s, t, i + 1);
    PrefixAccepted(s, t, i);
    AcceptedIsRecorded(s, t[..i]);
    assert t[..i + 1] == t[..i] + [t[i]];
    ReplayThen(s, t[..i], t[i]);
    m := Replay(s, t[..i]).value;
  }

  /** Open disposals are stacked in the order they began. */
  lemma {:induction false} StackedInOrder(s: State, t: seq<Event>, p: nat, q: nat, j: nat)
    requires Replay(s, t).Some? && p < q < |Replay(s, t).value.open|
    requires j < |t| && t[j] == Began(Replay(s, t).value.open[q].fiber)
    ensures Replay(s, t).value.open[p].fiber in BeganIn(t[..j])
    decreases |t|
  {
    var t0, ev := t[..|t| - 1], t[|t| - 1];
    var m0, m := Replay(s, t0).value, Replay(s, t).value;
    AcceptedIsRecorded(s, t0);
    assert m.open[p].fiber == m0.open[p].fiber;
    if j == |t| - 1 {
      var _ := OpenFibersAt(m0.open, m.open[p].fiber);
      assert t[..j] == t0;
    } else {
      assert t0[j] == t[j] && t0[..j] == t[..j];
      if ev.Began? && q == |m0.open| {
        BeginsOnce(s, t, j, |t| - 1);
      } else {
        assert m.open[q].fiber == m0.open[q].fiber;
        StackedInOrder(s, t0, p, q, j);
      }
    }
  }

  /** A disposal that is open under another one began before it. */
  lemma OpenBelowTop(s: State, t: seq<Event>, b: FiberId, j: nat)
    requires Replay(s, t).Some? && |Replay(s, t).value.open| > 0
    requires j < |t| && t[j] == Began(Replay(s, t).value.open[|Replay(s, t).value.open| - 1].fiber)
    requires b in BeganIn(t) && b !in EndedIn(t) && t[j] != Began(b)
    ensures b in BeganIn(t[..j])
  {
    AcceptedIsRecorded(s, t);
    var m := Replay(s, t).value;
    var p := OpenFibersAt(m.open, b);
    StackedInOrder(s, t, p, |m.open| - 1, j);
  }

  // ---- the theorems ----

  /**
   * A nested disposal is triggered by the one enclosing it: when `x` begins while some disposal is open, the
   * innermost open one, `y`, leads to `x` in the cascade graph; every other open disposal began before `y`.
   */
  lemma TriggeredByEnclosing(s: State, t: seq<Event>, i: nat, x: FiberId) returns (y: FiberId, k: nat)
    requires Replay(s, t).Some? && i < |t| && t[i] == Began(x)
    requires exists b :: Began(b) in t[..i] && Ended(b) !in t[..i]
    ensures k < i && t[k] == Began(y) && Ended(y) !in t[..i]
    ensures Edge(s, y, x) && Due(s, y, BeganIn(t[..i]), x)
    ensures forall b :: Began(b) in t[..i] && Ended(b) !in t[..i] && b != y ==> Began(b) in t[..k]
  {
    var before := t[..i];
    var m := Before(s, t, i);
    var c :| Began(c) in before && Ended(c) !in before;
    BeganInMembers(before, c);
    var _ := OpenFibersAt(m.open, c);
    y := m.open[|m.open| - 1].fiber;
    DueIsEdge(s, y, m.seen, x);
    BeganInMembers(before, y);
    k :| 0 <= k < |before| && before[k] == Began(y);
    forall b | Began(b) in before && Ended(b) !in before && b != y ensures Began(b) in t[..k] {
      BeganInMembers(before, b);
      OpenBelowTop(s, before, b, k);
      assert before[..k] == t[..k];
      BeganInMembers(t[..k], b);
    }
  }

  /** A disposal that began inside another has ended whenever the outer one acts again or ends. */
  lemma InnerEndsFirst(s: State, t: seq<Event>, a: FiberId, b: FiberId, ba: nat, bb: nat, i: nat)
    requires Replay(s, t).Some? && ba < bb < i < |t|
    requires t[ba] == Began(a) && t[bb] == Began(b) && t[i].fiber == a
    ensures Ended(b) in t[..i]
  {
    var before := t[..i];
    var m := Before(s, t, i);
    assert before[ba] == Began(a) && before[bb] == Began(b);
    BeganInMembers(before, a);
    BeganInMembers(before, b);
    if Ended(b) !in before {
      assert before[..ba] == t[..ba];
      if a != b { OpenBelowTop(s, before, b, ba); }
      BeganInMembers(t[..ba], b);
      if a != b {
        var j :| 0 <= j < ba && t[j] == Began(b);
        BeginsOnce(s, t, j, bb);
      } else {
        BeginsOnce(s, t, ba, bb);
      }
    }
  }

  /** Disposal intervals are nested or disjoint. */
  lemma NestedOrDisjoint(s: State, t: seq<Event>, a: FiberId, b: FiberId, ba: nat, ea: nat, bb: nat, eb: nat)
    requires Replay(s, t).Some?
    requires ba < |t| && ea < |t| && bb < |t| && eb < |t|
    requires t[ba] == Began(a) && t[ea] == Ended(a) && t[bb] == Began(b) && t[eb] == Ended(b)
    ensures ba < ea && bb < eb
    ensures ba < bb ==> ea < bb || eb < ea
  {
    BeganBeforeEnded(s, t, a, ba, ea);
    BeganBeforeEnded(s, t, b, bb, eb);
    if ba < bb < ea {
      InnerEndsFirst(s, t, a, b, ba, bb, ea);
      var j :| 0 <= j < ea && t[j] == Ended(b);
      BeginsOnce(s, t, j, eb);
    }
  }

  /** Users go before children: a child that uses no service of `y` begins after every user of them has begun. */
  lemma UsersBeforeChildren(s: State, t: seq<Event>, i: nat, y: FiberId, x: FiberId, p: Provided, u: FiberId)
    requires i <= |t| && Due(s, y, BeganIn(t[..i]), x)
    requires forall q :: q in s.arena[y].provided ==> x !in Dependents(s, q.realm, q.key, y)
    requires p in s.arena[y].provided && u in Dependents(s, p.realm, p.key, y)
    ensures Began(u) in t[..i]
  {
    var seen := BeganIn(t[..i]);
    BeganInMembers(t[..i], u);
    forall j: nat ensures !DueAsUser(s, y, j, seen, x) {
      if j < |s.arena[y].provided| { assert s.arena[y].provided[j] in s.arena[y].provided; }
    }
    assert DueAsChild(s, y, seen, x);
  }

  lemma BeganBeforeEnded(s: State, t: seq<Event>, a: FiberId, ba: nat, ea: nat)
    requires Replay(s, t).Some? && ba < |t| && ea < |t| && t[ba] == Began(a) && t[ea] == Ended(a)
    ensures ba < ea
  {
    var m := Before(s, t, ea);
    var _ := OpenFibersAt(m.open, a);
    BeganInMembers(t[..ea], a);
    var j :| 0 <= j < ea && t[j] == Began(a);
    BeginsOnce(s, t, j, ba);
  }

  /**
   * Dependents and children go first. When a cleanup of `a` runs, everything `a` leads to has already
   * been torn down completely, except what encloses the disposal of `a` itself.
   */
  lemma CascadePrecedesEffects(s: State, t: seq<Event>, i: nat, a: FiberId, b: FiberId)
    requires Replay(s, t).Some? && i < |t| && t[i].Ran? && t[i].fiber == a && Edge(s, a, b)
    ensures Ended(b) in t[..i]
         || exists j, l :: 0 <= j < l < i && t[j] == Began(b) && t[l] == Began(a)
  {
    var before := t[..i];
    var m := Before(s, t, i);
    var _ := OpenFibersAt(m.open, a);
    BeganInMembers(before, a);
    BeganInMembers(before, b);
    if Ended(b) !in before {
      var l :| 0 <= l < |before| && before[l] == Began(a);
      OpenBelowTop(s, before, b, l);
      BeganInMembers(before[..l], b);
      var j :| 0 <= j < l && before[j] == Began(b);
      assert t[j] == Began(b) && t[l] == Began(a);
    }
  }

  /**
   * Services vanish only after their users: when the cleanup of a binding runs, every fiber that ran on
   * that binding has begun its own teardown.
   */
  lemma UsersBeforeServices(s: State, t: seq<Event>, i: nat, a: FiberId, r: RealmId, k: Key, v: Value, x: FiberId)
    requires CleanupsOk(s) && Replay(s, t).Some?
    requires i < |t| && t[i] == Ran(a, RemoveService(r, k, v))
    requires x in Dependents(s, r, k, a)
    ensures Began(x) in t[..i]
  {
    var m := Before(s, t, i);
    AccountedFor(s, t[..i]);
    var top := m.open[|m.open| - 1];
    assert top.owed[|top.owed| - 1] in top.owed;
    assert Provided(k, r) in s.arena[a].provided;
    assert Edge(s, a, x);
    BeganInMembers(t[..i], x);
  }

  /** Owed cleanups are the fiber's own, oldest first; the others have run, newest first. */
  ghost predicate Owes(s: State, t: seq<Event>, open: seq<Frame>)
  {
    open == [] ||
    var top := open[|open| - 1];
    && top.fiber in s.arena
    && EffectsOf(t, top.fiber) + Reverse(top.owed) == Reverse(s.arena[top.fiber].disposables)
    && (forall e :: e in top.owed ==> e in s.arena[top.fiber].disposables)
    && Owes(s, t, open[..|open| - 1])
  }

  lemma {:induction false} OwesUnaffected(s: State, t: seq<Event>, ev: Event, open: seq<Frame>)
    requires Owes(s, t, open)
    requires ev.Ran? ==> ev.fiber !in OpenFibers(open)
    ensures Owes(s, t + [ev], open)
  {
    assert (t + [ev])[..|t|] == t;
    if open != [] {
      OwesUnaffected(s, t, ev, open[..|open| - 1]);
    }
  }

  ghost predicate RanInOrder(s: State, t: seq<Event>)
  {
    && (forall x :: x in EndedIn(t) ==> x in s.arena && EffectsOf(t, x) == Reverse(s.arena[x].disposables))
    && (forall x :: x !in BeganIn(t) ==> EffectsOf(t, x) == [])
  }

  lemma {:induction false} AccountedFor(s: State, t: seq<Event>)
    requires Replay(s, t).Some?
    ensures Owes(s, t, Replay(s, t).value.open) && RanInOrder(s, t)
    decreases |t|
  {
    if t != [] {
      var t0, ev := t[..|t| - 1], t[|t| - 1];
      AccountedFor(s, t0);
      AcceptedIsRecorded(s, t0);
      assert t == t0 + [ev];
      OwesStep(s, t0, Replay(s, t0).value, ev);
      RanStep(s, t0, Replay(s, t0).value, ev);
    }
  }

  lemma OwesMore(s: State, t: seq<Event>, open: seq<Frame>, top: Frame)
    requires Owes(s, t, open) && top.fiber in s.arena
    requires EffectsOf(t, top.fiber) + Reverse(top.owed) == Reverse(s.arena[top.fiber].disposables)
    requires forall e :: e in top.owed ==> e in s.arena[top.fiber].disposables
    ensures Owes(s, t, open + [top])
  {
    assert (open + [top])[..|open|] == open;
  }

  lemma OwesBegan(s: State, t0: seq<Event>, m0: Machine, x: FiberId)
    requires Step(s, m0, Began(x)).Some? && Owes(s, t0, m0.open) && EffectsOf(t0, x) == []
    ensures Owes(s, t0 + [Began(x)], Step(s, m0, Began(x)).value.open)
  {
    assert (t0 + [Began(x)])[..|t0|] == t0;
    OwesUnaffected(s, t0, Began(x), m0.open);
    OwesMore(s, t0 + [Began(x)], m0.open, Frame(x, s.arena[x].disposables));
  }

  lemma OwesRan(s: State, t0: seq<Event>, m0: Machine, x: FiberId, e: Effect)
    requires Step(s, m0, Ran(x, e)).Some? && Owes(s, t0, m0.open) && OpenOnce(m0.open)
    ensures Owes(s, t0 + [Ran(x, e)], Step(s, m0, Ran(x, e)).value.open)
  {
    var below, owed := m0.open[..|m0.open| - 1], m0.open[|m0.open| - 1].owed;
    assert (t0 + [Ran(x, e)])[..|t0|] == t0;
    OwesUnaffected(s, t0, Ran(x, e), below);
    ReverseLast(owed);
    Associate(EffectsOf(t0, x), [e], Reverse(owed[..|owed| - 1]));
    OwesMore(s, t0 + [Ran(x, e)], below, Frame(x, owed[..|owed| - 1]));
  }

  lemma OwesStep(s: State, t0: seq<Event>, m0: Machine, ev: Event)
    requires Step(s, m0, ev).Some? && Owes(s, t0, m0.open) && RanInOrder(s, t0)
    requires OpenOnce(m0.open) && m0.seen == BeganIn(t0)
    ensures Owes(s, t0 + [ev], Step(s, m0, ev).value.open)
  {
    match ev
    case Began(x) => OwesBegan(s, t0, m0, x);
    case Ran(x, e) => OwesRan(s, t0, m0, x, e);
    case Ended(_) => OwesUnaffected(s, t0, ev, m0.open[..|m0.open| - 1]);
  }

  lemma RanStep(s: State, t0: seq<Event>, m0: Machine, ev: Event)
    requires Step(s, m0, ev).Some? && Owes(s, t0, m0.open) && RanInOrder(s, t0)
    requires OpenFibers(m0.open) == BeganIn(t0) - EndedIn(t0)
    ensures RanInOrder(s, t0 + [ev])
  {
    var t := t0 + [ev];
    assert t[..|t0|] == t0;
    if !ev.Began? {
      assert m0.open[|m0.open| - 1].fiber in OpenFibers(m0.open);
    }
    if ev.Ended? {
      assert Reverse<Effect>([]) == [];
    }
  }

  /** Each disposed fiber's cleanups ran exactly once, in reverse registration order. */
  lemma EffectsRunOnceLifo(s: State, t: seq<Event>, x: FiberId)
    requires Replay(s, t).Some?
    ensures Ended(x) in t ==> x in s.arena && EffectsOf(t, x) == Reverse(s.arena[x].disposables)
    ensures Began(x) !in t ==> EffectsOf(t, x) == []
  {
    AccountedFor(s, t);
    BeganInMembers(t, x);
  }

  /** A complete trace ends everything it begins. */
  lemma CompleteTrace(s: State, t: seq<Event>, torn: set<FiberId>)
    requires Replay(s, t) == Some(Machine([], torn))
    ensures forall x :: (x in torn <==> Began(x) in t) && (x in torn <==> Ended(x) in t)
  {
    AcceptedIsRecorded(s, t);
    forall x ensures (x in torn <==> Began(x) in t) && (x in torn <==> Ended(x) in t) {
      BeganInMembers(t, x);
    }
  }
}
