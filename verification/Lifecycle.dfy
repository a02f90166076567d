// The life of fibers under every interleaving of the asynchronous operations. A move is what runs
// between two awaits; any fiber may move next, and any disposal may begin at any time.

module Lifecycle {
  import opened Basics
  import opened KernelState

  /** How far the disposal of a fiber has come. */
  datatype Stage =
    | Untouched
    | Cascading                 // the flag is raised; tasks, dependents and children are being stopped
    | Draining(batch: seq<nat>) // a batch of cleanups was taken; these are left to run
    | Gone

  /**
   * One fiber. `pushed` holds the cleanups waiting in its list; the last fields record its history: the
   * cleanups it accepted, the batches its disposal took and the cleanups that ran, all in order, and how often
   * its setup and its disposal began.
   */
  datatype Life = Life(
    phase: Phase,
    registered: bool,
    stage: Stage,
    final: Phase,
    pushed: seq<nat>,
    accepted: seq<nat>,
    taken: seq<seq<nat>>,
    ran: seq<nat>,
    setups: nat,
    disposals: nat)

  datatype System = System(fibers: map<FiberId, Life>, queue: set<FiberId>)

  datatype Birth = Queued | Started | Forked | BornDead

  datatype Move =
    | Spawn(id: FiberId, birth: Birth)          // register, register_batch, fork
    | WakeUp(woken: set<FiberId>)               // one wake-up pass takes these entries from the queue
    | SetupReturned(id: FiberId)                // apply returned Ok
    | Begin(id: FiberId, final: Phase)          // dispose_fiber is entered, with Failed after a failed setup
    | Take(id: FiberId)                         // the drain loop takes the list; an empty one ends the disposal
    | RunOne(id: FiberId)                       // the next cleanup of the batch completes
    | Accept(id: FiberId, token: nat)           // Ctx::effect, also while the fiber is being disposed

  function Newborn(phase: Phase): Life
  {
    Life(phase, true, Untouched, Disposed, [], [], [], [], 0, 0)
  }

  function Start(life: Life): Life
  {
    if life.stage.Untouched? then life.(phase := Starting, setups := life.setups + 1) else life
  }

  function TakeFrom(life: Life): Life
  {
    if life.pushed != []
    then life.(stage := Draining(life.pushed), taken := life.taken + [life.pushed], pushed := [])
    else life.(stage := Gone, phase := life.final, registered := false)
  }

  function BeginOf(life: Life, final: Phase): Life
  {
    if life.stage.Untouched? && final.Terminal()
    then life.(stage := Cascading, final := final, disposals := life.disposals + 1) else life
  }

  function ReadyFrom(life: Life): Life
  {
    if life.setups > 0 && life.phase.Starting? && life.stage.Untouched? then life.(phase := Ready) else life
  }

  function RunLast(life: Life): Life
  {
    if life.stage.Draining? && life.stage.batch != []
    then var last := |life.stage.batch| - 1;
         life.(stage := Draining(life.stage.batch[..last]), ran := life.ran + [life.stage.batch[last]])
    else life
  }

  function AcceptInto(life: Life, token: nat): Life
  {
    if life.registered
    then life.(pushed := life.pushed + [token], accepted := life.accepted + [token]) else life
  }

  predicate Takes(life: Life)
  {
    life.stage.Cascading? || life.stage == Draining([])
  }

  function Born(s: System, id: FiberId, birth: Birth): System
  {
    match birth
    case Queued => System(s.fibers[id := Newborn(Pending)], s.queue + {id})
    case Started => s.(fibers := s.fibers[id := Start(Newborn(Pending))])
    case Forked => s.(fibers := s.fibers[id := Newborn(Ready)])
    case BornDead => s.(fibers := s.fibers[id := Newborn(Disposed).(registered := false, stage := Gone)])
  }

  function Woken(s: System, woken: set<FiberId>): System
  {
    System(map f | f in s.fibers :: if f in woken && f in s.queue then Start(s.fibers[f]) else s.fibers[f],
           s.queue - woken)
  }

  /** What a move does; a move that is not possible does nothing. */
  function Next(s: System, m: Move): System
  {
    match m
    case Spawn(id, birth) => if id in s.fibers then s else Born(s, id, birth)
    case WakeUp(woken) => Woken(s, woken)
    case SetupReturned(id) =>
      if id in s.fibers then s.(fibers := s.fibers[id := ReadyFrom(s.fibers[id])]) else s
    case Begin(id, final) =>
      if id in s.fibers then s.(fibers := s.fibers[id := BeginOf(s.fibers[id], final)]) else s
    case Take(id) =>
      if id in s.fibers && Takes(s.fibers[id])
      then System(s.fibers[id := TakeFrom(s.fibers[id])], if s.fibers[id].pushed == [] then s.queue - {id} else s.queue)
      else s
    case RunOne(id) =>
      if id in s.fibers then s.(fibers := s.fibers[id := RunLast(s.fibers[id])]) else s
    case Accept(id, token) =>
      if id in s.fibers then s.(fibers := s.fibers[id := AcceptInto(s.fibers[id], token)]) else s
  }

  /** The root fiber is born ready. */
  function Origin(): System
  {
    System(map[ROOT_FIBER := Newborn(Ready)], {})
  }

  function Exec(moves: seq<Move>): System
  {
    if moves == [] then Origin() else Next(Exec(moves[..|moves| - 1]), moves[|moves| - 1])
  }

  // ---- the invariant ----

  function Batch(life: Life): seq<nat>
  {
    if life.stage.Draining? then life.stage.batch else []
  }

  function Flat(batches: seq<seq<nat>>): seq<nat>
  {
    if batches == [] then [] else Flat(batches[..|batches| - 1]) + batches[|batches| - 1]
  }

  /** Each batch newest first, in the order the batches were taken. */
  function Undone(batches: seq<seq<nat>>): seq<nat>
  {
    if batches == [] then [] else Undone(batches[..|batches| - 1]) + Reverse(batches[|batches| - 1])
  }

  ghost predicate LifeOk(life: Life, queued: bool)
  {
    // what was accepted went into the batches, in order, or still waits
    && life.accepted == Flat(life.taken) + life.pushed
    // batch after batch runs newest first; what is left of the last batch is still to run
    && life.ran + Reverse(Batch(life)) == Undone(life.taken)
    && (life.stage.Gone? <==> !life.registered)
    && (life.stage.Gone? <==> life.phase.Terminal())
    && (life.stage.Gone? ==> life.pushed == [] && !queued)
    && (life.stage.Gone? && life.disposals == 1 ==> life.phase == life.final)
    && (life.stage.Cascading? || life.stage.Draining? ==> life.disposals == 1)
    && life.final.Terminal()
    && life.setups <= 1 && life.disposals <= 1
    && (life.stage.Untouched? ==> life.disposals == 0)
    && (queued ==> life.setups == 0 && life.phase.Pending?)
    && (life.phase.Pending? ==> life.setups == 0)
    && (life.phase.Pending? && life.stage.Untouched? ==> queued)
  }

  ghost predicate SystemOk(s: System)
  {
    && s.queue <= s.fibers.Keys
    && forall f :: f in s.fibers ==> LifeOk(s.fibers[f], f in s.queue)
  }

  /** `after` is a later stage of the same life. */
  ghost predicate Forward(before: Life, after: Life)
  {
    && Rank(before.phase) <= Rank(after.phase)
    && (before.phase.Terminal() ==> after == before)
    && before.accepted <= after.accepted && before.taken <= after.taken && before.ran <= after.ran
    && before.setups <= after.setups && before.disposals <= after.disposals
    && (!before.registered ==> !after.registered)
  }

  function Rank(p: Phase): nat
  {
    match p
    case Pending => 0
    case Starting => 1
    case Ready => 2
    case Failed => 3
    case Disposed => 3
  }

  lemma OneMoreBatch(batches: seq<seq<nat>>, batch: seq<nat>)
    ensures Flat(batches + [batch]) == Flat(batches) + batch
    ensures Undone(batches + [batch]) == Undone(batches) + Reverse(batch)
  {
    assert (batches + [batch])[..|batches|] == batches;
  }

  lemma StartAdvances(life: Life)
    requires LifeOk(life, true)
    ensures LifeOk(Start(life), false) && Forward(life, Start(life))
  {
  }

  lemma ReadyAdvances(life: Life, queued: bool)
    requires LifeOk(life, queued)
    ensures LifeOk(ReadyFrom(life), queued) && Forward(life, ReadyFrom(life))
  {
  }

  lemma BeginAdvances(life: Life, queued: bool, final: Phase)
    requires LifeOk(life, queued)
    ensures LifeOk(BeginOf(life, final), queued) && Forward(life, BeginOf(life, final))
  {
  }

  lemma TakeAdvances(life: Life, queued: bool)
    requires LifeOk(life, queued) && Takes(life)
    ensures LifeOk(TakeFrom(life), queued && life.pushed != []) && Forward(life, TakeFrom(life))
  {
    assert Reverse<nat>([]) == [] && life.ran + [] == life.ran;
    OneMoreBatch(life.taken, life.pushed);
    assert Flat(life.taken) + life.pushed + [] == Flat(life.taken) + life.pushed;
  }

  lemma RunAdvances(life: Life, queued: bool)
    requires LifeOk(life, queued)
    ensures LifeOk(RunLast(life), queued) && Forward(life, RunLast(life))
  {
    if life.stage.Draining? && life.stage.batch != [] {
      var batch := life.stage.batch;
      ReverseLast(batch);
      Associate(life.ran, [batch[|batch| - 1]], Reverse(batch[..|batch| - 1]));
    }
  }

  lemma AcceptAdvances(life: Life, queued: bool, token: nat)
    requires LifeOk(life, queued)
    ensures LifeOk(AcceptInto(life, token), queued) && Forward(life, AcceptInto(life, token))
  {
    Associate(Flat(life.taken), life.pushed, [token]);
  }

  /** `t` is a system in order that every life of `s` has moved forward into. */
  ghost predicate Onward(s: System, t: System)
  {
    SystemOk(t) && forall f :: f in s.fibers ==> f in t.fibers && Forward(s.fibers[f], t.fibers[f])
  }

  lemma OneLifeMoves(s: System, id: FiberId, life: Life, queue: set<FiberId>)
    requires SystemOk(s) && queue - {id} == s.queue - {id}
    requires LifeOk(life, id in queue)
    requires id in s.fibers ==> Forward(s.fibers[id], life)
    ensures Onward(s, System(s.fibers[id := life], queue))
  {
    var t := System(s.fibers[id := life], queue);
    forall f | f in t.queue ensures f in t.fibers {
      if f != id { assert f in queue - {id}; }
    }
    forall f | f in t.fibers ensures LifeOk(t.fibers[f], f in t.queue) {
      if f != id { assert f in queue <==> f in queue - {id}; }
    }
    forall f | f in s.fibers ensures Forward(s.fibers[f], t.fibers[f]) {
      if f != id { StaysForward(s.fibers[f]); }
    }
  }

  lemma StaysForward(life: Life)
    ensures Forward(life, life)
  {
  }

  lemma BirthMoves(s: System, id: FiberId, birth: Birth)
    requires SystemOk(s) && id !in s.fibers
    ensures Onward(s, Next(s, Spawn(id, birth)))
  {
    var t := Born(s, id, birth);
    assert id !in s.queue;
    OneLifeMoves(s, id, t.fibers[id], t.queue);
  }

  lemma WakeMoves(s: System, woken: set<FiberId>)
    requires SystemOk(s)
    ensures Onward(s, Next(s, WakeUp(woken)))
  {
    var t := Woken(s, woken);
    forall f | f in s.fibers ensures LifeOk(t.fibers[f], f in t.queue) && Forward(s.fibers[f], t.fibers[f]) {
      assert LifeOk(s.fibers[f], f in s.queue);
      if f in woken && f in s.queue { StartAdvances(s.fibers[f]); } else { StaysForward(s.fibers[f]); }
    }
  }

  lemma NothingMoves(s: System)
    requires SystemOk(s)
    ensures Onward(s, s)
  {
    forall f | f in s.fibers ensures Forward(s.fibers[f], s.fibers[f]) { StaysForward(s.fibers[f]); }
  }

  lemma TakeIs(s: System, id: FiberId)
    requires id in s.fibers && Takes(s.fibers[id])
    ensures Next(s, Take(id)) == System(s.fibers[id := TakeFrom(s.fibers[id])],
                                        if s.fibers[id].pushed == [] then s.queue - {id} else s.queue)
  {
  }

  lemma TakeMoves(s: System, id: FiberId)
    requires SystemOk(s) && id in s.fibers && Takes(s.fibers[id])
    ensures Onward(s, Next(s, Take(id)))
  {
    var life := s.fibers[id];
    TakeIs(s, id);
    TakeAdvances(life, id in s.queue);
    OneLifeMoves(s, id, TakeFrom(life), if life.pushed == [] then s.queue - {id} else s.queue);
  }

  /** What the moves of one fiber do to the system. */
  lemma OwnMoves(s: System, id: FiberId, final: Phase, token: nat)
    requires id in s.fibers
    ensures Next(s, SetupReturned(id)) == System(s.fibers[id := ReadyFrom(s.fibers[id])], s.queue)
    ensures Next(s, Begin(id, final)) == System(s.fibers[id := BeginOf(s.fibers[id], final)], s.queue)
    ensures Next(s, RunOne(id)) == System(s.fibers[id := RunLast(s.fibers[id])], s.queue)
    ensures Next(s, Accept(id, token)) == System(s.fibers[id := AcceptInto(s.fibers[id], token)], s.queue)
  {
  }

  lemma ReturnMoves(s: System, id: FiberId)
    requires SystemOk(s) && id in s.fibers
    ensures Onward(s, Next(s, SetupReturned(id)))
  {
    OwnMoves(s, id, Disposed, 0);
    ReadyAdvances(s.fibers[id], id in s.queue);
    OneLifeMoves(s, id, ReadyFrom(s.fibers[id]), s.queue);
  }

  lemma BeginMoves(s: System, id: FiberId, final: Phase)
    requires SystemOk(s) && id in s.fibers
    ensures Onward(s, Next(s, Begin(id, final)))
  {
    OwnMoves(s, id, final, 0);
    BeginAdvances(s.fibers[id], id in s.queue, final);
    OneLifeMoves(s, id, BeginOf(s.fibers[id], final), s.queue);
  }

  lemma RunMoves(s: System, id: FiberId)
    requires SystemOk(s) && id in s.fibers
    ensures Onward(s, Next(s, RunOne(id)))
  {
    OwnMoves(s, id, Disposed, 0);
    RunAdvances(s.fibers[id], id in s.queue);
    OneLifeMoves(s, id, RunLast(s.fibers[id]), s.queue);
  }

  lemma AcceptMoves(s: System, id: FiberId, token: nat)
    requires SystemOk(s) && id in s.fibers
    ensures Onward(s, Next(s, Accept(id, token)))
  {
    OwnMoves(s, id, Disposed, token);
    AcceptAdvances(s.fibers[id], id in s.queue, token);
    OneLifeMoves(s, id, AcceptInto(s.fibers[id], token), s.queue);
  }

  /** Whether the move is made by a fiber that exists, or is a birth, or a wake-up. */
  predicate Possible(s: System, m: Move)
  {
    match m
    case WakeUp(_) => true
    case Spawn(id, _) => id !in s.fibers
    case Take(id) => id in s.fibers && Takes(s.fibers[id])
    case SetupReturned(id) => id in s.fibers
    case Begin(id, _) => id in s.fibers
    case RunOne(id) => id in s.fibers
    case Accept(id, _) => id in s.fibers
  }

  lemma ImpossibleMoves(s: System, m: Move)
    requires SystemOk(s) && !Possible(s, m)
    ensures Onward(s, Next(s, m))
  {
    NothingMoves(s);
    assert Next(s, m) == s;
  }

  /** One move keeps every life in order and only moves it forward. */
  lemma MoveKeeps(s: System, m: Move)
    requires SystemOk(s)
    ensures Onward(s, Next(s, m))
  {
    if !Possible(s, m) {
      ImpossibleMoves(s, m);
    } else {
      match m
      case Spawn(id, birth) => BirthMoves(s, id, birth);
      case WakeUp(woken) => WakeMoves(s, woken);
      case SetupReturned(id) => ReturnMoves(s, id);
      case Begin(id, final) => BeginMoves(s, id, final);
      case Take(id) => TakeMoves(s, id);
      case RunOne(id) => RunMoves(s, id);
      case Accept(id, token) => AcceptMoves(s, id, token);
    }
  }

  lemma {:induction false} EveryRunIsOk(moves: seq<Move>)
    ensures SystemOk(Exec(moves))
  {
    if moves != [] {
      EveryRunIsOk(moves[..|moves| - 1]);
      MoveKeeps(Exec(moves[..|moves| - 1]), moves[|moves| - 1]);
    }
  }

  // ---- the theorems ----

  /**
   * However a run continues: phases only move forward, Failed and Disposed are never left, and nothing is
   * forgotten about what was accepted and what ran.
   */
  lemma {:induction false} LivesMoveForward(moves: seq<Move>, more: seq<Move>, f: FiberId)
    requires f in Exec(moves).fibers
    ensures f in Exec(moves + more).fibers && Forward(Exec(moves).fibers[f], Exec(moves + more).fibers[f])
    decreases |more|
  {
    if more == [] {
      assert moves + more == moves;
      StaysForward(Exec(moves).fibers[f]);
    } else {
      var init := moves + more[..|more| - 1];
      LivesMoveForward(moves, more[..|more| - 1], f);
      LastPart(more);
      Associate(moves, more[..|more| - 1], [more[|more| - 1]]);
      ExecThen(init, more[|more| - 1]);
      ForwardIsTransitive(Exec(moves).fibers[f], Exec(init).fibers[f], Exec(moves + more).fibers[f]);
    }
  }

  lemma ExecThen(moves: seq<Move>, m: Move)
    ensures Exec(moves + [m]) == Next(Exec(moves), m) && Onward(Exec(moves), Exec(moves + [m]))
  {
    assert (moves + [m])[..|moves|] == moves;
    EveryRunIsOk(moves);
    MoveKeeps(Exec(moves), m);
  }

  lemma ForwardIsTransitive(a: Life, b: Life, c: Life)
    requires Forward(a, b) && Forward(b, c)
    ensures Forward(a, c)
  {
  }

  /** Over every interleaving: setup begins at most once, and one disposal at most ever proceeds. */
  lemma OnceEach(moves: seq<Move>, f: FiberId)
    requires f in Exec(moves).fibers
    ensures Exec(moves).fibers[f].setups <= 1 && Exec(moves).fibers[f].disposals <= 1
  {
    EveryRunIsOk(moves);
  }

  lemma {:induction false} UndoneIsFlat(batches: seq<seq<nat>>)
    ensures multiset(Undone(batches)) == multiset(Flat(batches))
  {
    if batches != [] {
      UndoneIsFlat(batches[..|batches| - 1]);
      ReverseCounts(batches[|batches| - 1]);
    }
  }

  lemma {:induction false} ReverseCounts(q: seq<nat>)
    ensures multiset(Reverse(q)) == multiset(q)
  {
    if q != [] {
      ReverseCounts(q[1..]);
      assert q == [q[0]] + q[1..];
    }
  }

  /** Conservation: what was accepted has run, is in the batch, or still waits. */
  lemma Conserved(life: Life, queued: bool)
    requires LifeOk(life, queued)
    ensures multiset(life.accepted) == multiset(life.ran) + multiset(Batch(life)) + multiset(life.pushed)
  {
    UndoneIsFlat(life.taken);
    ReverseCounts(Batch(life));
  }

  /**
   * A fiber that has left the registry ran every cleanup it ever accepted, exactly as often as it was
   * accepted, however its disposal raced with late registrations; and it accepts no more.
   */
  lemma EffectsRunExactlyOnce(moves: seq<Move>, f: FiberId, more: seq<Move>)
    requires f in Exec(moves).fibers && !Exec(moves).fibers[f].registered
    ensures multiset(Exec(moves).fibers[f].ran) == multiset(Exec(moves).fibers[f].accepted)
    ensures f in Exec(moves + more).fibers && Exec(moves + more).fibers[f] == Exec(moves).fibers[f]
  {
    EveryRunIsOk(moves);
    Conserved(Exec(moves).fibers[f], f in Exec(moves).queue);
    LivesMoveForward(moves, more, f);
  }

  /**
   * The order of cleanups under every interleaving: the accepted cleanups, in order, are cut into the batches
   * the drain loop takes, and each batch runs newest first before the next is taken. Only late registrations
   * make more than one batch.
   */
  lemma BatchesRunNewestFirst(moves: seq<Move>, f: FiberId)
    requires f in Exec(moves).fibers
    ensures var life := Exec(moves).fibers[f];
            && life.accepted == Flat(life.taken) + life.pushed
            && life.ran + Reverse(Batch(life)) == Undone(life.taken)
            && (!life.registered ==> life.accepted == Flat(life.taken) && life.ran == Undone(life.taken))
  {
    EveryRunIsOk(moves);
    assert Reverse<nat>([]) == [];
  }

  /** Cleanups that were all accepted before the first batch was taken run in reverse registration order. */
  lemma OneBatchIsReversed(moves: seq<Move>, f: FiberId)
    requires f in Exec(moves).fibers && !Exec(moves).fibers[f].registered && |Exec(moves).fibers[f].taken| <= 1
    ensures Exec(moves).fibers[f].ran == Reverse(Exec(moves).fibers[f].accepted)
  {
    var life := Exec(moves).fibers[f];
    BatchesRunNewestFirst(moves, f);
    if life.taken == [] {
      assert life.accepted == [] && Reverse<nat>([]) == [];
    } else {
      OneMoreBatch([], life.taken[0]);
      assert life.taken == [] + [life.taken[0]];
      assert Flat(life.taken) == life.taken[0] && Undone(life.taken) == Reverse(life.taken[0]);
    }
  }

  /** A cleanup that was accepted and has not run yet belongs to a fiber still registered. */
  lemma OwedWhileRegistered(moves: seq<Move>, f: FiberId, token: nat)
    requires f in Exec(moves).fibers
    ensures var life := Exec(moves).fibers[f];
            multiset(life.ran)[token] < multiset(life.accepted)[token] ==>
              life.registered && (token in Batch(life) || token in life.pushed)
  {
    EveryRunIsOk(moves);
    var life := Exec(moves).fibers[f];
    Conserved(life, f in Exec(moves).queue);
    assert multiset(life.accepted)[token]
        == multiset(life.ran)[token] + multiset(Batch(life))[token] + multiset(life.pushed)[token];
  }

  // ---- what moves achieve ----

  /** A setup that is not cut off by a disposal makes its fiber Ready. */
  lemma ReturnedSetupIsReady(s: System, id: FiberId)
    requires id in s.fibers && s.fibers[id].phase.Starting? && s.fibers[id].setups > 0 && s.fibers[id].stage.Untouched?
    ensures Next(s, SetupReturned(id)).fibers[id].phase.Ready?
  {
  }

  /** A pass starts the setup of exactly the fibers it takes from the queue whose disposal has not begun. */
  lemma PassStartsSetups(s: System, woken: set<FiberId>, f: FiberId)
    requires f in s.fibers
    ensures var t := Next(s, WakeUp(woken));
            && f in t.fibers && (f in t.queue <==> f in s.queue && f !in woken)
            && if f in woken && f in s.queue && s.fibers[f].stage.Untouched?
               then t.fibers[f].phase.Starting? && t.fibers[f].setups == s.fibers[f].setups + 1
               else t.fibers[f] == s.fibers[f]
  {
  }

  /** Once its disposal has begun, a fiber's setup is never started, and its phase changes only to the final one. */
  ghost predicate Sealed(before: Life, after: Life)
  {
    !before.stage.Untouched? ==>
      && !after.stage.Untouched? && after.setups == before.setups && after.final == before.final
      && (after.phase == before.phase || after.phase == before.final)
  }

  lemma MoveSeals(s: System, m: Move, f: FiberId)
    requires f in s.fibers
    ensures f in Next(s, m).fibers && Sealed(s.fibers[f], Next(s, m).fibers[f])
  {
  }

  lemma {:induction false} DisposalSeals(moves: seq<Move>, more: seq<Move>, f: FiberId)
    requires f in Exec(moves).fibers
    ensures f in Exec(moves + more).fibers && Sealed(Exec(moves).fibers[f], Exec(moves + more).fibers[f])
    decreases |more|
  {
    if more == [] {
      assert moves + more == moves;
    } else {
      var init := moves + more[..|more| - 1];
      DisposalSeals(moves, more[..|more| - 1], f);
      LastPart(more);
      Associate(moves, more[..|more| - 1], [more[|more| - 1]]);
      assert (init + [more[|more| - 1]])[..|init|] == init;
      MoveSeals(Exec(init), more[|more| - 1], f);
    }
  }

  lemma AcceptedHasRun(before: Life, after: Life, token: nat)
    requires token in before.accepted && Forward(before, after) && LifeOk(after, false) && !after.registered
    ensures token in after.ran
  {
    Conserved(after, false);
    var i :| 0 <= i < |before.accepted| && before.accepted[i] == token;
    assert after.accepted[i] == token && token in multiset(after.accepted);
    assert token in multiset(after.ran);
  }

  lemma AcceptedAtOnce(s: System, f: FiberId, token: nat)
    requires f in s.fibers && s.fibers[f].registered
    ensures f in Next(s, Accept(f, token)).fibers && token in Next(s, Accept(f, token)).fibers[f].accepted
  {
  }

  /** A registered fiber accepts a cleanup even while it is being disposed, and has run it when it leaves. */
  lemma LateEffectsRun(moves: seq<Move>, f: FiberId, token: nat, mid: seq<Move>, more: seq<Move>)
    requires f in Exec(moves).fibers && Exec(moves).fibers[f].registered && mid == moves + [Accept(f, token)]
    requires f in Exec(mid + more).fibers && !Exec(mid + more).fibers[f].registered
    ensures token in Exec(mid + more).fibers[f].ran
  {
    ExecThen(moves, Accept(f, token));
    AcceptedAtOnce(Exec(moves), f, token);
    LivesMoveForward(mid, more, f);
    EveryRunIsOk(mid + more);
    AcceptedHasRun(Exec(mid).fibers[f], Exec(mid + more).fibers[f], token);
  }

  lemma BeginSeals(s: System, f: FiberId, final: Phase)
    requires f in s.fibers && s.fibers[f].stage.Untouched? && s.fibers[f].disposals == 0 && final.Terminal()
    ensures f in Next(s, Begin(f, final)).fibers
    ensures var life := Next(s, Begin(f, final)).fibers[f];
            !life.stage.Untouched? && life.final == final && life.disposals == 1
  {
  }

  lemma EndsIn(before: Life, after: Life, final: Phase)
    requires !before.stage.Untouched? && before.final == final && before.disposals == 1
    requires Sealed(before, after) && Forward(before, after) && LifeOk(after, false) && !after.registered
    ensures after.phase == final
  {
  }

  /** A disposal ends in the phase it began with: Failed after a failed setup, Disposed otherwise. */
  lemma EndsAsBegun(moves: seq<Move>, f: FiberId, final: Phase, mid: seq<Move>, more: seq<Move>)
    requires f in Exec(moves).fibers && Exec(moves).fibers[f].stage.Untouched? && final.Terminal()
    requires mid == moves + [Begin(f, final)] && f in Exec(mid + more).fibers && !Exec(mid + more).fibers[f].registered
    ensures Exec(mid + more).fibers[f].phase == final
  {
    EveryRunIsOk(moves);
    ExecThen(moves, Begin(f, final));
    BeginSeals(Exec(moves), f, final);
    LivesMoveForward(mid, more, f);
    DisposalSeals(mid, more, f);
    EveryRunIsOk(mid + more);
    EndsIn(Exec(mid).fibers[f], Exec(mid + more).fibers[f], final);
  }
}
