// What several disposals in a row log: one accepted trace each, and no fiber in two of them.

module Logs {
  import opened Basics
  import opened KernelState
  import opened Disposal
  import opened Teardown
  import opened Trace

  function Joined(traces: seq<seq<Event>>): seq<Event>
  {
    if traces == [] then [] else Joined(traces[..|traces| - 1]) + traces[|traces| - 1]
  }

  /** The trace of the `i`th disposal is accepted over the graph it began in and tears down its closure there. */
  ghost predicate TornAt(s: State, fs: seq<FiberId>, traces: seq<seq<Event>>, i: nat)
  {
    && i < |fs| && i < |traces|
    && Replay(DisposeEach(s, fs[..i]), traces[i]) == Some(Machine([], Doomed(DisposeEach(s, fs[..i]), fs[i])))
  }

  ghost predicate TornInTurn(s: State, fs: seq<FiberId>, traces: seq<seq<Event>>)
  {
    |traces| == |fs| && forall i :: 0 <= i < |fs| ==> TornAt(s, fs, traces, i)
  }

  /** The log grew by the traces of disposing the fibers of `roots`, in some order. */
  ghost predicate LogsTeardowns(s: State, roots: set<FiberId>, before: seq<Event>, after: seq<Event>)
  {
    exists fs: seq<FiberId>, traces ::
      Elements(fs) == roots && TornInTurn(s, fs, traces) && after == before + Joined(traces)
  }

  lemma NothingTorn(s: State, log: seq<Event>)
    ensures LogsTeardowns(s, {}, log, log)
  {
    assert Elements<FiberId>([]) == {} && TornInTurn(s, [], []) && log + Joined([]) == log;
  }

  lemma TornOnceMore(s: State, fs: seq<FiberId>, traces: seq<seq<Event>>, f: FiberId, trace: seq<Event>)
    requires TornInTurn(s, fs, traces)
    requires Replay(DisposeEach(s, fs), trace) == Some(Machine([], Doomed(DisposeEach(s, fs), f)))
    ensures TornInTurn(s, fs + [f], traces + [trace]) && Joined(traces + [trace]) == Joined(traces) + trace
  {
    var gs, all := fs + [f], traces + [trace];
    assert all[..|traces|] == traces;
    forall i | 0 <= i < |gs| ensures TornAt(s, gs, all, i) {
      if i < |fs| {
        assert TornAt(s, fs, traces, i) && gs[..i] == fs[..i];
      } else {
        assert gs[..i] == fs;
      }
    }
  }

  lemma RegistryAfterOne(s: State, f: FiberId)
    ensures DisposeState(s, f, Disposed).registry == s.registry - Doomed(s, f)
  {
  }

  lemma RegistryStep(s: State, fs: seq<FiberId>, n: nat)
    requires n < |fs|
    ensures var before := DisposeEach(s, fs[..n]);
            DisposeEach(s, fs[..n + 1]).registry == before.registry - Doomed(before, fs[n])
  {
    assert fs[..n + 1][..n] == fs[..n];
    RegistryAfterOne(DisposeEach(s, fs[..n]), fs[n]);
  }

  lemma {:induction false} RegistryOnlyShrinks(s: State, fs: seq<FiberId>, n: nat, m: nat)
    requires n <= m <= |fs|
    ensures DisposeEach(s, fs[..m]).registry <= DisposeEach(s, fs[..n]).registry
    decreases m
  {
    if n < m {
      RegistryOnlyShrinks(s, fs, n, m - 1);
      RegistryStep(s, fs, m - 1);
    }
  }

  /** Once a disposal took its closure out of the registry, it stays out. */
  lemma RegistryAfter(s: State, fs: seq<FiberId>, i: nat, j: nat)
    requires i < j <= |fs|
    ensures DisposeEach(s, fs[..j]).registry !! Doomed(DisposeEach(s, fs[..i]), fs[i])
  {
    RegistryStep(s, fs, i);
    RegistryOnlyShrinks(s, fs, i + 1, j);
  }

  /** No fiber falls twice: the disposals of one row tear down disjoint sets. */
  lemma NoFiberFallsTwice(s: State, fs: seq<FiberId>, traces: seq<seq<Event>>, i: nat, j: nat, x: FiberId)
    requires TornInTurn(s, fs, traces) && i < j < |fs|
    ensures !(Began(x) in traces[i] && Began(x) in traces[j])
  {
    var si, sj := DisposeEach(s, fs[..i]), DisposeEach(s, fs[..j]);
    assert TornAt(s, fs, traces, i) && TornAt(s, fs, traces, j);
    CompleteTrace(si, traces[i], Doomed(si, fs[i]));
    CompleteTrace(sj, traces[j], Doomed(sj, fs[j]));
    RegistryAfter(s, fs, i, j);
  }
}
