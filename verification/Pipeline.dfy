// The order of a pipeline's middlewares: a sort that equals a deque per realm, realm after realm.

module Pipeline {
  import opened Basics
  import opened KernelState
  import opened Disposal

  /** Where each realm of the slice stands. */
  ghost predicate Indexes(order: map<RealmId, nat>, slice: seq<RealmId>)
  {
    && (forall r :: r in order <==> r in slice)
    && (forall i :: 0 <= i < |slice| ==> slice[i] in order && order[slice[i]] == i)
  }

  /** The comparator of `pipeline_chain`: slice order, then prepends newest first, then appends oldest first. */
  predicate Before(order: map<RealmId, nat>, a: Middleware, b: Middleware)
    requires a.realm in order && b.realm in order
  {
    || order[a.realm] < order[b.realm]
    || (order[a.realm] == order[b.realm] &&
        if a.prepend && b.prepend then b.id < a.id
        else if !a.prepend && !b.prepend then a.id < b.id
        else a.prepend)
  }

  ghost predicate InSlice(order: map<RealmId, nat>, q: seq<Middleware>)
  {
    forall m :: m in q ==> m.realm in order
  }

  ghost predicate Sorted(order: map<RealmId, nat>, q: seq<Middleware>)
    requires InSlice(order, q)
  {
    forall i, j :: 0 <= i < j < |q| ==> Before(order, q[i], q[j])
  }

  lemma {:induction false} SortedIsUnique(order: map<RealmId, nat>, a: seq<Middleware>, b: seq<Middleware>)
    requires InSlice(order, a) && InSlice(order, b) && Sorted(order, a) && Sorted(order, b)
    requires forall m :: m in a <==> m in b
    ensures a == b
  {
    if a == [] {
      if b != [] { HeadBelongs(b); }
    } else {
      assert a[0] in b && b != [] && b[0] in a;
      assert a[0] == b[0];
      forall m ensures m in a[1..] <==> m in b[1..] {
        assert m in a <==> m == a[0] || m in a[1..];
        assert m in b <==> m == b[0] || m in b[1..];
      }
      SortedIsUnique(order, a[1..], b[1..]);
      assert a == [a[0]] + a[1..] && b == [b[0]] + b[1..];
    }
  }

  lemma HeadBelongs(q: seq<Middleware>)
    requires q != []
    ensures exists m :: m in q
  {
    assert q[0] in q;
  }

  // ---- the deque of one realm ----

  /** One realm's middlewares as a deque: a prepend is pushed to the front, an append to the back. */
  function Deque(ms: seq<Middleware>, r: RealmId): seq<Middleware>
  {
    if ms == [] then []
    else
      var older, m := Deque(ms[..|ms| - 1], r), ms[|ms| - 1];
      if m.realm != r then older
      else if m.prepend then [m] + older
      else older + [m]
  }

  lemma {:induction false} DequeMembers(ms: seq<Middleware>, r: RealmId)
    ensures forall m :: m in Deque(ms, r) <==> m in ms && m.realm == r
  {
    if ms != [] {
      DequeMembers(ms[..|ms| - 1], r);
      assert ms == ms[..|ms| - 1] + [ms[|ms| - 1]];
    }
  }

  lemma {:induction false} DequeIsSorted(order: map<RealmId, nat>, ms: seq<Middleware>, r: RealmId)
    requires Ascending(ms) && r in order
    ensures InSlice(order, Deque(ms, r)) && Sorted(order, Deque(ms, r))
  {
    DequeMembers(ms, r);
    if ms != [] {
      var older, m := ms[..|ms| - 1], ms[|ms| - 1];
      DequeIsSorted(order, older, r);
      DequeMembers(older, r);
      forall x | x in Deque(older, r) ensures x.id < m.id && x.realm == r {
        var i :| 0 <= i < |older| && older[i] == x;
        assert ms[i] == x;
      }
    }
  }

  /** Removing a registration removes it from the deque and disturbs nothing else. */
  lemma {:induction false} DequeAfterRemoval(ms: seq<Middleware>, r: RealmId, id: nat)
    ensures Deque(Without(ms, id), r) == Without(Deque(ms, r), id)
  {
    if ms != [] {
      var older, m := ms[..|ms| - 1], ms[|ms| - 1];
      DequeAfterRemoval(older, r, id);
      assert ms == older + [m];
      WithoutSplits(older, [m], id);
      WithoutSplits(Deque(older, r), [m], id);
      WithoutSplits([m], Deque(older, r), id);
      assert [m][1..] == [];
      if m.id != id {
        assert Without([m], id) == [m];
        assert (Without(older, id) + [m])[..|Without(older, id)|] == Without(older, id);
      } else {
        assert Without([m], id) == [];
        assert Without(older, id) + [] == Without(older, id);
      }
    }
  }

  lemma {:induction false} WithoutSplits(a: seq<Middleware>, b: seq<Middleware>, id: nat)
    ensures Without(a + b, id) == Without(a, id) + Without(b, id)
  {
    if a == [] {
      assert a + b == b;
    } else {
      assert (a + b)[1..] == a[1..] + b;
      WithoutSplits(a[1..], b, id);
    }
  }

  // ---- the whole chain ----

  /** The deques of the slice's realms, one after another. */
  function DequeChain(slice: seq<RealmId>, ms: seq<Middleware>): seq<Middleware>
  {
    if slice == [] then []
    else DequeChain(slice[..|slice| - 1], ms) + Deque(ms, slice[|slice| - 1])
  }

  lemma {:induction false} DequeChainMembers(slice: seq<RealmId>, ms: seq<Middleware>)
    ensures forall m :: m in DequeChain(slice, ms) <==> m in ms && m.realm in slice
  {
    if slice != [] {
      DequeChainMembers(slice[..|slice| - 1], ms);
      DequeMembers(ms, slice[|slice| - 1]);
      assert slice == slice[..|slice| - 1] + [slice[|slice| - 1]];
    }
  }

  lemma {:induction false} DequeChainIsSorted(order: map<RealmId, nat>, slice: seq<RealmId>, ms: seq<Middleware>)
    requires Ascending(ms) && forall i :: 0 <= i < |slice| ==> slice[i] in order && order[slice[i]] == i
    ensures InSlice(order, DequeChain(slice, ms)) && Sorted(order, DequeChain(slice, ms))
  {
    DequeChainMembers(slice, ms);
    if slice != [] {
      var init, r := slice[..|slice| - 1], slice[|slice| - 1];
      DequeChainIsSorted(order, init, ms);
      DequeIsSorted(order, ms, r);
      DequeChainMembers(init, ms);
      DequeMembers(ms, r);
      forall a, b | a in DequeChain(init, ms) && b in Deque(ms, r) ensures Before(order, a, b) {
        var i :| 0 <= i < |init| && init[i] == a.realm;
        assert slice[i] == a.realm;
      }
    }
  }

  /** A sorted selection of the slice's middlewares is the deque chain. */
  lemma SortIsDequeChain(order: map<RealmId, nat>, slice: seq<RealmId>, ms: seq<Middleware>, sorted: seq<Middleware>)
    requires Ascending(ms) && Indexes(order, slice)
    requires forall m :: m in sorted <==> m in ms && m.realm in order
    requires InSlice(order, sorted) && Sorted(order, sorted)
    ensures sorted == DequeChain(slice, ms)
  {
    DequeChainIsSorted(order, slice, ms);
    DequeChainMembers(slice, ms);
    SortedIsUnique(order, sorted, DequeChain(slice, ms));
  }

  // ---- selection and sorting ----

  /** The registrations whose fiber is still active. */
  function ActiveOnly(s: State, ms: seq<Middleware>): seq<Middleware>
  {
    if ms == [] then []
    else (if Active(s, ms[0].fiber) then [ms[0]] else []) + ActiveOnly(s, ms[1..])
  }

  lemma {:induction false} ActiveOnlyMembers(s: State, ms: seq<Middleware>)
    ensures forall m :: m in ActiveOnly(s, ms) <==> m in ms && Active(s, m.fiber)
    ensures Ascending(ms) ==> Ascending(ActiveOnly(s, ms))
  {
    if ms != [] {
      var tail := ms[1..];
      ActiveOnlyMembers(s, tail);
      assert ms == [ms[0]] + tail;
      if Ascending(ms) {
        assert Ascending(tail);
        forall m | m in tail ensures ms[0].id < m.id {
          var j :| 0 <= j < |tail| && tail[j] == m;
          assert ms[j + 1] == m;
        }
        var rest := ActiveOnly(s, tail);
        assert forall j :: 0 <= j < |rest| ==> rest[j] in tail;
      }
    }
  }

  lemma BeforeIsTransitive(order: map<RealmId, nat>, a: Middleware, b: Middleware, c: Middleware)
    requires a.realm in order && b.realm in order && c.realm in order
    requires Before(order, a, b) && Before(order, b, c)
    ensures Before(order, a, c)
  {
  }

  /** Inserts `m` where the comparator wants it. */
  method Insert(order: map<RealmId, nat>, q: seq<Middleware>, m: Middleware) returns (r: seq<Middleware>)
    requires InSlice(order, q) && Sorted(order, q) && m.realm in order && forall x :: x in q ==> x.id != m.id
    ensures forall x :: x in r <==> x in q || x == m
    ensures InSlice(order, r) && Sorted(order, r)
  {
    var at := 0;
    while at < |q| && Before(order, q[at], m)
      invariant 0 <= at <= |q| && forall j :: 0 <= j < at ==> Before(order, q[j], m)
    {
      at := at + 1;
    }
    r := q[..at] + [m] + q[at..];
    forall j | at <= j < |q| ensures Before(order, m, q[j]) {
      assert q[j] in q && q[at] in q;
      assert Before(order, m, q[at]);
      if j > at { BeforeIsTransitive(order, m, q[at], q[j]); }
    }
    forall i, j | 0 <= i < j < |r|
      ensures r[i] in r && r[j] in r && r[i].realm in order && r[j].realm in order && Before(order, r[i], r[j])
    {
    }
  }
}
