// The realm tree: nested service scopes and the walks over them.

module Realms {
  import opened Basics

  datatype Realm = Realm(parent: Option<RealmId>, services: map<Key, Value>)

  /** Every realm but the root is derived from an older one, so parent links always lead to the root. */
  ghost predicate WellParented(rs: map<RealmId, Realm>)
  {
    && ROOT_REALM in rs
    && rs[ROOT_REALM].parent.None?
    && forall r {:trigger rs[r].parent} :: r in rs && r != ROOT_REALM ==>
         rs[r].parent.Some? && rs[r].parent.value < r && rs[r].parent.value in rs
  }

  type RealmTree = rs: map<RealmId, Realm> | WellParented(rs)
    ghost witness map[ROOT_REALM := Realm(None, map[])]

  /** The realm whose binding wins a lookup of `k` from `r`. */
  function Resolve(rs: RealmTree, r: RealmId, k: Key): (w: Option<RealmId>)
    ensures w.Some? ==> w.value in rs && k in rs[w.value].services
    decreases r
  {
    if r !in rs then None
    else if k in rs[r].services then Some(r)
    else if rs[r].parent.None? then None
    else Resolve(rs, rs[r].parent.value, k)
  }

  /** The value a lookup of `k` from `r` returns. */
  function Lookup(rs: RealmTree, r: RealmId, k: Key): Option<Value>
  {
    var w := Resolve(rs, r, k);
    if w.None? then None else Some(rs[w.value].services[k])
  }

  /** The chain from `r` up to and including the root. */
  function Chain(rs: RealmTree, r: RealmId): (c: seq<RealmId>)
    ensures |c| > 0 && c[0] == r
    decreases r
  {
    if r !in rs || rs[r].parent.None? then [r]
    else [r] + Chain(rs, rs[r].parent.value)
  }

  /** Whether services of `from` can be seen from `at`. */
  predicate Visible(rs: RealmTree, from: RealmId, at: RealmId)
    decreases at
  {
    from == at || (at in rs && rs[at].parent.Some? && Visible(rs, from, rs[at].parent.value))
  }

  // ---- agreement of the walks ----

  lemma {:induction false} ChainShape(rs: RealmTree, r: RealmId)
    requires r in rs
    ensures var c := Chain(rs, r);
            && c[|c| - 1] == ROOT_REALM
            && (forall i :: 0 <= i < |c| ==> c[i] in rs)
            && (forall i :: 0 <= i < |c| - 1 ==> rs[c[i]].parent == Some(c[i + 1]))
            && (forall i, j :: 0 <= i < j < |c| ==> c[j] < c[i])
    decreases r
  {
    if r != ROOT_REALM {
      ChainShape(rs, rs[r].parent.value);
    }
  }

  /** `visible_from` is membership in `realm_chain`. */
  lemma {:induction false} VisibleIsOnChain(rs: RealmTree, from: RealmId, at: RealmId)
    requires at in rs
    ensures Visible(rs, from, at) <==> from in Chain(rs, at)
    decreases at
  {
    if at != ROOT_REALM {
      VisibleIsOnChain(rs, from, rs[at].parent.value);
    }
  }

  /** No realm among the first `n` of the chain binds `k`. */
  ghost predicate NoneBinds(rs: RealmTree, chain: seq<RealmId>, n: nat, k: Key)
    requires n <= |chain|
  {
    forall i :: 0 <= i < n ==> chain[i] in rs && k !in rs[chain[i]].services
  }

  /** `w` is the first realm of the chain that binds `k`. */
  ghost predicate FirstBinder(rs: RealmTree, chain: seq<RealmId>, w: RealmId, k: Key)
  {
    w in rs && k in rs[w].services && exists i :: 0 <= i < |chain| && chain[i] == w && NoneBinds(rs, chain, i, k)
  }

  lemma FirstIsHead(rs: RealmTree, r: RealmId, d: seq<RealmId>, k: Key)
    requires r in rs && k in rs[r].services
    ensures !NoneBinds(rs, [r] + d, |d| + 1, k)
    ensures forall w: nat :: FirstBinder(rs, [r] + d, w, k) <==> w == r
  {
    var c := [r] + d;
    assert c[0] == r && NoneBinds(rs, c, 0, k);
    assert forall i :: 0 < i <= |c| ==> !NoneBinds(rs, c, i, k) by {
      forall i | 0 < i <= |c| ensures !NoneBinds(rs, c, i, k) { assert c[0] == r; }
    }
  }

  lemma FirstIsBelow(rs: RealmTree, r: RealmId, d: seq<RealmId>, k: Key, w: RealmId)
    requires r in rs && k !in rs[r].services
    ensures FirstBinder(rs, [r] + d, w, k) <==> FirstBinder(rs, d, w, k)
  {
    var c := [r] + d;
    if FirstBinder(rs, c, w, k) {
      var i :| 0 <= i < |c| && c[i] == w && NoneBinds(rs, c, i, k);
      NoneBindsShift(rs, r, d, i - 1, k);
      assert d[i - 1] == w;
    }
    if FirstBinder(rs, d, w, k) {
      var i :| 0 <= i < |d| && d[i] == w && NoneBinds(rs, d, i, k);
      NoneBindsShift(rs, r, d, i, k);
      assert c[i + 1] == w;
    }
  }

  /** `resolving_realm` is the first realm of the chain that binds the key, and fails when none does. */
  lemma {:induction false} ResolveIsFirstOnChain(rs: RealmTree, r: RealmId, k: Key)
    requires r in rs
    ensures Resolve(rs, r, k).None? <==> NoneBinds(rs, Chain(rs, r), |Chain(rs, r)|, k)
    ensures forall w: nat :: Resolve(rs, r, k) == Some(w) <==> FirstBinder(rs, Chain(rs, r), w, k)
    decreases r
  {
    var c := Chain(rs, r);
    ChainShape(rs, r);
    assert c == [r] + c[1..];
    if k in rs[r].services {
      FirstIsHead(rs, r, c[1..], k);
    } else if r != ROOT_REALM {
      var p := rs[r].parent.value;
      ResolveIsFirstOnChain(rs, p, k);
      assert c[1..] == Chain(rs, p);
      NoneBindsShift(rs, r, c[1..], |c| - 1, k);
      forall w: nat ensures FirstBinder(rs, c, w, k) <==> FirstBinder(rs, c[1..], w, k) {
        FirstIsBelow(rs, r, c[1..], k, w);
      }
    }
  }

  lemma NoneBindsShift(rs: RealmTree, r: RealmId, d: seq<RealmId>, i: nat, k: Key)
    requires r in rs && k !in rs[r].services && i <= |d|
    ensures NoneBinds(rs, [r] + d, i + 1, k) <==> NoneBinds(rs, d, i, k)
  {
    var c := [r] + d;
    assert forall j :: 0 <= j < |d| ==> c[j + 1] == d[j];
    if NoneBinds(rs, d, i, k) {
      forall j | 0 <= j < i + 1 ensures c[j] in rs && k !in rs[c[j]].services {
        if j > 0 { assert c[j] == d[j - 1]; }
      }
    }
  }

  // ---- isolation ----

  /** The same tree of realms, whatever the services are. */
  ghost predicate SameShape(rs: RealmTree, rs': RealmTree)
  {
    rs.Keys == rs'.Keys && forall r :: r in rs ==> rs'[r].parent == rs[r].parent
  }

  lemma {:induction false} SameShapeSameWalks(rs: RealmTree, rs': RealmTree, r: RealmId)
    requires SameShape(rs, rs')
    ensures Chain(rs, r) == Chain(rs', r)
    ensures forall from :: Visible(rs, from, r) == Visible(rs', from, r)
    decreases r
  {
    if r in rs && rs[r].parent.Some? {
      SameShapeSameWalks(rs, rs', rs[r].parent.value);
    }
  }

  /**
   * A binding of `k` at `q` is what a lookup from `r` reads: `q` is on the chain of `r` and no realm
   * nearer to `r` binds `k`.
   */
  ghost predicate Unshadowed(rs: RealmTree, r: RealmId, q: RealmId, k: Key)
    decreases r
  {
    r in rs && (r == q || (k !in rs[r].services && rs[r].parent.Some? && Unshadowed(rs, rs[r].parent.value, q, k)))
  }

  /** A lookup reads (q, k) exactly when k is bound at q and no nearer realm shadows it. */
  lemma {:induction false} ResolvesThere(rs: RealmTree, r: RealmId, q: RealmId, k: Key)
    ensures Resolve(rs, r, k) == Some(q) <==> (q in rs && k in rs[q].services && Unshadowed(rs, r, q, k))
    decreases r
  {
    if r in rs && k !in rs[r].services && rs[r].parent.Some? {
      ResolvesThere(rs, rs[r].parent.value, q, k);
    }
  }

  /**
   * Isolation. Changing the services of one realm `q` at one key `k` leaves every lookup of another key
   * alone, and leaves the lookups of `k` alone from every realm outside the subtree of `q` or shadowed
   * before `q`. Within the unshadowed subtree the lookup reads the new binding, or falls through to
   * the parent of `q`.
   */
  lemma {:induction false} ChangeIsIsolated(rs: RealmTree, rs': RealmTree, q: RealmId, k: Key, r: RealmId, key: Key)
    requires SameShape(rs, rs') && q in rs
    requires forall x :: x in rs && x != q ==> rs'[x].services == rs[x].services
    requires forall j :: j != k ==> (j in rs'[q].services <==> j in rs[q].services)
    requires forall j :: j != k && j in rs[q].services ==> rs'[q].services[j] == rs[q].services[j]
    ensures key != k || !Unshadowed(rs, r, q, k) ==>
              Resolve(rs', r, key) == Resolve(rs, r, key) && Lookup(rs', r, key) == Lookup(rs, r, key)
    ensures key == k && Unshadowed(rs, r, q, k) ==>
              Lookup(rs', r, k) == if k in rs'[q].services then Some(rs'[q].services[k])
                                   else if rs[q].parent.None? then None
                                   else Lookup(rs, rs[q].parent.value, k)
    decreases r
  {
    if r in rs {
      if r == q && key == k {
        if k !in rs'[q].services && rs[q].parent.Some? {
          BelowIsUntouched(rs, rs', q, k, rs[q].parent.value);
        }
      } else if key !in rs[r].services && rs[r].parent.Some? {
        ChangeIsIsolated(rs, rs', q, k, rs[r].parent.value, key);
      }
    }
  }

  lemma {:induction false} BelowIsUntouched(rs: RealmTree, rs': RealmTree, q: RealmId, k: Key, r: RealmId)
    requires SameShape(rs, rs') && q in rs && r < q
    requires forall x :: x in rs && x != q ==> rs'[x].services == rs[x].services
    ensures Resolve(rs', r, k) == Resolve(rs, r, k) && Lookup(rs', r, k) == Lookup(rs, r, k)
    decreases r
  {
    if r in rs && k !in rs[r].services && rs[r].parent.Some? {
      BelowIsUntouched(rs, rs', q, k, rs[r].parent.value);
    }
  }

  // ---- growing and shrinking tables ----

  /** Binding more never makes a key unresolved; the keys of other realms keep their shape. */
  lemma {:induction false} MoreBindings(rs: RealmTree, rs': RealmTree, r: RealmId, k: Key)
    requires forall x :: x in rs ==> x in rs' && rs'[x].parent == rs[x].parent
    requires forall x, j :: x in rs && j in rs[x].services ==> j in rs'[x].services
    ensures Resolve(rs, r, k).Some? ==> Resolve(rs', r, k).Some?
    decreases r
  {
    if r in rs && k !in rs[r].services && rs[r].parent.Some? {
      MoreBindings(rs, rs', rs[r].parent.value, k);
    }
  }

  /** Removing bindings never re-routes a lookup whose own winning binding stays. */
  lemma {:induction false} FewerBindings(rs: RealmTree, rs': RealmTree, r: RealmId, k: Key)
    requires SameShape(rs, rs')
    requires forall x :: x in rs && k in rs'[x].services ==> k in rs[x].services
    ensures Resolve(rs, r, k).None? ==> Resolve(rs', r, k).None?
    ensures var w := Resolve(rs, r, k);
            w.Some? && k in rs'[w.value].services ==> Resolve(rs', r, k) == w
    decreases r
  {
    if r in rs && k !in rs[r].services && rs[r].parent.Some? {
      FewerBindings(rs, rs', rs[r].parent.value, k);
    }
  }

  /** Deriving a realm changes no lookup from the realms that existed before. */
  lemma {:induction false} DerivedRealmIsInvisible(rs: RealmTree, rs': RealmTree, r: RealmId, k: Key)
    requires rs.Keys <= rs'.Keys
    requires forall x :: x in rs ==> rs'[x] == rs[x]
    requires r in rs
    ensures Resolve(rs', r, k) == Resolve(rs, r, k)
    decreases r
  {
    if k !in rs[r].services && rs[r].parent.Some? {
      DerivedRealmIsInvisible(rs, rs', rs[r].parent.value, k);
    }
  }
}
