// The vertical slice of realms a pipeline dispatch reaches, and its breadth-first numbering.

module Slice {
  import opened Basics
  import opened Realms
  import opened Sorting

  function Kids(rs: RealmTree, r: RealmId): set<RealmId>
  {
    set c | c in rs && rs[c].parent == Some(r)
  }

  // ---- the breadth-first walk ----

  /** Appends the realms that are not listed yet. */
  function Append(found: seq<RealmId>, kids: seq<RealmId>): seq<RealmId>
    decreases kids
  {
    if kids == [] then found
    else Append(if kids[0] in found then found else found + [kids[0]], kids[1..])
  }

  ghost predicate Known(rs: RealmTree, found: seq<RealmId>)
  {
    Distinct(found) && forall r :: r in found ==> r in rs
  }

  lemma KnownSize(rs: RealmTree, found: seq<RealmId>)
    requires Known(rs, found)
    ensures |found| <= |rs.Keys|
  {
    DistinctSize(found);
    SubsetSize(Elements(found), rs.Keys);
  }

  lemma {:induction false} AppendGrows(rs: RealmTree, found: seq<RealmId>, kids: seq<RealmId>)
    requires Known(rs, found) && forall k :: k in kids ==> k in rs
    ensures var l := Append(found, kids);
            && Known(rs, l) && found <= l
            && (forall r :: r in l <==> r in found || r in kids)
            && (forall i :: |found| <= i < |l| ==> l[i] in kids)
    decreases kids
  {
    if kids != [] {
      var next := if kids[0] in found then found else found + [kids[0]];
      AppendGrows(rs, next, kids[1..]);
      assert kids == [kids[0]] + kids[1..];
      var l := Append(found, kids);
      forall i | |found| <= i < |l| ensures l[i] in kids {
        if i < |next| { assert l[i] == next[i]; }
      }
    }
  }

  /** Realms found so far; those before `head` have had their children listed. */
  ghost function Bfs(rs: RealmTree, found: seq<RealmId>, head: nat): seq<RealmId>
    requires Known(rs, found) && head <= |found|
    decreases |rs.Keys| - head
  {
    KnownSize(rs, found);
    if head == |found| then found
    else
      AppendGrows(rs, found, InOrder(Kids(rs, found[head])));
      Bfs(rs, Append(found, InOrder(Kids(rs, found[head]))), head + 1)
  }

  lemma ReverseIndex<T>(q: seq<T>)
    ensures |Reverse(q)| == |q| && forall i :: 0 <= i < |q| ==> Reverse(q)[i] == q[|q| - 1 - i]
  {
    ReverseMembers(q);
    forall i | 0 <= i < |q| ensures Reverse(q)[i] == q[|q| - 1 - i] {
      ReverseAt(q, |q| - 1 - i);
    }
  }

  lemma ChainKnown(rs: RealmTree, realm: RealmId)
    requires realm in rs
    ensures Known(rs, Reverse(Chain(rs, realm))) && |Reverse(Chain(rs, realm))| == |Chain(rs, realm)|
  {
    var c := Chain(rs, realm);
    var r := Reverse(c);
    ChainShape(rs, realm);
    ReverseIndex(c);
    ReverseMembers(c);
    forall i, j | 0 <= i < j < |r| ensures r[i] != r[j] {
      assert r[i] == c[|c| - 1 - i] && r[j] == c[|c| - 1 - j];
    }
  }

  /** Ancestors root first, the realm itself, then its descendants breadth first. */
  ghost function SliceOf(rs: RealmTree, realm: RealmId): seq<RealmId>
    requires realm in rs
  {
    ChainKnown(rs, realm);
    Bfs(rs, Reverse(Chain(rs, realm)), |Chain(rs, realm)| - 1)
  }

  // ---- exactness ----

  function Depth(rs: RealmTree, r: RealmId): nat
  {
    |Chain(rs, r)|
  }

  /**
   * The walk is at `head`: everything from `base` on hangs below `realm`, depths never decrease along the
   * list and exceed that of the head by at most one, and the children of all earlier realms are listed.
   */
  ghost predicate InWalk(rs: RealmTree, realm: RealmId, base: nat, found: seq<RealmId>, head: nat)
  {
    && Known(rs, found) && base <= head <= |found| && base < |found| && found[base] == realm
    && AllBelow(rs, realm, base, found)
    && Deepening(rs, found)
    && Shallow(rs, found, head)
    && KidsListed(rs, base, found, head)
  }

  ghost predicate Shallow(rs: RealmTree, found: seq<RealmId>, head: nat)
  {
    head < |found| ==> Depth(rs, found[|found| - 1]) <= Depth(rs, found[head]) + 1
  }

  ghost predicate AllBelow(rs: RealmTree, realm: RealmId, base: nat, found: seq<RealmId>)
  {
    forall i :: base <= i < |found| ==> Visible(rs, realm, found[i])
  }

  ghost predicate KidsListed(rs: RealmTree, base: nat, found: seq<RealmId>, head: nat)
    requires head <= |found|
  {
    forall i, k :: base <= i < head && k in Kids(rs, found[i]) ==> k in found
  }

  ghost predicate Deepening(rs: RealmTree, found: seq<RealmId>)
  {
    forall i, j :: 0 <= i < j < |found| ==> Depth(rs, found[i]) <= Depth(rs, found[j])
  }

  lemma DeepeningGrows(rs: RealmTree, found: seq<RealmId>, l: seq<RealmId>, d: nat)
    requires Deepening(rs, found) && found <= l && |found| > 0 && Depth(rs, found[|found| - 1]) <= d
    requires forall i :: |found| <= i < |l| ==> Depth(rs, l[i]) == d
    ensures Deepening(rs, l)
  {
    forall i | 0 <= i < |found| ensures Depth(rs, l[i]) <= d {
      assert l[i] == found[i];
      if i < |found| - 1 { assert Depth(rs, found[i]) <= Depth(rs, found[|found| - 1]); }
    }
  }

  lemma KidsBelow(rs: RealmTree, realm: RealmId, r: RealmId, k: RealmId)
    requires r in rs && k in Kids(rs, r)
    ensures Depth(rs, k) == Depth(rs, r) + 1
    ensures Visible(rs, realm, r) ==> Visible(rs, realm, k)
  {
  }

  lemma KidsListedGrows(rs: RealmTree, base: nat, found: seq<RealmId>, head: nat, l: seq<RealmId>)
    requires head < |found| && KidsListed(rs, base, found, head) && found <= l
    requires forall k :: k in Kids(rs, found[head]) ==> k in l
    ensures KidsListed(rs, base, l, head + 1)
  {
    forall i, k | base <= i < head + 1 && k in Kids(rs, l[i]) ensures k in l {
      assert l[i] == found[i];
      if i < head { assert k in found; }
    }
  }

  lemma AllBelowGrows(rs: RealmTree, realm: RealmId, base: nat, found: seq<RealmId>, r: RealmId, l: seq<RealmId>)
    requires AllBelow(rs, realm, base, found) && found <= l && r in rs && Visible(rs, realm, r)
    requires forall i :: |found| <= i < |l| ==> l[i] in Kids(rs, r)
    ensures AllBelow(rs, realm, base, l)
    ensures forall i :: |found| <= i < |l| ==> Depth(rs, l[i]) == Depth(rs, r) + 1
  {
    forall i | |found| <= i < |l| ensures Depth(rs, l[i]) == Depth(rs, r) + 1 && Visible(rs, realm, l[i]) {
      KidsBelow(rs, realm, r, l[i]);
    }
    assert forall i :: 0 <= i < |found| ==> l[i] == found[i];
  }

  lemma WalkStep(rs: RealmTree, realm: RealmId, base: nat, found: seq<RealmId>, head: nat)
    requires InWalk(rs, realm, base, found, head) && head < |found|
    ensures InWalk(rs, realm, base, Append(found, InOrder(Kids(rs, found[head]))), head + 1)
  {
    var kids := InOrder(Kids(rs, found[head]));
    var l := Append(found, kids);
    AppendGrows(rs, found, kids);
    AllBelowGrows(rs, realm, base, found, found[head], l);
    KidsListedGrows(rs, base, found, head, l);
    DeepeningGrows(rs, found, l, Depth(rs, found[head]) + 1);
    LastDepth(rs, found, l, head);
    assert l[base] == found[base];
  }

  lemma LastDepth(rs: RealmTree, found: seq<RealmId>, l: seq<RealmId>, head: nat)
    requires head < |found| && found <= l && Deepening(rs, l)
    requires Shallow(rs, found, head)
    requires forall i :: |found| <= i < |l| ==> Depth(rs, l[i]) == Depth(rs, found[head]) + 1
    ensures Shallow(rs, l, head + 1)
  {
    var last := |l| - 1;
    assert l[head] == found[head];
    if last < |found| { assert l[last] == found[|found| - 1]; }
    if head + 1 < |l| { assert Depth(rs, l[head]) <= Depth(rs, l[head + 1]); }
  }

  lemma {:induction false} WalkEnds(rs: RealmTree, realm: RealmId, base: nat, found: seq<RealmId>, head: nat)
    requires InWalk(rs, realm, base, found, head)
    ensures var l := Bfs(rs, found, head); InWalk(rs, realm, base, l, |l|) && found <= l
    decreases |rs.Keys| - head
  {
    KnownSize(rs, found);
    if head < |found| {
      WalkStep(rs, realm, base, found, head);
      AppendGrows(rs, found, InOrder(Kids(rs, found[head])));
      WalkEnds(rs, realm, base, Append(found, InOrder(Kids(rs, found[head]))), head + 1);
    }
  }

  lemma WalkBegins(rs: RealmTree, realm: RealmId)
    requires realm in rs
    ensures InWalk(rs, realm, |Chain(rs, realm)| - 1, Reverse(Chain(rs, realm)), |Chain(rs, realm)| - 1)
  {
    var c := Chain(rs, realm);
    ChainKnown(rs, realm);
    ChainShape(rs, realm);
    ReverseIndex(c);
    forall i | 0 <= i < |c| ensures Depth(rs, Reverse(c)[i]) == i + 1 {
      DepthOnChain(rs, realm, |c| - 1 - i);
    }
  }

  lemma {:induction false} DepthOnChain(rs: RealmTree, realm: RealmId, i: nat)
    requires realm in rs && i < |Chain(rs, realm)|
    ensures Depth(rs, Chain(rs, realm)[i]) == |Chain(rs, realm)| - i
    decreases i
  {
    if i > 0 {
      DepthOnChain(rs, rs[realm].parent.value, i - 1);
    }
  }

  lemma {:induction false} DescendantsListed(rs: RealmTree, realm: RealmId, base: nat, l: seq<RealmId>, x: RealmId)
    requires InWalk(rs, realm, base, l, |l|) && x in rs && Visible(rs, realm, x)
    requires forall i :: 0 <= i < base ==> l[i] < realm
    ensures x in l && x >= realm
    decreases x
  {
    if x != realm {
      var p := rs[x].parent.value;
      DescendantsListed(rs, realm, base, l, p);
      var i :| 0 <= i < |l| && l[i] == p;
      assert x in Kids(rs, l[i]);
    } else {
      assert l[base] == realm;
    }
  }

  /** The slice holds exactly the ancestors, the realm and its descendants. */
  lemma SliceIsExact(rs: RealmTree, realm: RealmId, x: RealmId)
    requires realm in rs && x in rs
    ensures x in SliceOf(rs, realm) <==> Visible(rs, x, realm) || Visible(rs, realm, x)
  {
    var c, l := Chain(rs, realm), SliceOf(rs, realm);
    var base := |c| - 1;
    ChainKnown(rs, realm);
    ReverseIndex(c);
    ChainShape(rs, realm);
    WalkBegins(rs, realm);
    WalkEnds(rs, realm, base, Reverse(c), base);
    assert forall i :: 0 <= i <= base ==> l[i] == c[base - i];
    VisibleIsOnChain(rs, x, realm);
    if Visible(rs, x, realm) {
      var i :| 0 <= i < |c| && c[i] == x;
      assert l[base - i] == x;
    }
    if Visible(rs, realm, x) {
      DescendantsListed(rs, realm, base, l, x);
    }
    if x in l {
      var i :| 0 <= i < |l| && l[i] == x;
      if i < base { assert c[base - i] == x; }
    }
  }

  /**
   * The numbering: every realm once, ancestors at their depth from the root, the realm after them, and a
   * realm of smaller depth always before a deeper one.
   */
  lemma SliceIsBreadthFirst(rs: RealmTree, realm: RealmId)
    requires realm in rs
    ensures var c, l := Chain(rs, realm), SliceOf(rs, realm);
            && Distinct(l) && |c| <= |l|
            && (forall i :: 0 <= i < |c| ==> l[i] == c[|c| - 1 - i])
            && (forall i, j :: 0 <= i < |l| && 0 <= j < |l| && Depth(rs, l[i]) < Depth(rs, l[j]) ==> i < j)
  {
    SliceIsWalked(rs, realm);
    ReverseIndex(Chain(rs, realm));
    AncestorsFirst(Chain(rs, realm), Reverse(Chain(rs, realm)), SliceOf(rs, realm));
    DeepeningOrders(rs, SliceOf(rs, realm));
  }

  lemma SliceIsWalked(rs: RealmTree, realm: RealmId)
    requires realm in rs
    ensures var l := SliceOf(rs, realm); Distinct(l) && Deepening(rs, l) && Reverse(Chain(rs, realm)) <= l
  {
    var c := Chain(rs, realm);
    ChainKnown(rs, realm);
    WalkBegins(rs, realm);
    WalkEnds(rs, realm, |c| - 1, Reverse(c), |c| - 1);
  }

  lemma AncestorsFirst(c: seq<RealmId>, reversed: seq<RealmId>, l: seq<RealmId>)
    requires reversed <= l && |reversed| == |c| && forall i :: 0 <= i < |c| ==> reversed[i] == c[|c| - 1 - i]
    ensures |c| <= |l| && forall i :: 0 <= i < |c| ==> l[i] == c[|c| - 1 - i]
  {
    forall i | 0 <= i < |c| ensures l[i] == c[|c| - 1 - i] {
      assert l[i] == reversed[i];
    }
  }

  lemma DeepeningOrders(rs: RealmTree, l: seq<RealmId>)
    requires Deepening(rs, l)
    ensures forall i, j :: 0 <= i < |l| && 0 <= j < |l| && Depth(rs, l[i]) < Depth(rs, l[j]) ==> i < j
  {
  }

  // ---- no realm is enqueued twice ----

  /** One step of the walk: the children of the realm at `head` are listed. */
  ghost predicate Steps(rs: RealmTree, found: seq<RealmId>, head: nat, next: seq<RealmId>)
  {
    head < |found| && next == Append(found, InOrder(Kids(rs, found[head])))
  }

  /** The lists that a walk with its head at `base` goes through, from the first one on. */
  ghost predicate IsWalk(rs: RealmTree, base: nat, lists: seq<seq<RealmId>>)
  {
    |lists| > 0 && forall n :: 0 <= n < |lists| - 1 ==> StepAt(rs, base, lists, n)
  }

  ghost predicate StepAt(rs: RealmTree, base: nat, lists: seq<seq<RealmId>>, n: nat)
  {
    n + 1 < |lists| && Steps(rs, lists[n], base + n, lists[n + 1])
  }

  /** A realm already passed is the parent of `x`. */
  ghost predicate ParentPassed(rs: RealmTree, base: nat, found: seq<RealmId>, head: nat, x: RealmId)
    requires head <= |found| && x in rs
  {
    exists j :: base <= j < head && rs[x].parent == Some(found[j])
  }

  /** Ancestors are older than the dispatch realm; every realm after it was listed as the child of one passed. */
  ghost predicate ParentsFirst(rs: RealmTree, realm: RealmId, base: nat, found: seq<RealmId>, head: nat)
    requires head <= |found| && Known(rs, found)
  {
    && (forall i :: 0 <= i < base && i < |found| ==> found[i] < realm)
    && (forall i :: base < i < |found| ==> ParentPassed(rs, base, found, head, found[i]))
  }

  lemma ParentsBegin(rs: RealmTree, realm: RealmId)
    requires realm in rs
    ensures var base, found := |Chain(rs, realm)| - 1, Reverse(Chain(rs, realm));
            Known(rs, found) && base <= |found| && ParentsFirst(rs, realm, base, found, base)
  {
    ChainKnown(rs, realm);
    ChainShape(rs, realm);
    ReverseIndex(Chain(rs, realm));
  }

  lemma ParentsStep(rs: RealmTree, realm: RealmId, base: nat, found: seq<RealmId>, head: nat)
    requires Known(rs, found) && base <= head < |found| && ParentsFirst(rs, realm, base, found, head)
    ensures var l := Append(found, InOrder(Kids(rs, found[head])));
            Known(rs, l) && head + 1 <= |l| && ParentsFirst(rs, realm, base, l, head + 1)
  {
    var l := Append(found, InOrder(Kids(rs, found[head])));
    AppendGrows(rs, found, InOrder(Kids(rs, found[head])));
    forall i | base < i < |l| ensures ParentPassed(rs, base, l, head + 1, l[i]) {
      if i < |found| {
        PassedStays(rs, base, found, head, l, l[i]);
      } else {
        assert l[head] == found[head];
      }
    }
  }

  lemma PassedStays(rs: RealmTree, base: nat, found: seq<RealmId>, head: nat, l: seq<RealmId>, x: RealmId)
    requires head <= |found| && found <= l && head < |l| && x in rs && ParentPassed(rs, base, found, head, x)
    ensures ParentPassed(rs, base, l, head + 1, x)
  {
    var j :| base <= j < head && rs[x].parent == Some(found[j]);
    assert l[j] == found[j];
  }

  lemma BelowStep(rs: RealmTree, realm: RealmId, base: nat, found: seq<RealmId>, head: nat)
    requires Known(rs, found) && base <= head < |found| && found[base] == realm && AllBelow(rs, realm, base, found)
    ensures var l := Append(found, InOrder(Kids(rs, found[head])));
            base < |l| && l[base] == realm && AllBelow(rs, realm, base, l)
  {
    var l := Append(found, InOrder(Kids(rs, found[head])));
    AppendGrows(rs, found, InOrder(Kids(rs, found[head])));
    AllBelowGrows(rs, realm, base, found, found[head], l);
    assert l[base] == found[base];
  }

  /** What makes the children of the head new. */
  ghost predicate Fresh(rs: RealmTree, realm: RealmId, base: nat, found: seq<RealmId>, head: nat)
  {
    && Known(rs, found) && base <= head <= |found| && base < |found| && found[base] == realm
    && AllBelow(rs, realm, base, found) && ParentsFirst(rs, realm, base, found, head)
  }

  /** Continued from here, the walk ends in the list `l`. */
  ghost predicate EndsIn(rs: RealmTree, found: seq<RealmId>, head: nat, l: seq<RealmId>)
  {
    Known(rs, found) && head <= |found| && Bfs(rs, found, head) == l
  }

  lemma FreshStep(rs: RealmTree, realm: RealmId, base: nat, found: seq<RealmId>, head: nat, next: seq<RealmId>)
    requires Fresh(rs, realm, base, found, head) && Steps(rs, found, head, next)
    ensures Fresh(rs, realm, base, next, head + 1)
  {
    BelowStep(rs, realm, base, found, head);
    ParentsStep(rs, realm, base, found, head);
  }

  lemma EndStep(rs: RealmTree, found: seq<RealmId>, head: nat, next: seq<RealmId>, l: seq<RealmId>)
    requires EndsIn(rs, found, head, l) && Steps(rs, found, head, next)
    ensures EndsIn(rs, next, head + 1, l)
  {
    AppendGrows(rs, found, InOrder(Kids(rs, found[head])));
  }

  lemma FreshOnce(rs: RealmTree, realm: RealmId, base: nat, lists: seq<seq<RealmId>>, n: nat)
    requires IsWalk(rs, base, lists) && n + 1 < |lists| && Fresh(rs, realm, base, lists[n], base + n)
    ensures Fresh(rs, realm, base, lists[n + 1], base + n + 1)
  {
    assert StepAt(rs, base, lists, n);
    FreshStep(rs, realm, base, lists[n], base + n, lists[n + 1]);
  }

  lemma EndOnce(rs: RealmTree, base: nat, lists: seq<seq<RealmId>>, n: nat, l: seq<RealmId>)
    requires IsWalk(rs, base, lists) && n + 1 < |lists| && EndsIn(rs, lists[n], base + n, l)
    ensures EndsIn(rs, lists[n + 1], base + n + 1, l)
  {
    assert StepAt(rs, base, lists, n);
    EndStep(rs, lists[n], base + n, lists[n + 1], l);
  }

  lemma {:induction false} StaysFresh(rs: RealmTree, realm: RealmId, base: nat, lists: seq<seq<RealmId>>, n: nat)
    requires IsWalk(rs, base, lists) && n < |lists| && Fresh(rs, realm, base, lists[0], base)
    ensures Fresh(rs, realm, base, lists[n], base + n)
  {
    if n > 0 {
      StaysFresh(rs, realm, base, lists, n - 1);
      FreshOnce(rs, realm, base, lists, n - 1);
    }
  }

  lemma {:induction false} EndStays(rs: RealmTree, base: nat, lists: seq<seq<RealmId>>, n: nat, l: seq<RealmId>)
    requires IsWalk(rs, base, lists) && n < |lists| && EndsIn(rs, lists[0], base, l)
    ensures EndsIn(rs, lists[n], base + n, l)
  {
    if n > 0 {
      EndStays(rs, base, lists, n - 1, l);
      EndOnce(rs, base, lists, n - 1, l);
    }
  }

  lemma FreshBegins(rs: RealmTree, realm: RealmId)
    requires realm in rs
    ensures Fresh(rs, realm, |Chain(rs, realm)| - 1, Reverse(Chain(rs, realm)), |Chain(rs, realm)| - 1)
  {
    ChainKnown(rs, realm);
    ReverseIndex(Chain(rs, realm));
    ParentsBegin(rs, realm);
  }

  /** The children of the head are new, so the step appends exactly them. */
  lemma FreshKids(rs: RealmTree, realm: RealmId, base: nat, found: seq<RealmId>, head: nat)
    requires Fresh(rs, realm, base, found, head) && head < |found|
    ensures forall k :: k in Kids(rs, found[head]) ==> k !in found
    ensures Steps(rs, found, head, found + InOrder(Kids(rs, found[head])))
  {
    forall k | k in Kids(rs, found[head]) ensures k !in found {
      ChildrenAreNew(rs, realm, base, found, head, k);
    }
    AppendNew(found, InOrder(Kids(rs, found[head])));
  }

  /** Every list of the walk is on the way to the slice. */
  lemma WalkYieldsSlice(rs: RealmTree, realm: RealmId, base: nat, lists: seq<seq<RealmId>>, n: nat)
    requires realm in rs && base == |Chain(rs, realm)| - 1
    requires IsWalk(rs, base, lists) && lists[0] == Reverse(Chain(rs, realm)) && n < |lists|
    ensures EndsIn(rs, lists[n], base + n, SliceOf(rs, realm))
  {
    ChainKnown(rs, realm);
    EndStays(rs, base, lists, n, SliceOf(rs, realm));
  }

  lemma WalkStaysFresh(rs: RealmTree, realm: RealmId, base: nat, lists: seq<seq<RealmId>>, n: nat)
    requires realm in rs && base == |Chain(rs, realm)| - 1
    requires IsWalk(rs, base, lists) && lists[0] == Reverse(Chain(rs, realm)) && n < |lists|
    ensures Fresh(rs, realm, base, lists[n], base + n)
  {
    FreshBegins(rs, realm);
    StaysFresh(rs, realm, base, lists, n);
  }

  /**
   * No realm is enqueued twice. At every step of the walk that computes the slice, the children of the realm
   * at the head are all new, so the step appends exactly them and skips none.
   */
  lemma NoRealmIsEnqueuedTwice(rs: RealmTree, realm: RealmId, base: nat, lists: seq<seq<RealmId>>, n: nat, head: nat)
    requires realm in rs && base == |Chain(rs, realm)| - 1
    requires IsWalk(rs, base, lists) && lists[0] == Reverse(Chain(rs, realm))
    requires n < |lists| && head == base + n && head < |lists[n]|
    ensures forall k :: k in Kids(rs, lists[n][head]) ==> k !in lists[n]
    ensures Steps(rs, lists[n], head, lists[n] + InOrder(Kids(rs, lists[n][head])))
  {
    WalkStaysFresh(rs, realm, base, lists, n);
    FreshKids(rs, realm, base, lists[n], head);
  }

  lemma {:induction false} AppendNew(found: seq<RealmId>, kids: seq<RealmId>)
    requires Increasing(kids) && forall k :: k in kids ==> k !in found
    ensures Append(found, kids) == found + kids
    decreases kids
  {
    if kids != [] {
      assert kids[0] in kids;
      assert forall k :: k in kids[1..] ==> k in kids && k != kids[0];
      AppendNew(found + [kids[0]], kids[1..]);
      assert found + [kids[0]] + kids[1..] == found + kids;
    }
  }

  lemma ChildrenAreNew(rs: RealmTree, realm: RealmId, base: nat, found: seq<RealmId>, head: nat, k: RealmId)
    requires Known(rs, found) && base <= head < |found| && found[base] == realm
    requires Visible(rs, realm, found[head]) && ParentsFirst(rs, realm, base, found, head)
    requires k in Kids(rs, found[head])
    ensures k !in found
  {
    VisibleIsOlder(rs, realm, found[head]);
    forall i | 0 <= i < |found| ensures found[i] != k {
      if i > base {
        var j :| base <= j < head && rs[found[i]].parent == Some(found[j]);
        assert found[j] != found[head];
      } else {
        assert found[i] <= realm && found[head] < k;
      }
    }
  }

  lemma {:induction false} VisibleIsOlder(rs: RealmTree, realm: RealmId, x: RealmId)
    requires x in rs && Visible(rs, realm, x)
    ensures realm <= x
    decreases x
  {
    if x != realm {
      VisibleIsOlder(rs, realm, rs[x].parent.value);
    }
  }

  // ---- the order of descendants ----

  /** The parents of the two realms stand in this order, and siblings stand by age. */
  ghost predicate InKidOrder(rs: RealmTree, base: nat, found: seq<RealmId>, head: nat, x: RealmId, y: RealmId)
    requires head <= |found|
  {
    exists a, b :: base <= a <= b < head && x in Kids(rs, found[a]) && y in Kids(rs, found[b]) && (a == b ==> x < y)
  }

  ghost predicate ByAge(rs: RealmTree, base: nat, found: seq<RealmId>, head: nat)
    requires head <= |found|
  {
    forall i, j :: base < i < j < |found| ==> InKidOrder(rs, base, found, head, found[i], found[j])
  }

  lemma KidOrderStays(rs: RealmTree, base: nat, found: seq<RealmId>, head: nat, l: seq<RealmId>, x: RealmId, y: RealmId)
    requires head <= |found| && found <= l && head < |l| && InKidOrder(rs, base, found, head, x, y)
    ensures InKidOrder(rs, base, l, head + 1, x, y)
  {
    var a, b :| base <= a <= b < head && x in Kids(rs, found[a]) && y in Kids(rs, found[b]) && (a == b ==> x < y);
    assert l[a] == found[a] && l[b] == found[b];
  }

  lemma NewKidLast(rs: RealmTree, realm: RealmId, base: nat, found: seq<RealmId>, head: nat, l: seq<RealmId>, i: nat,
                   y: RealmId)
    requires Fresh(rs, realm, base, found, head) && head < |found| && found <= l && base < i < |found|
    requires y in Kids(rs, found[head])
    ensures InKidOrder(rs, base, l, head + 1, found[i], y)
  {
    assert ParentPassed(rs, base, found, head, found[i]);
    var a :| base <= a < head && rs[found[i]].parent == Some(found[a]);
    assert l[a] == found[a] && l[head] == found[head];
    assert found[i] in Kids(rs, l[a]) && y in Kids(rs, l[head]);
  }

  lemma ByAgeStep(rs: RealmTree, realm: RealmId, base: nat, found: seq<RealmId>, head: nat, l: seq<RealmId>)
    requires Fresh(rs, realm, base, found, head) && ByAge(rs, base, found, head) && Steps(rs, found, head, l)
    ensures head + 1 <= |l| && ByAge(rs, base, l, head + 1)
  {
    var kids := InOrder(Kids(rs, found[head]));
    FreshKids(rs, realm, base, found, head);
    assert l == found + kids;
    forall i, j | base < i < j < |l| ensures InKidOrder(rs, base, l, head + 1, l[i], l[j]) {
      if j < |found| {
        KidOrderStays(rs, base, found, head, l, l[i], l[j]);
      } else if i < |found| {
        assert l[j] in kids;
        NewKidLast(rs, realm, base, found, head, l, i, l[j]);
      } else {
        assert l[i] == kids[i - |found|] && l[j] == kids[j - |found|] && l[i] in kids && l[j] in kids;
        assert l[head] == found[head];
      }
    }
  }

  lemma {:induction false} BfsByAge(rs: RealmTree, realm: RealmId, base: nat, found: seq<RealmId>, head: nat)
    requires Fresh(rs, realm, base, found, head) && ByAge(rs, base, found, head)
    ensures ByAge(rs, base, Bfs(rs, found, head), |Bfs(rs, found, head)|)
    decreases |rs.Keys| - head
  {
    KnownSize(rs, found);
    if head < |found| {
      var l := Append(found, InOrder(Kids(rs, found[head])));
      ByAgeStep(rs, realm, base, found, head, l);
      FreshStep(rs, realm, base, found, head, l);
      AppendGrows(rs, found, InOrder(Kids(rs, found[head])));
      BfsByAge(rs, realm, base, l, head + 1);
    }
  }

  /** The numbering of descendants is fully determined: by the positions of their parents, and siblings by age. */
  lemma SliceIsByAge(rs: RealmTree, realm: RealmId)
    requires realm in rs
    ensures ByAge(rs, |Chain(rs, realm)| - 1, SliceOf(rs, realm), |SliceOf(rs, realm)|)
  {
    FreshBegins(rs, realm);
    NobodyBelowYet(rs, realm);
    ChainKnown(rs, realm);
    BfsByAge(rs, realm, |Chain(rs, realm)| - 1, Reverse(Chain(rs, realm)), |Chain(rs, realm)| - 1);
  }

  lemma NobodyBelowYet(rs: RealmTree, realm: RealmId)
    requires realm in rs
    ensures |Reverse(Chain(rs, realm))| == |Chain(rs, realm)|
    ensures ByAge(rs, |Chain(rs, realm)| - 1, Reverse(Chain(rs, realm)), |Chain(rs, realm)| - 1)
  {
    ReverseIndex(Chain(rs, realm));
  }
}
