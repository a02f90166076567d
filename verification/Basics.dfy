// Identities and small collection helpers shared by every part of the model.

module Basics {

  datatype Option<+T> = None | Some(value: T)

  /** Ids are handed out by counters; 0 is reserved for the root fiber and the root realm. */
  type FiberId = nat
  type RealmId = nat

  /** A service key stands for a Rust type; only its equality matters. */
  type Key = nat

  /** A service value, identified the way `Arc::ptr_eq` identifies it. */
  type Value = nat

  /** A pipeline extension point stands for its marker type. */
  type Point = nat

  const ROOT_FIBER: FiberId := 0
  const ROOT_REALM: RealmId := 0

  function Reverse<T>(s: seq<T>): seq<T>
  {
    if s == [] then [] else Reverse(s[1..]) + [s[0]]
  }

  lemma {:induction false} ReverseSplit<T>(a: seq<T>, b: seq<T>)
    ensures Reverse(a + b) == Reverse(b) + Reverse(a)
  {
    if a == [] {
      assert a + b == b;
    } else {
      assert (a + b)[1..] == a[1..] + b;
      ReverseSplit(a[1..], b);
    }
  }

  lemma Associate<T>(a: seq<T>, b: seq<T>, c: seq<T>)
    ensures (a + b) + c == a + (b + c)
  {
  }

  /** A sequence is its front and its last element. */
  lemma LastPart<T>(q: seq<T>)
    requires q != []
    ensures q == q[..|q| - 1] + [q[|q| - 1]]
  {
  }

  /** A reversed sequence begins with the last element. */
  lemma ReverseLast<T>(q: seq<T>)
    requires q != []
    ensures Reverse(q) == [q[|q| - 1]] + Reverse(q[..|q| - 1])
  {
    var e, rest := q[|q| - 1], q[..|q| - 1];
    LastPart(q);
    ReverseSplit(rest, [e]);
    assert Reverse([e]) == [e];
  }

  lemma {:induction false} ReverseAt<T>(s: seq<T>, i: nat)
    requires i < |s|
    ensures |Reverse(s)| == |s| && Reverse(s)[|s| - 1 - i] == s[i]
  {
    if |s| > 1 {
      ReverseAt(s[1..], if i == 0 then 0 else i - 1);
    }
  }

  lemma {:induction false} ReverseMembers<T>(s: seq<T>)
    ensures |Reverse(s)| == |s|
    ensures forall x :: x in Reverse(s) <==> x in s
  {
    if s != [] {
      ReverseMembers(s[1..]);
      assert s == [s[0]] + s[1..];
    }
  }

  /** A sequence without repetitions. */
  ghost predicate Distinct<T>(s: seq<T>)
  {
    forall i, j :: 0 <= i < j < |s| ==> s[i] != s[j]
  }

  function Elements<T>(s: seq<T>): set<T>
  {
    set x | x in s
  }

  lemma {:induction false} DistinctSize<T>(s: seq<T>)
    requires Distinct(s)
    ensures |Elements(s)| == |s|
  {
    if s != [] {
      var t := s[..|s| - 1];
      var last := s[|s| - 1];
      DistinctSize(t);
      assert last !in t;
      assert Elements(s) == Elements(t) + {last};
    }
  }

  /** Pigeonhole: a sequence over a set that is longer than the set repeats an element. */
  lemma Pigeonhole<T>(s: seq<T>, universe: set<T>)
    requires forall x :: x in s ==> x in universe
    requires |s| > |universe|
    ensures exists i, j :: 0 <= i < j < |s| && s[i] == s[j]
  {
    if Distinct(s) {
      DistinctSize(s);
      SubsetSize(Elements(s), universe);
    }
  }

  lemma SubsetSize<T>(a: set<T>, b: set<T>)
    requires a <= b
    ensures |a| <= |b|
  {
    assert b == a + (b - a);
  }

  /** Lists a set in an arbitrary order, the way iterating a hash map does. */
  method Enumerate<T(==)>(s: set<T>) returns (order: seq<T>)
    ensures Distinct(order)
    ensures forall x :: x in order <==> x in s
  {
    order := [];
    var rest := s;
    while rest != {}
      invariant rest <= s
      invariant Distinct(order)
      invariant forall x :: x in order <==> x in s - rest
      decreases rest
    {
      var x :| x in rest;
      assert x !in order;
      order := order + [x];
      rest := rest - {x};
    }
  }
}
