// Sorting sets of ids: what ordered maps and `sort_by_key` on unique keys produce.

module Sorting {
  import opened Basics

  ghost predicate Increasing(q: seq<nat>)
  {
    forall i, j :: 0 <= i < j < |q| ==> q[i] < q[j]
  }

  lemma {:induction false} LeastOf(s: set<nat>) returns (m: nat)
    requires s != {}
    ensures m in s && forall x :: x in s ==> m <= x
  {
    var y :| y in s;
    if s == {y} {
      m := y;
    } else {
      var least := LeastOf(s - {y});
      m := if y < least then y else least;
      assert forall x :: x in s ==> x == y || x in s - {y};
    }
  }

  lemma HasLeast(s: set<nat>)
    requires s != {}
    ensures exists m :: m in s && forall x :: x in s ==> m <= x
  {
    var m := LeastOf(s);
  }

  /** The elements of a set in increasing order. */
  ghost function InOrder(s: set<nat>): (q: seq<nat>)
    ensures Increasing(q) && forall x :: x in q <==> x in s
  {
    if s == {} then []
    else
      HasLeast(s);
      var m :| m in s && forall x :: x in s ==> m <= x;
      var rest := InOrder(s - {m});
      HeadFirst(s, m, rest);
      [m] + rest
  }

  lemma HeadFirst(s: set<nat>, m: nat, rest: seq<nat>)
    requires m in s && forall x :: x in s ==> m <= x
    requires Increasing(rest) && forall x :: x in rest <==> x in s - {m}
    ensures Increasing([m] + rest) && forall x :: x in [m] + rest <==> x in s
  {
    assert forall x :: x in s <==> x == m || x in s - {m};
    assert forall i :: 0 <= i < |rest| ==> rest[i] in s - {m};
  }

  lemma HeadIsMember<T>(q: seq<T>)
    requires q != []
    ensures exists x :: x in q
  {
    assert q[0] in q;
  }

  lemma {:induction false} IncreasingIsUnique(a: seq<nat>, b: seq<nat>)
    requires Increasing(a) && Increasing(b) && forall x :: x in a <==> x in b
    ensures a == b
  {
    if a == [] {
      if b != [] { HeadIsMember(b); }
    } else {
      assert a[0] in b && b != [] && b[0] in a;
      assert a[0] == b[0];
      forall x ensures x in a[1..] <==> x in b[1..] {
        assert x in a <==> x == a[0] || x in a[1..];
        assert x in b <==> x == b[0] || x in b[1..];
      }
      IncreasingIsUnique(a[1..], b[1..]);
      assert a == [a[0]] + a[1..] && b == [b[0]] + b[1..];
    }
  }

  /** Sorts distinct ids. */
  method SortIds(ids: seq<nat>) returns (sorted: seq<nat>)
    requires Distinct(ids)
    ensures Increasing(sorted) && forall x :: x in sorted <==> x in ids
  {
    sorted := [];
    for i := 0 to |ids|
      invariant Increasing(sorted) && forall x :: x in sorted <==> x in ids[..i]
    {
      var at := 0;
      while at < |sorted| && sorted[at] < ids[i]
        invariant 0 <= at <= |sorted| && forall j :: 0 <= j < at ==> sorted[j] < ids[i]
      {
        at := at + 1;
      }
      assert ids[i] !in sorted;
      assert ids[..i + 1] == ids[..i] + [ids[i]];
      sorted := sorted[..at] + [ids[i]] + sorted[at..];
    }
    assert ids[..|ids|] == ids;
  }
}
