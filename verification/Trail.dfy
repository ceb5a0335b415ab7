/** The approval trail loaded with a directive: its records ordered by time, and by key where times are equal.
    A record's key is its position in the log. */
module Trail {
  import opened Model

  ghost predicate Positions(s: seq<Approval>, list: seq<nat>) {
    forall i :: 0 <= i < |list| ==> list[i] < |s|
  }

  predicate Earlier(s: seq<Approval>, a: nat, b: nat)
    requires a < |s| && b < |s|
  {
    s[a].createdAt < s[b].createdAt || (s[a].createdAt == s[b].createdAt && a < b)
  }

  ghost predicate TimeOrdered(s: seq<Approval>, list: seq<nat>) {
    && Positions(s, list)
    && forall i, j :: 0 <= i < j < |list| ==> Earlier(s, list[i], list[j])
  }

  /** Puts a position behind the last one that is no later. */
  function Place(s: seq<Approval>, list: seq<nat>, k: nat): seq<nat>
    requires Positions(s, list) && k < |s|
  {
    if list == [] then [k]
    else
      var last := list[|list| - 1];
      if s[last].createdAt <= s[k].createdAt then list + [k] else Place(s, list[..|list| - 1], k) + [last]
  }

  lemma AppendInOrder(s: seq<Approval>, list: seq<nat>, x: nat)
    requires TimeOrdered(s, list) && x < |s| && forall y :: y in list ==> y < |s| && Earlier(s, y, x)
    ensures TimeOrdered(s, list + [x])
  {
    assert forall i :: 0 <= i < |list| ==> list[i] in list;
  }

  lemma NoLaterThanLast(s: seq<Approval>, list: seq<nat>, y: nat)
    requires TimeOrdered(s, list) && y in list
    ensures y < |s| && (y == list[|list| - 1] || Earlier(s, y, list[|list| - 1]))
  {
    var i :| 0 <= i < |list| && list[i] == y;
  }

  lemma {:induction false} PlaceInOrder(s: seq<Approval>, list: seq<nat>, k: nat)
    requires TimeOrdered(s, list) && k < |s| && forall x :: x in list ==> x < k
    ensures TimeOrdered(s, Place(s, list, k))
    ensures forall x :: x in Place(s, list, k) <==> x in list || x == k
  {
    if list != [] {
      var rest, last := list[..|list| - 1], list[|list| - 1];
      assert list == rest + [last] && last in list;
      hide TimeOrdered, Earlier;
      assert TimeOrdered(s, rest) by { PrefixInOrder(s, list); }
      forall y | y in list
        ensures y < |s| && (y == last || Earlier(s, y, last))
      {
        NoLaterThanLast(s, list, y);
      }
      if s[last].createdAt <= s[k].createdAt {
        forall y | y in list
          ensures Earlier(s, y, k)
        {
          Onwards(s, y, last, k);
        }
        AppendInOrder(s, list, k);
      } else {
        PlaceInOrder(s, rest, k);
        LastOnce(s, list);
        forall y | y in Place(s, rest, k)
          ensures y < |s| && Earlier(s, y, last)
        {
          Sooner(s, k, last);
        }
        AppendInOrder(s, Place(s, rest, k), last);
      }
    }
  }

  lemma PrefixInOrder(s: seq<Approval>, list: seq<nat>)
    requires TimeOrdered(s, list) && list != []
    ensures TimeOrdered(s, list[..|list| - 1])
  {
  }

  lemma Onwards(s: seq<Approval>, y: nat, last: nat, k: nat)
    requires y < k < |s| && last < |s| && (y == last || Earlier(s, y, last)) && s[last].createdAt <= s[k].createdAt
    ensures Earlier(s, y, k)
  {
  }

  lemma Sooner(s: seq<Approval>, k: nat, last: nat)
    requires k < |s| && last < |s| && s[k].createdAt < s[last].createdAt
    ensures Earlier(s, k, last)
  {
  }

  lemma LastOnce(s: seq<Approval>, list: seq<nat>)
    requires TimeOrdered(s, list) && list != []
    ensures list[|list| - 1] !in list[..|list| - 1]
  {
  }

  /** The positions of a directive's records among the first `n`, in trail order. */
  function TrailUpto(s: seq<Approval>, d: Id, n: nat): (list: seq<nat>)
    requires n <= |s|
    ensures TimeOrdered(s, list) && forall x: nat :: x in list <==> x < n && s[x].directiveId == d
  {
    if n == 0 then []
    else
      var rest := TrailUpto(s, d, n - 1);
      assert forall i :: 0 <= i < |rest| ==> rest[i] in rest;
      if s[n - 1].directiveId != d then rest else (PlaceInOrder(s, rest, n - 1); Place(s, rest, n - 1))
  }

  function RecordsAt(s: seq<Approval>, list: seq<nat>): seq<Approval>
    requires Positions(s, list)
  {
    seq(|list|, i requires 0 <= i < |list| => s[list[i]])
  }

  /** What loading directive `d` returns as its approvals. */
  function LoadedTrail(s: seq<Approval>, d: Id): seq<Approval> {
    RecordsAt(s, TrailUpto(s, d, |s|))
  }

  lemma NotTwice(s: seq<Approval>, list: seq<nat>, i: nat, j: nat)
    requires TimeOrdered(s, list) && i < j < |list|
    ensures list[i] != list[j]
  {
  }

  /** Two records are loaded in the order of their times, or of their keys where the times are equal. */
  lemma TwoLoaded(s: seq<Approval>, d: Id, a: nat, b: nat)
    requires a < |s| && b < |s| && a != b
    requires forall k :: 0 <= k < |s| ==> (s[k].directiveId == d <==> k == a || k == b)
    ensures LoadedTrail(s, d) == if Earlier(s, a, b) then [s[a], s[b]] else [s[b], s[a]]
  {
    var list := TrailUpto(s, d, |s|);
    assert a in list && b in list;
    forall i | 0 <= i < |list|
      ensures list[i] == a || list[i] == b
    {
      assert list[i] in list;
    }
    if |list| > 2 {
      NotTwice(s, list, 0, 1);
      NotTwice(s, list, 1, 2);
      NotTwice(s, list, 0, 2);
      assert false;
    }
    if |list| == 2 {
      assert Earlier(s, list[0], list[1]);
    }
  }
}
