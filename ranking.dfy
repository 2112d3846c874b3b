/** The per-route summaries built for the alternative routes and the order
    `routeDetails.sort(function(a, b) { return b.distance - a.distance; })`
    puts them in. `Array.prototype.sort` is stable, so the sort is modelled
    as a stable insertion sort driven by that comparator. */
module Ranking {
  import opened Routes

  /** `{index, distance, duration, route}`. The source keeps `distance` in
      kilometres (metres / 1000); it is kept here in metres, which orders the
      same way. `duration` is in whole minutes. */
  datatype RouteSummary = RouteSummary(index: nat, distance: nat, duration: nat, route: Route)

  /** The comparator: negative when `a` belongs before `b`, zero on a tie. */
  function Compare(a: RouteSummary, b: RouteSummary): int
  {
    b.distance - a.distance
  }

  /** The order the sorted list ends up in: longer first, earlier index first on a tie. */
  predicate Precedes(a: RouteSummary, b: RouteSummary)
  {
    a.distance > b.distance || (a.distance == b.distance && a.index < b.index)
  }

  predicate Ranked(r: seq<RouteSummary>)
  {
    forall i, j :: 0 <= i < j < |r| ==> Precedes(r[i], r[j])
  }

  /** The summaries appear in the order of their indices, as they are built. */
  predicate IndexOrdered(s: seq<RouteSummary>)
  {
    forall i, j :: 0 <= i < j < |s| ==> s[i].index < s[j].index
  }

  /** Puts `x`, which came before every element of `s`, in front of the first
      element the comparator does not place before it. */
  function Insert(x: RouteSummary, s: seq<RouteSummary>): (r: seq<RouteSummary>)
    ensures multiset(r) == multiset(s) + multiset{x}
    decreases |s|
  {
    if s == [] || Compare(x, s[0]) <= 0 then [x] + s
    else
      assert s == [s[0]] + s[1..];
      [s[0]] + Insert(x, s[1..])
  }

  /** Stable sort of the summaries by the comparator. */
  function SortByDistance(s: seq<RouteSummary>): (r: seq<RouteSummary>)
    ensures multiset(r) == multiset(s)
    decreases |s|
  {
    if s == [] then []
    else
      assert s == [s[0]] + s[1..];
      Insert(s[0], SortByDistance(s[1..]))
  }

  lemma {:induction false} InsertRanked(x: RouteSummary, s: seq<RouteSummary>)
    requires Ranked(s)
    requires forall k :: 0 <= k < |s| ==> x.index < s[k].index
    ensures Ranked(Insert(x, s))
    decreases |s|
  {
    var r := Insert(x, s);
    if s == [] || Compare(x, s[0]) <= 0 {
      assert r == [x] + s;
      forall j | 0 < j < |r| ensures Precedes(r[0], r[j]) {
        assert r[j] == s[j - 1];
        if j > 1 { assert Precedes(s[0], s[j - 1]); }
      }
    } else {
      var t := Insert(x, s[1..]);
      InsertRanked(x, s[1..]);
      assert r == [s[0]] + t;
      forall j | 0 <= j < |t| ensures Precedes(s[0], t[j]) {
        assert t[j] in multiset(s[1..]) + multiset{x};
        if t[j] != x {
          assert t[j] in s[1..];
          var k :| 1 <= k < |s| && s[k] == t[j];
        }
      }
    }
  }

  /** Sorting summaries that are in index order yields them longest first,
      ties kept in their original order. */
  lemma {:induction false} SortRanked(s: seq<RouteSummary>)
    requires IndexOrdered(s)
    ensures Ranked(SortByDistance(s))
    decreases |s|
  {
    if s != [] {
      var t := SortByDistance(s[1..]);
      SortRanked(s[1..]);
      forall k | 0 <= k < |t| ensures s[0].index < t[k].index {
        assert t[k] in multiset(s[1..]);
        var m :| 0 <= m < |s[1..]| && s[1..][m] == t[k];
        assert s[m + 1] == t[k];
      }
      InsertRanked(s[0], t);
    }
  }
}
