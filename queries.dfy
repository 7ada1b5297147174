/** The three list queries: `SELECT ... WHERE ... ORDER BY ...` as a filter
    followed by a sort on an integer key. The database does not promise an
    order among rows with equal keys, so the contracts promise none. */
module Queries {
  import opened Wrappers
  import opened Http
  import opened Models

  /** `WHERE p`: the rows satisfying `p`, in table order. */
  function Filter<T>(s: seq<T>, p: T -> bool): (r: seq<T>)
    ensures |r| <= |s|
    ensures forall i :: 0 <= i < |r| ==> p(r[i]) && r[i] in s
    ensures forall i :: 0 <= i < |s| && p(s[i]) ==> s[i] in r
  {
    if s == [] then [] else (if p(s[0]) then [s[0]] else []) + Filter(s[1..], p)
  }

  /** Membership in a filter, element by element. */
  lemma FilterMember<T>(s: seq<T>, p: T -> bool, x: T)
    ensures x in Filter(s, p) <==> x in s && p(x)
  {
    if x in s && p(x) {
      var i :| 0 <= i < |s| && s[i] == x;
    }
  }

  /** A sorted filter holds exactly the rows that pass the filter. */
  lemma SortFilterMember<T>(s: seq<T>, p: T -> bool, key: T -> int)
    ensures forall x :: x in SortBy(Filter(s, p), key) <==> x in s && p(x)
  {
    forall x ensures x in SortBy(Filter(s, p), key) <==> x in s && p(x) {
      FilterMember(s, p, x);
      assert x in SortBy(Filter(s, p), key) <==> x in multiset(SortBy(Filter(s, p), key));
    }
  }

  /** Keeping the rows order by `key`, ascending. */
  predicate Sorted<T>(s: seq<T>, key: T -> int) {
    forall i, j :: 0 <= i < j < |s| ==> key(s[i]) <= key(s[j])
  }

  /** Inserts `x` into an ordered sequence, keeping it ordered; the result
      begins with `x` or with the old first element. */
  function Insert<T>(x: T, s: seq<T>, key: T -> int): (r: seq<T>)
    requires Sorted(s, key)
    ensures Sorted(r, key)
    ensures multiset(r) == multiset(s) + multiset{x}
    ensures |r| == |s| + 1
    ensures r[0] == x || (s != [] && r[0] == s[0])
  {
    if s == [] || key(x) <= key(s[0]) then [x] + s
    else
      var rest := Insert(x, s[1..], key);
      assert s == [s[0]] + s[1..];
      [s[0]] + rest
  }

  /** `ORDER BY key ASC`: a reordering of the rows that is sorted. */
  function SortBy<T>(s: seq<T>, key: T -> int): (r: seq<T>)
    ensures Sorted(r, key)
    ensures multiset(r) == multiset(s)
  {
    if s == [] then []
    else
      assert s == [s[0]] + s[1..];
      Insert(s[0], SortBy(s[1..], key), key)
  }

  predicate Ranked(w: Watched) { w.topRank.Some? }

  predicate Unranked(w: Watched) { w.topRank.None? }

  function RankKey(w: Watched): int {
    if w.topRank.Some? then w.topRank.value else 0
  }

  /** `ORDER BY watch_date DESC` as an ascending key. */
  function RecentFirst(w: Watched): int { -DateKey(w.watchDate) }

  /** `ORDER BY launch_date DESC` as an ascending key. */
  function LaunchFirst(w: WantToWatch): int { -DateKey(w.launchDate) }

  /** `get_top_list`: exactly the ranked rows, by rank ascending. */
  function TopList(rows: seq<Watched>): (r: seq<Watched>)
    ensures multiset(r) == multiset(Filter(rows, Ranked))
    ensures forall w :: w in r <==> w in rows && w.topRank.Some?
    ensures forall i, j :: 0 <= i < j < |r| ==> r[i].topRank.value <= r[j].topRank.value
  {
    var ranked := Filter(rows, Ranked);
    var r := SortBy(ranked, RankKey);
    SortFilterMember(rows, Ranked, RankKey);
    r
  }

  /** `get_watched_list`: exactly the unranked rows, most recently watched first. */
  function WatchedList(rows: seq<Watched>): (r: seq<Watched>)
    ensures multiset(r) == multiset(Filter(rows, Unranked))
    ensures forall w :: w in r <==> w in rows && w.topRank.None?
    ensures forall i, j :: 0 <= i < j < |r| ==> DateKey(r[j].watchDate) <= DateKey(r[i].watchDate)
  {
    var unranked := Filter(rows, Unranked);
    var r := SortBy(unranked, RecentFirst);
    SortFilterMember(rows, Unranked, RecentFirst);
    assert forall i, j :: 0 <= i < j < |r| ==> RecentFirst(r[i]) <= RecentFirst(r[j]);
    r
  }

  /** `get_want_to_watch_list`: every row, latest launch date first. */
  function WantToWatchList(rows: seq<WantToWatch>): (r: seq<WantToWatch>)
    ensures multiset(r) == multiset(rows)
    ensures forall i, j :: 0 <= i < j < |r| ==> DateKey(r[j].launchDate) <= DateKey(r[i].launchDate)
  {
    var r := SortBy(rows, LaunchFirst);
    assert forall i, j :: 0 <= i < j < |r| ==> LaunchFirst(r[i]) <= LaunchFirst(r[j]);
    r
  }

  /** Splitting by a condition and its negation loses and duplicates nothing. */
  lemma {:induction false} FilterSplit<T>(s: seq<T>, p: T -> bool, q: T -> bool)
    requires forall i :: 0 <= i < |s| ==> (q(s[i]) <==> !p(s[i]))
    ensures multiset(Filter(s, p)) + multiset(Filter(s, q)) == multiset(s)
  {
    if s != [] {
      FilterSplit(s[1..], p, q);
      assert s == [s[0]] + s[1..];
    }
  }

  /** Every watched row appears on exactly one of the two watched lists:
      the top list and the watched list together are the table. */
  lemma ListsPartition(rows: seq<Watched>)
    ensures multiset(TopList(rows)) + multiset(WatchedList(rows)) == multiset(rows)
  {
    FilterSplit(rows, Ranked, Unranked);
  }

  /** The JSON list routes check every row they return against the record
      type, and a row outside its ranges makes the whole answer a 500. */
  function Checked<T>(rows: seq<T>, valid: T -> bool): (r: Result<seq<T>, HttpError>)
    ensures r.Ok? <==> forall i :: 0 <= i < |rows| ==> valid(rows[i])
    ensures r.Ok? ==> r.value == rows
    ensures r.Err? ==> r.error == InternalServerError
  {
    if forall i :: 0 <= i < |rows| ==> valid(rows[i]) then Ok(rows) else Err(InternalServerError)
  }

  predicate WatchedValid(w: Watched) { w.Valid() }

  predicate WantToWatchValid(w: WantToWatch) { w.Valid() }

  /** `GET /top`: the top list, or a 500 when a ranked row breaks the
      `Watched` ranges. */
  function TopRoute(rows: seq<Watched>): (r: Result<seq<Watched>, HttpError>)
    ensures r.Ok? <==> forall w :: w in rows && w.topRank.Some? ==> w.Valid()
    ensures r.Ok? ==> r.value == TopList(rows)
    ensures r.Err? ==> r.error == InternalServerError
  {
    var l := TopList(rows);
    assert forall w :: w in l <==> w in rows && w.topRank.Some?;
    Checked(l, WatchedValid)
  }

  /** `GET /watched`: the watched list, or a 500 when an unranked row breaks
      the `Watched` ranges. */
  function WatchedRoute(rows: seq<Watched>): (r: Result<seq<Watched>, HttpError>)
    ensures r.Ok? <==> forall w :: w in rows && w.topRank.None? ==> w.Valid()
    ensures r.Ok? ==> r.value == WatchedList(rows)
    ensures r.Err? ==> r.error == InternalServerError
  {
    var l := WatchedList(rows);
    assert forall w :: w in l <==> w in rows && w.topRank.None?;
    Checked(l, WatchedValid)
  }

  /** Two orderings of the same rows hold the same rows. */
  lemma SameMembers<T>(a: seq<T>, b: seq<T>)
    requires multiset(a) == multiset(b)
    ensures forall x :: x in a <==> x in b
  {
    forall x ensures x in a <==> x in b {
      assert x in a <==> x in multiset(a);
      assert x in b <==> x in multiset(b);
    }
  }

  /** `GET /want-to-watch`: the watch-list, or a 500 when any row breaks the
      `WantToWatch` ranges. */
  function WantToWatchRoute(rows: seq<WantToWatch>): (r: Result<seq<WantToWatch>, HttpError>)
    ensures r.Ok? <==> forall w :: w in rows ==> w.Valid()
    ensures r.Ok? ==> r.value == WantToWatchList(rows)
    ensures r.Err? ==> r.error == InternalServerError
  {
    var l := WantToWatchList(rows);
    SameMembers(l, rows);
    Checked(l, WantToWatchValid)
  }

  /** One stored watched row outside the ranges (which a create that
      answered 500 leaves behind) breaks the list route it belongs to until
      it is corrected. */
  lemma InvalidRowBreaksRoute(rows: seq<Watched>, w: Watched)
    requires w in rows && !w.Valid()
    ensures w.topRank.Some? ==> TopRoute(rows).Err?
    ensures w.topRank.None? ==> WatchedRoute(rows).Err?
  {
  }
}
