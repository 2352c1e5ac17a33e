/**
  The rows OASIS returns and the price series built from them (lines 156-164 and 180).
  A row carries its interval start (`INTERVALSTARTTIME_GMT`), its `LMP_TYPE` tag and
  the two price columns the markets use (`MW`, `PRC`); prices are opaque values of
  type `P`, and `None` stands for a null cell.
*/
module Prices {
  import opened Wrappers
  import opened Markets

  datatype Row<P> = Row(time: int, lmpType: string, mw: Option<P>, prc: Option<P>)

  datatype Point<P> = Point(time: int, price: Option<P>)

  type Series<P> = seq<Point<P>>

  function PriceIn<P>(col: PriceColumn, r: Row<P>): Option<P> {
    match col
    case MW => r.mw
    case PRC => r.prc
  }

  function PointOf<P>(col: PriceColumn, r: Row<P>): Point<P> {
    Point(r.time, PriceIn(col, r))
  }

  predicate Sorted<P>(s: Series<P>) {
    forall a, b :: 0 <= a < b < |s| ==> s[a].time <= s[b].time
  }

  /** The `isna().any()` check fails on none of the points. */
  predicate NoNulls<P>(s: Series<P>) {
    forall j :: 0 <= j < |s| ==> s[j].price.Some?
  }

  /** Places `p` before the first point that is not earlier than it. */
  function Insert<P>(p: Point<P>, s: Series<P>): (r: Series<P>)
    ensures multiset(r) == multiset(s) + multiset{p}
  {
    if s == [] || p.time <= s[0].time then [p] + s
    else
      assert s == [s[0]] + s[1..];
      [s[0]] + Insert(p, s[1..])
  }

  /** A point no later than every point of a sorted series can go in front of it. */
  lemma ConsSorted<P>(x: Point<P>, s: Series<P>)
    requires Sorted(s) && forall j :: 0 <= j < |s| ==> x.time <= s[j].time
    ensures Sorted([x] + s)
  {
    var r := [x] + s;
    forall a, b | 0 <= a < b < |r| ensures r[a].time <= r[b].time {
      assert r[b] == s[b - 1];
      if a > 0 {
        assert r[a] == s[a - 1];
      }
    }
  }

  lemma {:induction false} InsertSorted<P>(p: Point<P>, s: Series<P>)
    requires Sorted(s)
    ensures Sorted(Insert(p, s))
  {
    if s == [] || p.time <= s[0].time {
      forall j | 0 <= j < |s| ensures p.time <= s[j].time {
        if j > 0 {
          assert s[0].time <= s[j].time;
        }
      }
      ConsSorted(p, s);
    } else {
      InsertSorted(p, s[1..]);
      var rest := Insert(p, s[1..]);
      forall j | 0 <= j < |rest| ensures s[0].time <= rest[j].time {
        assert rest[j] in multiset(s[1..]) + multiset{p} by {
          assert rest[j] in multiset(rest);
        }
        if rest[j] != p {
          var k :| 0 <= k < |s[1..]| && s[1..][k] == rest[j];
          assert s[k + 1] == rest[j];
        }
      }
      ConsSorted(s[0], rest);
    }
  }

  /** `sort_index()`: the same points in timestamp order. */
  function SortByTime<P>(s: Series<P>): (r: Series<P>)
    ensures Sorted(r)
    ensures multiset(r) == multiset(s)
  {
    if s == [] then []
    else
      assert s == [s[0]] + s[1..];
      var sorted := SortByTime(s[1..]);
      InsertSorted(s[0], sorted);
      Insert(s[0], sorted)
  }

  /** The points of the rows tagged `LMP`, in row order, projected on the price column. */
  function LmpPoints<P>(col: PriceColumn, rows: seq<Row<P>>): (r: Series<P>)
    ensures |r| <= |rows|
  {
    if rows == [] then []
    else (if rows[0].lmpType == "LMP" then [PointOf(col, rows[0])] else []) + LmpPoints(col, rows[1..])
  }

  lemma {:induction false} LmpPointsMembers<P>(col: PriceColumn, rows: seq<Row<P>>, p: Point<P>)
    ensures p in LmpPoints(col, rows) <==>
      exists j :: 0 <= j < |rows| && rows[j].lmpType == "LMP" && PointOf(col, rows[j]) == p
  {
    if rows != [] {
      LmpPointsMembers(col, rows[1..], p);
      if p in LmpPoints(col, rows[1..]) {
        var j :| 0 <= j < |rows[1..]| && rows[1..][j].lmpType == "LMP" && PointOf(col, rows[1..][j]) == p;
        assert rows[j + 1] == rows[1..][j];
      }
      if exists j :: 0 <= j < |rows| && rows[j].lmpType == "LMP" && PointOf(col, rows[j]) == p {
        var j :| 0 <= j < |rows| && rows[j].lmpType == "LMP" && PointOf(col, rows[j]) == p;
        if j > 0 {
          assert rows[1..][j - 1] == rows[j];
        }
      }
    }
  }

  /**
    Lines 158-162: the per-window series, i.e. the `LMP` rows projected on the market's
    price column, in timestamp order.
  */
  function LmpSeries<P>(col: PriceColumn, rows: seq<Row<P>>): (r: Series<P>)
    ensures Sorted(r)
    ensures multiset(r) == multiset(LmpPoints(col, rows))
  {
    SortByTime(LmpPoints(col, rows))
  }

  /** A stored series holds exactly the points of the `LMP` rows, and no other row. */
  lemma LmpSeriesMembers<P>(col: PriceColumn, rows: seq<Row<P>>, p: Point<P>)
    ensures p in LmpSeries(col, rows) <==>
      exists j :: 0 <= j < |rows| && rows[j].lmpType == "LMP" && PointOf(col, rows[j]) == p
  {
    LmpPointsMembers(col, rows, p);
    assert p in LmpSeries(col, rows) <==> p in multiset(LmpSeries(col, rows));
    assert p in LmpPoints(col, rows) <==> p in multiset(LmpPoints(col, rows));
  }

  /** `pd.concat(results_dict.values())`, walking the keys in chunk-start order. */
  function Gather<P>(keys: seq<int>, stored: map<int, Series<P>>): Series<P> {
    if keys == [] then []
    else (if keys[0] in stored then stored[keys[0]] else []) + Gather(keys[1..], stored)
  }

  lemma {:induction false} GatherMembers<P>(keys: seq<int>, stored: map<int, Series<P>>, p: Point<P>)
    ensures p in Gather(keys, stored) <==>
      exists j :: 0 <= j < |keys| && keys[j] in stored && p in stored[keys[j]]
  {
    if keys != [] {
      GatherMembers(keys[1..], stored, p);
      if p in Gather(keys[1..], stored) {
        var j :| 0 <= j < |keys[1..]| && keys[1..][j] in stored && p in stored[keys[1..][j]];
        assert keys[j + 1] == keys[1..][j];
      }
      if exists j :: 0 <= j < |keys| && keys[j] in stored && p in stored[keys[j]] {
        var j :| 0 <= j < |keys| && keys[j] in stored && p in stored[keys[j]];
        if j > 0 {
          assert keys[1..][j - 1] == keys[j];
        }
      }
    }
  }

  lemma {:induction false} GatherNothing<P>(keys: seq<int>, stored: map<int, Series<P>>)
    requires forall j :: 0 <= j < |keys| ==> keys[j] !in stored
    ensures Gather(keys, stored) == []
  {
    if keys != [] {
      GatherNothing(keys[1..], stored);
    }
  }

  /** Line 180: all stored series, concatenated and sorted by timestamp. */
  function Merge<P>(keys: seq<int>, stored: map<int, Series<P>>): (r: Series<P>)
    ensures Sorted(r)
    ensures multiset(r) == multiset(Gather(keys, stored))
  {
    SortByTime(Gather(keys, stored))
  }

  /** The merged series holds exactly the points of the stored series whose key is a chunk start. */
  lemma MergeMembers<P>(keys: seq<int>, stored: map<int, Series<P>>, p: Point<P>)
    ensures p in Merge(keys, stored) <==>
      exists j :: 0 <= j < |keys| && keys[j] in stored && p in stored[keys[j]]
  {
    GatherMembers(keys, stored, p);
    assert p in Merge(keys, stored) <==> p in multiset(Merge(keys, stored));
    assert p in Gather(keys, stored) <==> p in multiset(Gather(keys, stored));
  }

  lemma MergeNothing<P>(keys: seq<int>)
    ensures Merge<P>(keys, map[]) == []
  {
    GatherNothing<P>(keys, map[]);
  }
}
