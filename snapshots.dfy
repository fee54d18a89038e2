/** The snapshot history manager of the dashboard: one total-value row per
    calendar day for the signed-in user, backfilled with a synthetic 30-day
    trend the first time, then appended or refreshed once per day, and read
    back as an ascending, date-labelled series for the chart.

    Days are integer day numbers; the random drift of the backfill is an
    injected sequence of draws in [-0.05, 0.05]. */
module Snapshots {
  import opened Common

  /** Number of synthetic rows written by the backfill (`range(30)`). */
  const BackfillDays: nat := 30
  /** Number of rows the chart query returns (`limit(30)`). */
  const SeriesLimit: nat := 30
  /** Bound of one random drift step (`random.uniform(-0.05, 0.05)`). */
  const MaxDrift: real := 0.05

  /** One draw per backfill step, each within the drift bound. */
  predicate ValidDrift(drift: seq<real>) {
    |drift| == BackfillDays &&
    forall i :: 0 <= i < |drift| ==> -MaxDrift <= drift[i] <= MaxDrift
  }

  /** The running base value of the backfill after `n` drift steps: it
      starts at 80% of today's total and each step multiplies it by
      `(1 + drift[j])`. */
  function BaseAfter(total: real, drift: seq<real>, n: nat): real
    requires n <= |drift|
  {
    if n == 0 then 0.8 * total else Drifted(BaseAfter(total, drift, n - 1), drift[n - 1])
  }

  /** A value after one random drift step `r`. */
  function Drifted(value: real, r: real): real {
    value * (1.0 + r)
  }

  /** One step of the loop: drifting the base value after `i` steps gives the
      base value after `i + 1` steps. */
  lemma DriftStep(total: real, drift: seq<real>, i: nat, base: real)
    requires i < |drift| && base == BaseAfter(total, drift, i)
    ensures base * (1.0 + drift[i]) == BaseAfter(total, drift, i + 1)
  {
  }

  /** Under bounded drift every factor is positive, so the base value keeps
      the sign of the total. */
  lemma {:induction false} BaseAfterSign(total: real, drift: seq<real>, n: nat)
    requires ValidDrift(drift) && n <= |drift|
    ensures total >= 0.0 ==> BaseAfter(total, drift, n) >= 0.0
    ensures total > 0.0 ==> BaseAfter(total, drift, n) > 0.0
  {
    if n > 0 {
      BaseAfterSign(total, drift, n - 1);
      DriftedSign(BaseAfter(total, drift, n - 1), drift[n - 1]);
    }
  }

  /** One bounded drift step keeps the sign of a value. */
  lemma DriftedSign(value: real, r: real)
    requires -MaxDrift <= r <= MaxDrift
    ensures value >= 0.0 ==> Drifted(value, r) >= 0.0
    ensures value > 0.0 ==> Drifted(value, r) > 0.0
  {
    var f := 1.0 + r;
    assert f > 0.0;
    assert Drifted(value, r) == value * f;
  }

  /** The value written at step `i` of the backfill: the base value after the
      step's drift, except at the last step, which is forced to today's
      total. */
  function BackfillValue(total: real, drift: seq<real>, i: nat): real
    requires |drift| == BackfillDays && i < BackfillDays
  {
    if i == BackfillDays - 1 then total else BaseAfter(total, drift, i + 1)
  }

  /** The `n` consecutive days starting at `lo`. */
  function Window(lo: int, n: nat): (w: set<int>)
    ensures forall d :: d in w <==> lo <= d < lo + n
    ensures |w| == n
  {
    if n == 0 then {} else Window(lo, n - 1) + {lo + n - 1}
  }

  /** The backfill value of day `d`, one of the 30 days before `today`. */
  function BackfillValueOn(today: int, total: real, drift: seq<real>, d: int): real
    requires |drift| == BackfillDays && today - BackfillDays <= d < today
  {
    BackfillValue(total, drift, d - (today - BackfillDays))
  }

  /** The rows written by the first `n` steps of the backfill: step `i` is
      dated `today - 30 + i`. */
  function BackfillRows(today: int, total: real, drift: seq<real>, n: nat): (r: map<int, real>)
    requires |drift| == BackfillDays && n <= BackfillDays
    ensures forall d :: d in r <==> today - BackfillDays <= d < today - BackfillDays + n
    ensures forall d :: d in r ==> r[d] == BackfillValueOn(today, total, drift, d)
  {
    if n == 0 then map[]
    else BackfillRows(today, total, drift, n - 1)[today - BackfillDays + n - 1 := BackfillValue(total, drift, n - 1)]
  }

  /** The table after one dashboard visit on day `today` with total `total`:
      a backfill when the user has no rows, otherwise an append (no row for
      today yet) or a refresh (a row for today exists), which both leave
      exactly today's row holding the new total. */
  function Recorded(rows: map<int, real>, today: int, total: real, drift: seq<real>): (r: map<int, real>)
    requires |drift| == BackfillDays
    ensures rows == map[] ==> r == BackfillRows(today, total, drift, BackfillDays)
    ensures rows != map[] ==> r.Keys == rows.Keys + {today} && r[today] == total
    ensures rows != map[] ==> forall d :: d in rows && d != today ==> r[d] == rows[d]
  {
    if rows == map[] then BackfillRows(today, total, drift, BackfillDays) else rows[today := total]
  }

  /** The first backfill value is 80% of the total drifted once. */
  lemma FirstBackfillValue(total: real, drift: seq<real>)
    requires |drift| == BackfillDays
    ensures BackfillValue(total, drift, 0) == Drifted(0.8 * total, drift[0])
  {
    assert BaseAfter(total, drift, 1) == Drifted(BaseAfter(total, drift, 0), drift[0]);
  }

  /** Each following value, up to the forced last one, is the previous value
      drifted once more. */
  lemma NextBackfillValue(total: real, drift: seq<real>, i: nat)
    requires |drift| == BackfillDays && 1 <= i < BackfillDays - 1
    ensures BackfillValue(total, drift, i) == Drifted(BackfillValue(total, drift, i - 1), drift[i])
  {
  }

  /** The backfilled table covers exactly the 30 days before today. */
  lemma BackfillDaysCovered(today: int, total: real, drift: seq<real>)
    requires |drift| == BackfillDays
    ensures var r := BackfillRows(today, total, drift, BackfillDays);
      && (forall d :: d in r <==> today - 30 <= d < today)
      && |r| == 30
      && today !in r
  {
    var r := BackfillRows(today, total, drift, BackfillDays);
    assert r.Keys == Window(today - 30, 30);
  }

  /** The first backfilled row is 80% of the total drifted once, and the
      row for yesterday is exactly the total. */
  lemma BackfillEnds(today: int, total: real, drift: seq<real>)
    requires |drift| == BackfillDays
    ensures BackfillRows(today, total, drift, BackfillDays)[today - 30] == Drifted(0.8 * total, drift[0])
    ensures BackfillRows(today, total, drift, BackfillDays)[today - 1] == total
  {
    FirstBackfillValue(total, drift);
  }

  /** Each backfilled row between the first and the last is the previous
      day's row drifted by the step's draw. */
  lemma BackfillSteps(today: int, total: real, drift: seq<real>)
    requires |drift| == BackfillDays
    ensures forall i :: 1 <= i < BackfillDays - 1 ==>
      BackfillRows(today, total, drift, BackfillDays)[today - 30 + i]
        == Drifted(BackfillRows(today, total, drift, BackfillDays)[today - 31 + i], drift[i])
  {
    var r := BackfillRows(today, total, drift, BackfillDays);
    forall i | 1 <= i < BackfillDays - 1
      ensures r[today - 30 + i] == Drifted(r[today - 31 + i], drift[i])
    {
      assert r[today - 31 + i] == BackfillValue(total, drift, i - 1);
      NextBackfillValue(total, drift, i);
    }
  }

  /** Under bounded drift, a non-negative total gives non-negative rows and
      a positive total positive rows. */
  lemma BackfillSign(today: int, total: real, drift: seq<real>)
    requires ValidDrift(drift)
    ensures var r := BackfillRows(today, total, drift, BackfillDays);
      && (total >= 0.0 ==> forall d :: d in r ==> r[d] >= 0.0)
      && (total > 0.0 ==> forall d :: d in r ==> r[d] > 0.0)
  {
    var r := BackfillRows(today, total, drift, BackfillDays);
    forall d | d in r
      ensures total >= 0.0 ==> r[d] >= 0.0
      ensures total > 0.0 ==> r[d] > 0.0
    {
      var i := d - (today - 30);
      if i < 29 {
        BaseAfterSign(total, drift, i + 1);
      }
    }
  }

  /** Once some history exists, a second visit on the same day replaces the
      value of today's row and changes nothing else: the result is as if only
      the second visit had happened. On every path, including right after a
      backfill (whose second visit appends today's row), today's row holds
      the latest total. */
  lemma SameDayRefresh(rows: map<int, real>, today: int, first: real, second: real, drift: seq<real>, drift': seq<real>)
    requires |drift| == BackfillDays && |drift'| == BackfillDays
    ensures var once := Recorded(rows, today, first, drift);
      rows != map[] ==> Recorded(once, today, second, drift') == Recorded(rows, today, second, drift')
    ensures var twice := Recorded(Recorded(rows, today, first, drift), today, second, drift');
      today in twice && twice[today] == second
  {
    var once := Recorded(rows, today, first, drift);
    if rows == map[] {
      assert today - BackfillDays in once;
    }
  }

  /** The number of rows grows by one exactly when a non-empty history has no
      row for today. */
  lemma RowCount(rows: map<int, real>, today: int, total: real, drift: seq<real>)
    requires |drift| == BackfillDays
    ensures rows != map[] && today in rows ==> |Recorded(rows, today, total, drift)| == |rows|
    ensures rows != map[] && today !in rows ==> |Recorded(rows, today, total, drift)| == |rows| + 1
    ensures rows == map[] ==> |Recorded(rows, today, total, drift)| == BackfillDays
  {
    var r := Recorded(rows, today, total, drift);
    if rows == map[] {
      assert r.Keys == Window(today - 30, 30);
    } else if today in rows {
      assert r.Keys == rows.Keys;
    } else {
      assert r.Keys == rows.Keys + {today};
    }
  }

  // ---------------------------------------------------------------------
  // Read-back

  predicate Increasing(s: seq<int>) {
    forall i, j :: 0 <= i < j < |s| ==> s[i] < s[j]
  }

  /** The earliest day of a non-empty set of days. */
  function Earliest(s: set<int>): (m: int)
    requires s != {}
    ensures m in s && forall k :: k in s ==> m <= k
  {
    EarliestExists(s);
    var m :| m in s && forall k :: k in s ==> m <= k; m
  }

  lemma {:induction false} EarliestExists(s: set<int>)
    requires s != {}
    ensures exists m :: m in s && forall k :: k in s ==> m <= k
    decreases |s|
  {
    var x := Pick(s);
    var rest := s - {x};
    assert s == rest + {x};
    if rest == {} {
      EarliestOfInsert(rest, x, x);
    } else {
      EarliestExists(rest);
      var m :| m in rest && forall k :: k in rest ==> m <= k;
      EarliestOfInsert(rest, x, m);
    }
  }

  /** Adding a day to a set whose earliest day is `m` (or to the empty set,
      with `m` the added day) gives the smaller of the two as earliest. */
  lemma EarliestOfInsert(s: set<int>, x: int, m: int)
    requires (s == {} && m == x) || (m in s && forall k :: k in s ==> m <= k)
    ensures var n := if x < m then x else m; n in s + {x} && forall k :: k in s + {x} ==> n <= k
  {
  }

  /** The days of a table in ascending order (the `order_by(date)` of the query). */
  function Ascending(s: set<int>): (r: seq<int>)
    ensures |r| == |s|
    ensures forall i :: 0 <= i < |r| ==> r[i] in s
    ensures forall d :: d in s ==> d in r
    ensures Increasing(r)
    decreases |s|
  {
    if s == {} then []
    else
      var m := Earliest(s);
      var rest := Ascending(s - {m});
      IncreasingCons(m, rest);
      [m] + rest
  }

  /** Putting a day before an increasing sequence of later days keeps it
      increasing. */
  lemma IncreasingCons(m: int, rest: seq<int>)
    requires Increasing(rest)
    requires forall j :: 0 <= j < |rest| ==> m < rest[j]
    ensures Increasing([m] + rest)
  {
    var r := [m] + rest;
    forall i, j | 0 <= i < j < |r|
      ensures r[i] < r[j]
    {
      assert r[j] == rest[j - 1];
      if i > 0 {
        assert r[i] == rest[i - 1];
      }
    }
  }

  /** A chart series: day labels and values, index by index. */
  datatype Series = Series(labels: seq<int>, values: seq<real>)

  function Min(a: nat, b: nat): nat {
    if a <= b then a else b
  }

  /** The series of the given days of the table. */
  function SeriesOf(rows: map<int, real>, days: seq<int>): (s: Series)
    requires forall i :: 0 <= i < |days| ==> days[i] in rows
    ensures s.labels == days && |s.values| == |days|
    ensures forall i :: 0 <= i < |days| ==> s.values[i] == rows[days[i]]
  {
    Series(days, seq(|days|, i requires 0 <= i < |days| => rows[days[i]]))
  }

  /** The first `n` elements of an increasing sequence are increasing, and
      every element left out is larger than each of them. */
  lemma IncreasingPrefix(all: seq<int>, n: nat)
    requires Increasing(all) && n <= |all|
    ensures Increasing(all[..n])
    ensures forall x, i :: x in all && x !in all[..n] && 0 <= i < n ==> all[..n][i] < x
  {
    forall x, i | x in all && x !in all[..n] && 0 <= i < n
      ensures all[..n][i] < x
    {
      var j :| 0 <= j < |all| && all[j] == x;
      assert j >= n;
    }
  }

  /** The elements of an increasing sequence from index `k` on are
      increasing, and every element left out is smaller than each of them. */
  lemma IncreasingSuffix(all: seq<int>, k: nat)
    requires Increasing(all) && k <= |all|
    ensures Increasing(all[k..])
    ensures forall x, i :: x in all && x !in all[k..] && 0 <= i < |all| - k ==> x < all[k..][i]
  {
    forall x, i | x in all && x !in all[k..] && 0 <= i < |all| - k
      ensures x < all[k..][i]
    {
      var j :| 0 <= j < |all| && all[j] == x;
      assert j < k;
    }
  }

  /** The chart query AS WRITTEN: sort ascending by date, then take 30 rows,
      which yields the EARLIEST 30 days of the history. */
  function EarliestSeries(rows: map<int, real>): (s: Series)
    ensures |s.labels| == |s.values| == Min(SeriesLimit, |rows|)
    ensures Increasing(s.labels)
    ensures forall i :: 0 <= i < |s.labels| ==> s.labels[i] in rows && s.values[i] == rows[s.labels[i]]
    ensures forall d, i :: d in rows && d !in s.labels && 0 <= i < |s.labels| ==> s.labels[i] < d
  {
    var all := Ascending(rows.Keys);
    var days := all[..Min(SeriesLimit, |all|)];
    IncreasingPrefix(all, |days|);
    SeriesOf(rows, days)
  }

  /** The chart query as evidently intended: the LATEST 30 days of the
      history, still in ascending order. */
  function LatestSeries(rows: map<int, real>): (s: Series)
    ensures |s.labels| == |s.values| == Min(SeriesLimit, |rows|)
    ensures Increasing(s.labels)
    ensures forall i :: 0 <= i < |s.labels| ==> s.labels[i] in rows && s.values[i] == rows[s.labels[i]]
    ensures forall d, i :: d in rows && d !in s.labels && 0 <= i < |s.labels| ==> d < s.labels[i]
  {
    var all := Ascending(rows.Keys);
    var start := |all| - Min(SeriesLimit, |all|);
    var days := all[start..];
    IncreasingSuffix(all, start);
    SeriesOf(rows, days)
  }

  /** With more than 30 rows the query as written never shows the most recent
      day: the chart stops moving once the history is longer than 30 days.
      The corrected query always shows it. */
  lemma EarliestSeriesHidesLatestDay(rows: map<int, real>, latest: int)
    requires |rows| > SeriesLimit
    requires latest in rows && forall d :: d in rows ==> d <= latest
    ensures latest !in EarliestSeries(rows).labels
    ensures latest in LatestSeries(rows).labels
  {
    var all := Ascending(rows.Keys);
    var last := all[|all| - 1];
    assert last in rows;
    var early := EarliestSeries(rows).labels;
    assert early == all[..SeriesLimit];
    forall i | 0 <= i < |early|
      ensures early[i] != latest
    {
      assert early[i] == all[i] < last <= latest;
    }
    var late := LatestSeries(rows).labels;
    assert late[|late| - 1] in rows;
  }

  /** The concrete scenario: a backfill on day t followed by a visit on day
      t + 1 leaves 31 rows, and the chart as written does not show day t + 1. */
  lemma BackfillThenNextDay(t: int, total: real, nextTotal: real, drift: seq<real>, drift': seq<real>)
    requires ValidDrift(drift) && ValidDrift(drift')
    ensures var rows := Recorded(Recorded(map[], t, total, drift), t + 1, nextTotal, drift');
      |rows| == 31 && t + 1 !in EarliestSeries(rows).labels && t + 1 in LatestSeries(rows).labels
  {
    var first := Recorded(map[], t, total, drift);
    BackfillDaysCovered(t, total, drift);
    RowCount(first, t + 1, nextTotal, drift');
    var rows := Recorded(first, t + 1, nextTotal, drift');
    EarliestSeriesHidesLatestDay(rows, t + 1);
  }

  /** The backfill loop: 30 synthetic rows dated today-30 .. today-1, the
      base value drifting once per step and the last row forced to the total. */
  method Backfill(today: int, total: real, drift: seq<real>) returns (rows: map<int, real>)
    requires ValidDrift(drift)
    ensures rows == BackfillRows(today, total, drift, BackfillDays)
  {
    rows := map[];
    var base := total * 0.8;
    var i := 0;
    while i < BackfillDays
      invariant 0 <= i <= BackfillDays
      invariant rows == BackfillRows(today, total, drift, i)
      invariant i < BackfillDays ==> base == BaseAfter(total, drift, i)
    {
      var day := today - (BackfillDays - i);
      DriftStep(total, drift, i, base);
      base := base * (1.0 + drift[i]);
      if i == BackfillDays - 1 {
        base := total;
      }
      rows := rows[day := base];
      i := i + 1;
    }
  }

  /** The snapshot table of one user: day number to total value. Being a map,
      it holds at most one row per day. */
  class SnapshotTable {
    var rows: map<int, real>

    constructor ()
      ensures rows == map[]
    {
      rows := map[];
    }

    /** The history step of a dashboard visit on day `today` with the freshly
        computed total `total`. */
    method Record(today: int, total: real, drift: seq<real>)
      requires ValidDrift(drift)
      modifies this
      ensures rows == Recorded(old(rows), today, total, drift)
    {
      if |rows| == 0 {
        // No history at all: backfill.
        rows := Backfill(today, total, drift);
      } else if today !in rows {
        // Append today's row.
        rows := rows[today := total];
      } else {
        // Refresh today's row.
        rows := rows[today := total];
      }
    }

    /** The chart data (labels and values) as the dashboard reads it back:
        the query as written, which keeps the earliest 30 days. */
    function Chart(): (s: Series)
      reads this
      ensures |s.labels| == |s.values| == Min(SeriesLimit, |rows|)
      ensures Increasing(s.labels)
      ensures forall i :: 0 <= i < |s.labels| ==> s.labels[i] in rows && s.values[i] == rows[s.labels[i]]
      ensures forall d, i :: d in rows && d !in s.labels && 0 <= i < |s.labels| ==> s.labels[i] < d
    {
      EarliestSeries(rows)
    }
  }
}
