/**
 * `server/routes/statistics.js`: the overview counts over stations and recent
 * alerts, the grouping of alert-trend rows by day, the production totals, and
 * the production-stats upsert keyed by station and date.
 */
module StatisticsRoute {
  import opened Common
  import opened Store
  import AlertsRoute

  // ----------------------------------------------------------------- overview

  lemma DisjointUnionCardinality<T>(a: set<T>, b: set<T>)
    requires a !! b
    ensures |a + b| == |a| + |b|
  {
    assert a * b == {};
  }

  lemma SubsetCardinality<T>(a: set<T>, b: set<T>)
    requires a <= b
    ensures |a| <= |b|
  {
    assert b == a + (b - a);
    DisjointUnionCardinality(a, b - a);
  }

  /** The station half of the overview. */
  datatype StationStats = StationStats(total: nat, normal: nat, warning: nat, error: nat, maintenance: nat)

  /** The ids of the stations whose status is `s`. */
  function WithStatusIds(m: map<string, Station>, s: string): set<string>
  {
    set id | id in m && m[id].status == s
  }

  /** `COUNT(*)` and one `COUNT(CASE WHEN status = ... END)` per status. */
  function StationOverview(m: map<string, Station>): (r: StationStats)
    ensures r.total == |m|
    ensures r.normal <= r.total && r.warning <= r.total && r.error <= r.total && r.maintenance <= r.total
  {
    SubsetCardinality(WithStatusIds(m, "normal"), m.Keys);
    SubsetCardinality(WithStatusIds(m, "warning"), m.Keys);
    SubsetCardinality(WithStatusIds(m, "error"), m.Keys);
    SubsetCardinality(WithStatusIds(m, "maintenance"), m.Keys);
    StationStats(|m.Keys|, |WithStatusIds(m, "normal")|, |WithStatusIds(m, "warning")|,
                 |WithStatusIds(m, "error")|, |WithStatusIds(m, "maintenance")|)
  }

  /** When every station has one of the four statuses, the four counts add up
   *  to the total. */
  lemma StationOverviewSums(m: map<string, Station>)
    requires AllValid(m)
    ensures var r := StationOverview(m); r.normal + r.warning + r.error + r.maintenance == r.total
  {
    var n, w, e, x := WithStatusIds(m, "normal"), WithStatusIds(m, "warning"),
                      WithStatusIds(m, "error"), WithStatusIds(m, "maintenance");
    forall id | id in m.Keys ensures id in n + w + e + x {
      assert IsValidStatus(m[id].status);
    }
    assert m.Keys == n + w + e + x;
    WithStatusDisjoint(m, "normal", "warning");
    DisjointUnionCardinality(n, w);
    WithStatusDisjoint(m, "normal", "error");
    WithStatusDisjoint(m, "warning", "error");
    DisjointUnionCardinality(n + w, e);
    WithStatusDisjoint(m, "normal", "maintenance");
    WithStatusDisjoint(m, "warning", "maintenance");
    WithStatusDisjoint(m, "error", "maintenance");
    DisjointUnionCardinality(n + w + e, x);
  }

  /** No station is counted under two statuses. */
  lemma WithStatusDisjoint(m: map<string, Station>, s: string, t: string)
    requires s != t
    ensures WithStatusIds(m, s) !! WithStatusIds(m, t)
  {
  }

  /** The alert half of the overview, over the alerts of the last 24 hours. */
  datatype AlertStats = AlertStats(total: nat, active: nat, acknowledged: nat, resolved: nat, critical: nat)

  predicate Recent(a: AlertsRoute.Alert, now: int)
  {
    a.createdAt >= now - DayMs
  }

  function RecentAlerts(alerts: seq<AlertsRoute.Alert>, now: int): (r: seq<AlertsRoute.Alert>)
    ensures |r| <= |alerts|
    ensures forall a :: a in r <==> a in alerts && Recent(a, now)
  {
    Filter(alerts, (a: AlertsRoute.Alert) => Recent(a, now))
  }

  function CountStatus(s: seq<AlertsRoute.Alert>, st: AlertsRoute.AlertStatus): nat
  {
    if s == [] then 0 else (if s[0].status == st then 1 else 0) + CountStatus(s[1..], st)
  }

  function CountCritical(s: seq<AlertsRoute.Alert>): nat
  {
    if s == [] then 0
    else (if s[0].severity == "critical" && s[0].status == AlertsRoute.Active then 1 else 0) + CountCritical(s[1..])
  }

  function AlertOverview(alerts: seq<AlertsRoute.Alert>, now: int): AlertStats
  {
    var r := RecentAlerts(alerts, now);
    AlertStats(|r|, CountStatus(r, AlertsRoute.Active), CountStatus(r, AlertsRoute.Acknowledged),
               CountStatus(r, AlertsRoute.Resolved), CountCritical(r))
  }

  /** Every alert is in exactly one of the three statuses, and a critical
   *  active alert is an active alert. */
  lemma {:induction false} StatusCountsPartition(s: seq<AlertsRoute.Alert>)
    ensures CountStatus(s, AlertsRoute.Active) + CountStatus(s, AlertsRoute.Acknowledged)
            + CountStatus(s, AlertsRoute.Resolved) == |s|
    ensures CountCritical(s) <= CountStatus(s, AlertsRoute.Active)
  {
    if s != [] {
      StatusCountsPartition(s[1..]);
    }
  }

  lemma AlertOverviewSums(alerts: seq<AlertsRoute.Alert>, now: int)
    ensures var r := AlertOverview(alerts, now);
      r.active + r.acknowledged + r.resolved == r.total && r.critical <= r.active && r.total <= |alerts|
  {
    StatusCountsPartition(RecentAlerts(alerts, now));
  }

  // -------------------------------------------------------------------- trend

  /** A row of the trend query: one (day, severity) group and its size. */
  datatype TrendRow = TrendRow(date: int, severity: string, count: nat)

  /** An element of `trendData`: the day and the count per severity key. */
  datatype TrendEntry = TrendEntry(date: int, counts: map<string, int>)

  const TrendSeverities: seq<string> := ["low", "medium", "high", "critical"]

  function InitEntry(d: int): (e: TrendEntry)
    ensures e.date == d && e.counts.Keys == set s | s in TrendSeverities
    ensures forall s :: s in TrendSeverities ==> e.counts[s] == 0
  {
    TrendEntry(d, map["low" := 0, "medium" := 0, "high" := 0, "critical" := 0])
  }

  /** `trendData[row.date][row.severity] = row.count`; a severity named `date`
   *  lands on the entry's own `date` property. */
  function SetCount(e: TrendEntry, severity: string, count: int): TrendEntry
  {
    if severity == "date" then e.(date := count) else e.(counts := e.counts[severity := count])
  }

  /** The entry of day `d` after the rows, processed in order. */
  function Grouped(rows: seq<TrendRow>, d: int): TrendEntry
  {
    if rows == [] then InitEntry(d)
    else
      var last := rows[|rows| - 1];
      var before := Grouped(rows[..|rows| - 1], d);
      if last.date == d then SetCount(before, last.severity, last.count) else before
  }

  /** The days in order of first appearance (the key order of `trendData`). */
  function Dates(rows: seq<TrendRow>): (ds: seq<int>)
    ensures forall d :: d in ds <==> exists k :: 0 <= k < |rows| && rows[k].date == d
    ensures forall i, j :: 0 <= i < j < |ds| ==> ds[i] != ds[j]
  {
    if rows == [] then []
    else
      var prefix := rows[..|rows| - 1];
      var ds := Dates(prefix);
      assert forall k :: 0 <= k < |prefix| ==> prefix[k] == rows[k];
      if rows[|rows| - 1].date in ds then ds else ds + [rows[|rows| - 1].date]
  }

  /** The count of the last row for day `d` and `severity`, if there is one. */
  function LastCount(rows: seq<TrendRow>, d: int, severity: string): Option<int>
  {
    if rows == [] then None
    else
      var last := rows[|rows| - 1];
      if last.date == d && last.severity == severity then Some(last.count)
      else LastCount(rows[..|rows| - 1], d, severity)
  }

  /** A day's entry has all four severities, 0 unless a row gave that severity
   *  a count, in which case the last such row's count; any other severity is
   *  present exactly when a row gave it. */
  lemma {:induction false} GroupedMeaning(rows: seq<TrendRow>, d: int, severity: string)
    requires severity != "date"
    ensures severity in TrendSeverities ==> severity in Grouped(rows, d).counts
    ensures severity in Grouped(rows, d).counts <==> severity in TrendSeverities || LastCount(rows, d, severity).Some?
    ensures severity in Grouped(rows, d).counts ==>
      Grouped(rows, d).counts[severity] == (match LastCount(rows, d, severity) case Some(c) => c case None => 0)
  {
    if rows != [] {
      GroupedMeaning(rows[..|rows| - 1], d, severity);
    }
  }

  /** A day no row mentions has the initial entry. */
  lemma {:induction false} GroupedUntouched(rows: seq<TrendRow>, d: int)
    requires forall k :: 0 <= k < |rows| ==> rows[k].date != d
    ensures Grouped(rows, d) == InitEntry(d)
  {
    if rows != [] {
      var prefix := rows[..|rows| - 1];
      assert forall k :: 0 <= k < |prefix| ==> prefix[k] == rows[k];
      GroupedUntouched(prefix, d);
    }
  }

  /** The trend grouping: `data` has one entry per day present in the rows, in
   *  order of first appearance, each built from that day's rows. */
  method GroupTrend(rows: seq<TrendRow>) returns (data: seq<TrendEntry>)
    ensures |data| == |Dates(rows)|
    ensures forall k :: 0 <= k < |data| ==> data[k] == Grouped(rows, Dates(rows)[k])
  {
    var entries: map<int, TrendEntry> := map[];
    var order: seq<int> := [];
    for i := 0 to |rows|
      invariant order == Dates(rows[..i])
      invariant forall d :: d in entries <==> d in order
      invariant forall d :: d in entries ==> entries[d] == Grouped(rows[..i], d)
    {
      var row := rows[i];
      assert rows[..i + 1][..i] == rows[..i];
      assert rows[..i + 1][i] == row;
      if row.date !in entries {
        GroupedUntouched(rows[..i], row.date);
        entries := entries[row.date := InitEntry(row.date)];
        order := order + [row.date];
      }
      entries := entries[row.date := SetCount(entries[row.date], row.severity, row.count)];
    }
    assert rows[..|rows|] == rows;
    forall j | 0 <= j < |order| ensures order[j] in entries {
      assert order[j] in order;
    }
    data := [];
    for k := 0 to |order|
      invariant |data| == k
      invariant forall j :: 0 <= j < k ==> data[j] == entries[order[j]]
    {
      data := data + [entries[order[k]]];
    }
  }

  // ---------------------------------------------------------------- totals

  /** A row of the performance query, after `COALESCE(..., 0)`. */
  datatype PerfRow = PerfRow(stationName: string, stationCode: string,
                             totalProducts: int, defectProducts: int, downtimeMinutes: int)

  datatype PerfField = Products | Defects | Downtime

  function Get(row: PerfRow, f: PerfField): int
  {
    match f
    case Products => row.totalProducts
    case Defects => row.defectProducts
    case Downtime => row.downtimeMinutes
  }

  /** The field-wise sum over the rows. */
  function Sum(rows: seq<PerfRow>, f: PerfField): int
  {
    if rows == [] then 0 else Sum(rows[..|rows| - 1], f) + Get(rows[|rows| - 1], f)
  }

  lemma {:induction false} SumAppend(a: seq<PerfRow>, b: seq<PerfRow>, f: PerfField)
    ensures Sum(a + b, f) == Sum(a, f) + Sum(b, f)
    decreases |b|
  {
    if b == [] {
      assert a + b == a;
    } else {
      assert (a + b)[..|a + b| - 1] == a + b[..|b| - 1];
      SumAppend(a, b[..|b| - 1], f);
    }
  }

  /** When no row has more defects than products, neither do the totals. */
  lemma {:induction false} SumDefectsBounded(rows: seq<PerfRow>)
    requires forall k :: 0 <= k < |rows| ==> 0 <= rows[k].defectProducts <= rows[k].totalProducts
    ensures 0 <= Sum(rows, Defects) <= Sum(rows, Products)
  {
    if rows != [] {
      var prefix := rows[..|rows| - 1];
      assert forall k :: 0 <= k < |prefix| ==> prefix[k] == rows[k];
      SumDefectsBounded(prefix);
    }
  }

  /** `Math.round((total - defects) * 100 / total)`, or 0 without products. The
   *  quotient is rational, so `Math.round` (round half up) is
   *  `floor(x + 1/2)`, written here on integers. */
  function QualityRate(total: int, defects: int): (q: int)
    ensures total <= 0 ==> q == 0
    ensures total > 0 ==> 2 * total * q <= 200 * (total - defects) + total < 2 * total * (q + 1)
  {
    if total > 0 then (200 * (total - defects) + total) / (2 * total) else 0
  }

  lemma QualityRateBounds(total: int, defects: int)
    requires 0 <= defects <= total
    ensures 0 <= QualityRate(total, defects) <= 100
    ensures total > 0 && defects == 0 ==> QualityRate(total, defects) == 100
    ensures defects == total ==> QualityRate(total, defects) == 0
  {
    if total > 0 {
      var q := QualityRate(total, defects);
      var n := 200 * (total - defects) + total;
      assert total <= n <= 201 * total;
      if q > 100 {
        Scale(2 * total, q, 101);
      }
      if q < 0 {
        Scale(2 * total, -1, q);
      }
      if defects == 0 && q < 100 {
        Scale(2 * total, 99, q);
      }
      if defects == total && q > 0 {
        Scale(2 * total, q, 1);
      }
    }
  }

  lemma Scale(t: int, a: int, b: int)
    requires t > 0 && a >= b
    ensures t * a >= t * b
  {
    assert t * a - t * b == t * (a - b);
  }

  datatype Totals = Totals(totalProducts: int, defectProducts: int, downtimeMinutes: int, qualityRate: int)

  /** The `reduce` over the rows followed by the total quality rate. */
  method ComputeTotals(rows: seq<PerfRow>) returns (t: Totals)
    ensures t.totalProducts == Sum(rows, Products)
    ensures t.defectProducts == Sum(rows, Defects)
    ensures t.downtimeMinutes == Sum(rows, Downtime)
    ensures t.qualityRate == QualityRate(t.totalProducts, t.defectProducts)
  {
    var products, defects, downtime := 0, 0, 0;
    for i := 0 to |rows|
      invariant products == Sum(rows[..i], Products)
      invariant defects == Sum(rows[..i], Defects)
      invariant downtime == Sum(rows[..i], Downtime)
    {
      assert rows[..i + 1][..i] == rows[..i];
      products := products + rows[i].totalProducts;
      defects := defects + rows[i].defectProducts;
      downtime := downtime + rows[i].downtimeMinutes;
    }
    assert rows[..|rows|] == rows;
    t := Totals(products, defects, downtime, QualityRate(products, defects));
  }

  // --------------------------------------------------------------- production

  /** A numeric body field: absent, `null`, or a number. */
  datatype NumIn = Missing | Null | Num(n: int)

  /** `x || 0`: absent, `null` and 0 all give 0. */
  function OrZero(x: NumIn): int
  {
    if x.Num? then x.n else 0
  }

  datatype Production = Production(totalProducts: int, defectProducts: int, downtimeMinutes: int)

  /** The `production_stats` table, keyed by (station id, date). */
  class ProductionTable {
    var stats: map<(string, string), Production>

    constructor ()
      ensures stats == map[]
    {
      stats := map[];
    }
  }

  /** POST `/production`: `station_id` is required and `total_products` must
   *  not be absent (a `null` passes); the date defaults to `today`; the row for
   *  (station, date) is written, replacing any earlier values for that key. */
  method PostProduction(table: ProductionTable, stationId: string, totalProducts: NumIn, defectProducts: NumIn,
                        downtimeMinutes: NumIn, date: string, today: string)
    returns (r: Response<()>)
    modifies table
    ensures stationId == "" || totalProducts == Missing ==> r == BadRequest && table.stats == old(table.stats)
    ensures stationId != "" && totalProducts != Missing ==>
      && r == Ok(())
      && table.stats == old(table.stats)[(stationId, if date != "" then date else today)
                          := Production(OrZero(totalProducts), OrZero(defectProducts), OrZero(downtimeMinutes))]
  {
    if stationId == "" || totalProducts == Missing {
      return BadRequest;
    }
    var productionDate := if date != "" then date else today;
    table.stats := table.stats[(stationId, productionDate)
                     := Production(OrZero(totalProducts), OrZero(defectProducts), OrZero(downtimeMinutes))];
    r := Ok(());
  }
}
