/**
 * `server/routes/alerts.js`: the alert lifecycle. An alert is created 'active';
 * acknowledging moves an active alert to 'acknowledged'; resolving moves an
 * active or acknowledged one to 'resolved', which nothing leaves. The list and
 * active queries join each alert with its station and order newest first.
 */
module AlertsRoute {
  import opened Common
  import opened Store
  import opened JsText
  import Sorting

  datatype AlertStatus = Active | Acknowledged | Resolved

  /** The value stored in the `status` column. */
  function StatusName(s: AlertStatus): string
  {
    match s
    case Active => "active"
    case Acknowledged => "acknowledged"
    case Resolved => "resolved"
  }

  /** A row of `alerts`. */
  datatype Alert = Alert(
    id: nat, stationId: string, alertType: string, severity: string, message: string,
    status: AlertStatus, acknowledgedBy: Option<string>, acknowledgedAt: Option<int>,
    resolvedBy: Option<string>, resolvedAt: Option<int>, createdAt: int)

  const Severities: seq<string> := ["low", "medium", "high", "critical"]

  /** No two alerts share an id. */
  ghost predicate DistinctAlertIds(alerts: seq<Alert>)
  {
    forall i, j :: 0 <= i < j < |alerts| ==> alerts[i].id != alerts[j].id
  }

  /** The `alerts` table; `nextId` is the rowid the next INSERT receives. */
  class AlertTable {
    var alerts: seq<Alert>
    var nextId: nat

    ghost predicate Valid()
      reads this
    {
      && DistinctAlertIds(alerts)
      && forall k :: 0 <= k < |alerts| ==> alerts[k].id < nextId
    }

    constructor ()
      ensures alerts == [] && nextId == 1 && Valid()
    {
      alerts := [];
      nextId := 1;
    }
  }

  // ------------------------------------------------------------------- create

  /** The `data` object of a created alert: the request fields as sent. */
  datatype CreatedAlert = CreatedAlert(id: nat, stationId: string, alertType: string, severity: string, message: string)

  datatype CreateOutcome = AlertCreated(data: CreatedAlert) | FieldsRequired | BadSeverity
  {
    function HttpStatus(): int
    {
      if AlertCreated? then 201 else 400
    }
  }

  /** The row the INSERT writes: status 'active', no actor yet, stamped `now`. */
  function NewAlertRow(id: nat, stationId: string, alertType: string, severity: string, message: string, now: int): Alert
  {
    Alert(id, stationId, alertType, severity, message, Active, None, None, None, None, now)
  }

  /** POST `/`. All four fields are required (checked first), then the severity
   *  must be one of the four levels. Whether the station exists is not checked.
   *  On success `io`, if registered, gets `new_alert` with the station id read
   *  by `parseInt`. */
  method CreateAlert(table: AlertTable, io: Channel, hasIo: bool, stationId: string, alertType: string,
                     severity: string, message: string, now: int)
    returns (r: CreateOutcome)
    requires table.Valid()
    modifies table, io
    ensures table.Valid()
    ensures stationId == "" || alertType == "" || severity == "" || message == "" ==> r == FieldsRequired
    ensures stationId != "" && alertType != "" && severity != "" && message != "" && severity !in Severities
            ==> r == BadSeverity
    ensures r.AlertCreated? <==>
            stationId != "" && alertType != "" && severity != "" && message != "" && severity in Severities
    ensures !r.AlertCreated? ==>
            table.alerts == old(table.alerts) && table.nextId == old(table.nextId) && io.sent == old(io.sent)
    ensures r.AlertCreated? ==>
      var id := old(table.nextId);
      && r.data == CreatedAlert(id, stationId, alertType, severity, message)
      && table.alerts == old(table.alerts) + [NewAlertRow(id, stationId, alertType, severity, message, now)]
      && table.nextId == id + 1
      && io.sent == old(io.sent)
                    + (if hasIo then [NewAlert(id, ParseIntNoRadix(stationId), alertType, severity, message, now)] else [])
  {
    if stationId == "" || alertType == "" || severity == "" || message == "" {
      return FieldsRequired;
    }
    if severity !in Severities {
      return BadSeverity;
    }
    var id := table.nextId;
    table.alerts := table.alerts + [NewAlertRow(id, stationId, alertType, severity, message, now)];
    table.nextId := id + 1;
    if hasIo {
      io.Emit(NewAlert(id, ParseIntNoRadix(stationId), alertType, severity, message, now));
    }
    r := AlertCreated(CreatedAlert(id, stationId, alertType, severity, message));
  }

  // -------------------------------------------------------------- transitions

  /** A guarded UPDATE: who did it and when. */
  datatype Step = AckStep(actor: string, at: int) | ResolveStep(actor: string, at: int)

  /** The statuses the UPDATE's WHERE clause accepts. */
  function From(step: Step): set<AlertStatus>
  {
    match step
    case AckStep(_, _) => {Active}
    case ResolveStep(_, _) => {Active, Acknowledged}
  }

  /** The SET clause. */
  function Apply(a: Alert, step: Step): Alert
  {
    match step
    case AckStep(actor, at) => a.(status := Acknowledged, acknowledgedBy := Some(actor), acknowledgedAt := Some(at))
    case ResolveStep(actor, at) => a.(status := Resolved, resolvedBy := Some(actor), resolvedAt := Some(at))
  }

  /** The WHERE clause: that id, in one of the accepted statuses. */
  predicate Targets(a: Alert, id: int, step: Step)
  {
    a.id == id && a.status in From(step)
  }

  function TargetOf(id: int, step: Step): Alert -> bool
  {
    (a: Alert) => Targets(a, id, step)
  }

  /** The table after the UPDATE: every targeted row gets the SET clause, every
   *  other row is left as it was. */
  function Transition(alerts: seq<Alert>, id: int, step: Step): (r: seq<Alert>)
    ensures |r| == |alerts|
    ensures forall k :: 0 <= k < |alerts| ==>
      r[k] == if Targets(alerts[k], id, step) then Apply(alerts[k], step) else alerts[k]
  {
    if alerts == [] then []
    else [if Targets(alerts[0], id, step) then Apply(alerts[0], step) else alerts[0]]
         + Transition(alerts[1..], id, step)
  }

  /** `this.changes` of the UPDATE. */
  function Changes(alerts: seq<Alert>, id: int, step: Step): nat
  {
    Count(alerts, TargetOf(id, step))
  }

  /** The UPDATE reports no change exactly when no row is targeted. */
  lemma ChangesZeroIffUntargeted(alerts: seq<Alert>, id: int, step: Step)
    ensures Changes(alerts, id, step) == 0 <==> forall k :: 0 <= k < |alerts| ==> !Targets(alerts[k], id, step)
  {
    CountZeroIffNone(alerts, TargetOf(id, step));
    assert forall x :: TargetOf(id, step)(x) == Targets(x, id, step);
    if forall k :: 0 <= k < |alerts| ==> !Targets(alerts[k], id, step) {
      forall x | x in alerts ensures !TargetOf(id, step)(x) {
        var k :| 0 <= k < |alerts| && alerts[k] == x;
      }
    }
  }

  /** Ids are unique, so an UPDATE by id touches at most one alert. */
  lemma {:induction false} ChangesAtMostOne(alerts: seq<Alert>, id: int, step: Step)
    requires DistinctAlertIds(alerts)
    ensures Changes(alerts, id, step) <= 1
  {
    if alerts != [] {
      var tail := alerts[1..];
      assert DistinctAlertIds(tail) by {
        forall i, j | 0 <= i < j < |tail| ensures tail[i].id != tail[j].id {
          assert tail[i] == alerts[i + 1] && tail[j] == alerts[j + 1];
        }
      }
      ChangesAtMostOne(tail, id, step);
      assert Filter(alerts, TargetOf(id, step))
             == (if Targets(alerts[0], id, step) then [alerts[0]] else []) + Filter(tail, TargetOf(id, step));
      if Targets(alerts[0], id, step) {
        forall k | 0 <= k < |tail| ensures !Targets(tail[k], id, step) {
          assert tail[k] == alerts[k + 1];
        }
        ChangesZeroIffUntargeted(tail, id, step);
      }
    }
  }

  /** The UPDATE keeps every id, so the table stays valid. */
  lemma TransitionKeepsIds(alerts: seq<Alert>, id: int, step: Step, nextId: nat)
    requires DistinctAlertIds(alerts) && forall k :: 0 <= k < |alerts| ==> alerts[k].id < nextId
    ensures forall k :: 0 <= k < |alerts| ==> Transition(alerts, id, step)[k].id == alerts[k].id
    ensures DistinctAlertIds(Transition(alerts, id, step))
    ensures forall k :: 0 <= k < |alerts| ==> Transition(alerts, id, step)[k].id < nextId
  {
    var r := Transition(alerts, id, step);
    assert forall k :: 0 <= k < |alerts| ==> r[k].id == alerts[k].id;
  }

  /** Each alert either stays as it was or takes one of the lifecycle's edges:
   *  active to acknowledged, active or acknowledged to resolved. */
  predicate LifecycleEdge(before: AlertStatus, after: AlertStatus)
  {
    || (before == Active && after == Acknowledged)
    || (before in {Active, Acknowledged} && after == Resolved)
  }

  lemma TransitionFollowsLifecycle(alerts: seq<Alert>, id: int, step: Step, k: nat)
    requires k < |alerts|
    ensures var after := Transition(alerts, id, step)[k];
      after == alerts[k] || LifecycleEdge(alerts[k].status, after.status)
  {
  }

  /** A sequence of acknowledge and resolve UPDATEs, applied in order. */
  function Run(alerts: seq<Alert>, ops: seq<(int, Step)>): (r: seq<Alert>)
    ensures |r| == |alerts|
    decreases |ops|
  {
    if ops == [] then alerts else Run(Transition(alerts, ops[0].0, ops[0].1), ops[1..])
  }

  /** 'resolved' is terminal: no sequence of UPDATEs changes a resolved alert. */
  lemma {:induction false} ResolvedIsTerminal(alerts: seq<Alert>, ops: seq<(int, Step)>, k: nat)
    requires k < |alerts| && alerts[k].status == Resolved
    ensures Run(alerts, ops)[k] == alerts[k]
    decreases |ops|
  {
    if ops != [] {
      var next := Transition(alerts, ops[0].0, ops[0].1);
      assert next[k] == alerts[k];
      ResolvedIsTerminal(next, ops[1..], k);
    }
  }

  /** No sequence of UPDATEs brings an alert back to 'active': an alert active
   *  after them was active before and was never touched. */
  lemma {:induction false} NeverBackToActive(alerts: seq<Alert>, ops: seq<(int, Step)>, k: nat)
    requires k < |alerts| && Run(alerts, ops)[k].status == Active
    ensures Run(alerts, ops)[k] == alerts[k]
    decreases |ops|
  {
    if ops != [] {
      var next := Transition(alerts, ops[0].0, ops[0].1);
      NeverBackToActive(next, ops[1..], k);
      assert next[k] == alerts[k];
    }
  }

  /** PUT `/:id/acknowledge` and PUT `/:id/resolve`: the actor is required;
   *  an UPDATE that changed no row is a 404; otherwise `io`, if registered, is
   *  told. `actor` is `acknowledged_by` or `resolved_by`. */
  method ApplyStep(table: AlertTable, io: Channel, hasIo: bool, alertId: int, step: Step)
    returns (r: Response<()>)
    requires table.Valid()
    modifies table, io
    ensures table.Valid() && table.nextId == old(table.nextId)
    ensures step.actor == "" ==> r == BadRequest
    ensures r.Ok? <==>
      step.actor != "" && exists k :: 0 <= k < |old(table.alerts)| && Targets(old(table.alerts)[k], alertId, step)
    ensures step.actor != "" && !r.Ok? ==> r == NotFound
    ensures !r.Ok? ==> table.alerts == old(table.alerts) && io.sent == old(io.sent)
    ensures r.Ok? ==>
      && table.alerts == Transition(old(table.alerts), alertId, step)
      && io.sent == old(io.sent) + (if hasIo then [StepPush(alertId, step)] else [])
  {
    if step.actor == "" {
      return BadRequest;
    }
    var before := table.alerts;
    var changes := Changes(before, alertId, step);
    ChangesZeroIffUntargeted(before, alertId, step);
    if changes == 0 {
      return NotFound;
    }
    var next := Transition(before, alertId, step);
    TransitionKeepsIds(before, alertId, step, table.nextId);
    table.alerts := next;
    assert table.Valid();
    if hasIo {
      io.Emit(StepPush(alertId, step));
    }
    r := Ok(());
  }

  /** `alert_acknowledged` or `alert_resolved`, with the id as `parseInt` reads it. */
  function StepPush(alertId: int, step: Step): Push
  {
    match step
    case AckStep(actor, at) => AlertAcknowledged(alertId, actor, at)
    case ResolveStep(actor, at) => AlertResolved(alertId, actor, at)
  }

  // ------------------------------------------------------------------ queries

  /** A clause appended to the list query's WHERE. */
  datatype Clause = StatusIs(status: string) | StationIs(stationId: string)

  predicate Satisfies(a: Alert, c: Clause)
  {
    match c
    case StatusIs(s) => StatusName(a.status) == s
    case StationIs(id) => a.stationId == id
  }

  predicate AllSatisfied(a: Alert, clauses: seq<Clause>)
  {
    forall c :: c in clauses ==> Satisfies(a, c)
  }

  lemma AllSatisfiedAppend(clauses: seq<Clause>, c: Clause)
    ensures forall a :: AllSatisfied(a, clauses + [c]) <==> AllSatisfied(a, clauses) && Satisfies(a, c)
  {
    forall a ensures AllSatisfied(a, clauses + [c]) <==> AllSatisfied(a, clauses) && Satisfies(a, c) {
      assert forall x :: x in clauses + [c] <==> x in clauses || x == c;
    }
  }

  /** What the list filters ask for: each filter given (non-empty) must match. */
  predicate MatchesFilters(a: Alert, status: string, stationId: string)
  {
    (status == "" || StatusName(a.status) == status) && (stationId == "" || a.stationId == stationId)
  }

  /** `parseInt(limit)` with `limit` defaulting to 50 when absent. */
  function LimitValue(limit: Option<string>): Option<int>
  {
    if limit.None? then Some(50) else ParseIntNoRadix(limit.value)
  }

  /** `limit=0x10` asks for 16 rows; `limit=0x` is NaN, which the engine refuses. */
  lemma HexLimitValue()
    ensures LimitValue(Some("0x10")) == Some(16)
    ensures LimitValue(Some("0x")) == None
  {
    ParseIntNoRadixHexExample();
    ParseIntNoRadixBareHexExample();
  }

  /** Builds the list query: one clause per filter given, and the LIMIT. */
  method ListQuery(status: string, stationId: string, limit: Option<string>)
    returns (clauses: seq<Clause>, lim: Option<int>)
    ensures forall a :: AllSatisfied(a, clauses) <==> MatchesFilters(a, status, stationId)
    ensures |clauses| == (if status != "" then 1 else 0) + (if stationId != "" then 1 else 0)
    ensures lim == LimitValue(limit)
  {
    clauses := [];
    if status != "" {
      AllSatisfiedAppend(clauses, StatusIs(status));
      clauses := clauses + [StatusIs(status)];
    }
    assert forall a :: AllSatisfied(a, clauses) <==> status == "" || StatusName(a.status) == status;
    if stationId != "" {
      AllSatisfiedAppend(clauses, StationIs(stationId));
      clauses := clauses + [StationIs(stationId)];
    }
    lim := LimitValue(limit);
  }

  /** A joined row: the alert with its station's name and code, and for the
   *  active query also its coordinates. */
  datatype AlertRow = AlertRow(alert: Alert, stationName: string, stationCode: string, location: Option<(int, int)>)

  function JoinRow(a: Alert, s: Station, withLocation: bool): AlertRow
  {
    AlertRow(a, s.name, s.code, if withLocation then Some((s.locationX, s.locationY)) else None)
  }

  /** `JOIN stations s ON a.station_id = s.id`: alerts without a station drop out. */
  function JoinRows(s: seq<Alert>, stations: map<string, Station>, withLocation: bool): (rows: seq<AlertRow>)
    ensures |rows| <= |s|
  {
    if s == [] then []
    else (if s[0].stationId in stations then [JoinRow(s[0], stations[s[0].stationId], withLocation)] else [])
         + JoinRows(s[1..], stations, withLocation)
  }

  lemma {:induction false} JoinRowsAllPresent(s: seq<Alert>, stations: map<string, Station>, withLocation: bool)
    requires forall k :: 0 <= k < |s| ==> s[k].stationId in stations
    ensures |JoinRows(s, stations, withLocation)| == |s|
    ensures forall k :: 0 <= k < |s| ==>
      JoinRows(s, stations, withLocation)[k] == JoinRow(s[k], stations[s[k].stationId], withLocation)
  {
    if s != [] {
      assert s[0].stationId in stations;
      JoinRowsAllPresent(s[1..], stations, withLocation);
    }
  }

  /** `ORDER BY created_at DESC`. */
  function Newest(): (Alert, Alert) -> bool
  {
    (a: Alert, b: Alert) => a.createdAt >= b.createdAt
  }

  lemma NewestIsTotalPreorder()
    ensures Sorting.TotalPreorder(Newest())
  {
  }

  /** `LIMIT n`: a negative limit means no limit. */
  function Take<T>(s: seq<T>, n: int): (r: seq<T>)
    ensures n < 0 ==> r == s
    ensures 0 <= n ==> r == s[..if n < |s| then n else |s|]
  {
    if n < 0 || |s| <= n then s else s[..n]
  }

  /** The predicate of the query's WHERE together with the join condition. */
  function Selects(keep: Alert -> bool, stations: map<string, Station>): Alert -> bool
  {
    (a: Alert) => keep(a) && a.stationId in stations
  }

  /** What a query returns: the kept alerts that have a station, newest first,
   *  cut to `lim`, joined with their station. */
  function Listed(alerts: seq<Alert>, stations: map<string, Station>, keep: Alert -> bool, lim: int,
                  withLocation: bool): seq<AlertRow>
  {
    JoinRows(Take(Sorting.SortBy(Filter(alerts, Selects(keep, stations)), Newest()), lim), stations, withLocation)
  }

  function Wanted(status: string, stationId: string): Alert -> bool
  {
    (a: Alert) => MatchesFilters(a, status, stationId)
  }

  /** GET `/`. The answer is the listed rows, or a database error when `limit`
   *  is not a number (the engine refuses a NaN LIMIT). */
  method ListAlerts(table: AlertTable, db: Database, status: string, stationId: string, limit: Option<string>)
    returns (r: Response<seq<AlertRow>>)
    ensures LimitValue(limit).None? ==> r == ServerError
    ensures LimitValue(limit).Some? ==>
      r == Ok(Listed(table.alerts, db.stations, Wanted(status, stationId), LimitValue(limit).value, false))
  {
    var clauses, lim := ListQuery(status, stationId, limit);
    if lim.None? {
      return ServerError;
    }
    var keep := (a: Alert) => AllSatisfied(a, clauses);
    FilterSamePredicate(table.alerts, Selects(keep, db.stations), Selects(Wanted(status, stationId), db.stations));
    r := Ok(Listed(table.alerts, db.stations, keep, lim.value, false));
  }

  /** GET `/active`: the active alerts with a station, newest first, with coordinates. */
  function ActiveAlerts(alerts: seq<Alert>, stations: map<string, Station>): seq<AlertRow>
  {
    Listed(alerts, stations, IsActive(), -1, true)
  }

  function IsActive(): Alert -> bool
  {
    (a: Alert) => a.status == Active
  }

  /** Every listed row is a kept alert with a station, joined with that station;
   *  the rows are newest first and at most `lim` when `lim` is not negative. */
  lemma ListedMeaning(alerts: seq<Alert>, stations: map<string, Station>, keep: Alert -> bool, lim: int,
                      withLocation: bool)
    ensures var rows := Listed(alerts, stations, keep, lim, withLocation);
      && (0 <= lim ==> |rows| <= lim)
      && (forall k :: 0 <= k < |rows| ==>
            && rows[k].alert in alerts && keep(rows[k].alert) && rows[k].alert.stationId in stations
            && rows[k] == JoinRow(rows[k].alert, stations[rows[k].alert.stationId], withLocation))
      && (forall i, j :: 0 <= i < j < |rows| ==> rows[i].alert.createdAt >= rows[j].alert.createdAt)
  {
    var matched := Filter(alerts, Selects(keep, stations));
    var sorted := Sorting.SortBy(matched, Newest());
    var taken := Take(sorted, lim);
    forall k | 0 <= k < |taken| ensures taken[k] in matched {
      assert taken[k] == sorted[k];
      Sorting.SortByMembers(matched, Newest(), taken[k]);
    }
    JoinRowsAllPresent(taken, stations, withLocation);
    NewestIsTotalPreorder();
    Sorting.SortBySorted(matched, Newest());
    forall i, j | 0 <= i < j < |taken| ensures taken[i].createdAt >= taken[j].createdAt {
      assert Newest()(sorted[i], sorted[j]);
    }
  }

  /** Without a binding limit no kept alert with a station is missing. */
  lemma ListedComplete(alerts: seq<Alert>, stations: map<string, Station>, keep: Alert -> bool, lim: int,
                       withLocation: bool, a: Alert)
    requires a in alerts && keep(a) && a.stationId in stations
    requires lim < 0 || Count(alerts, Selects(keep, stations)) <= lim
    ensures exists k :: 0 <= k < |Listed(alerts, stations, keep, lim, withLocation)|
                        && Listed(alerts, stations, keep, lim, withLocation)[k].alert == a
  {
    var matched := Filter(alerts, Selects(keep, stations));
    var sorted := Sorting.SortBy(matched, Newest());
    var taken := Take(sorted, lim);
    assert taken == sorted;
    Sorting.SortByMembers(matched, Newest(), a);
    forall k | 0 <= k < |taken| ensures taken[k].stationId in stations {
      Sorting.SortByMembers(matched, Newest(), taken[k]);
    }
    JoinRowsAllPresent(taken, stations, withLocation);
    var k :| 0 <= k < |taken| && taken[k] == a;
    assert Listed(alerts, stations, keep, lim, withLocation)[k].alert == a;
  }

  /** The limit cuts off the oldest: a kept alert with a station is either in
   *  the answer or no newer than every row that is. */
  lemma ListedKeepsNewest(alerts: seq<Alert>, stations: map<string, Station>, keep: Alert -> bool, lim: int,
                          withLocation: bool, a: Alert)
    requires a in alerts && keep(a) && a.stationId in stations
    ensures var rows := Listed(alerts, stations, keep, lim, withLocation);
      || (exists k :: 0 <= k < |rows| && rows[k].alert == a)
      || (forall k :: 0 <= k < |rows| ==> rows[k].alert.createdAt >= a.createdAt)
  {
    var matched := Filter(alerts, Selects(keep, stations));
    var sorted := Sorting.SortBy(matched, Newest());
    var taken := Take(sorted, lim);
    var rows := Listed(alerts, stations, keep, lim, withLocation);
    forall k | 0 <= k < |taken| ensures taken[k].stationId in stations {
      assert taken[k] == sorted[k];
      Sorting.SortByMembers(matched, Newest(), taken[k]);
    }
    JoinRowsAllPresent(taken, stations, withLocation);
    Sorting.SortByMembers(matched, Newest(), a);
    var j :| 0 <= j < |sorted| && sorted[j] == a;
    if j < |taken| {
      assert rows[j].alert == a;
    } else {
      NewestIsTotalPreorder();
      Sorting.SortBySorted(matched, Newest());
      forall k | 0 <= k < |rows| ensures rows[k].alert.createdAt >= a.createdAt {
        assert rows[k].alert == sorted[k];
        assert Newest()(sorted[k], sorted[j]);
      }
    }
  }

  /** The active query returns active alerts only, newest first, and all of
   *  those that have a station. */
  lemma ActiveAlertsMeaning(alerts: seq<Alert>, stations: map<string, Station>)
    ensures forall k :: 0 <= k < |ActiveAlerts(alerts, stations)| ==>
      ActiveAlerts(alerts, stations)[k].alert.status == Active && ActiveAlerts(alerts, stations)[k].alert in alerts
    ensures forall i, j :: 0 <= i < j < |ActiveAlerts(alerts, stations)| ==>
      ActiveAlerts(alerts, stations)[i].alert.createdAt >= ActiveAlerts(alerts, stations)[j].alert.createdAt
    ensures forall a :: a in alerts && a.status == Active && a.stationId in stations ==>
      exists k :: 0 <= k < |ActiveAlerts(alerts, stations)| && ActiveAlerts(alerts, stations)[k].alert == a
  {
    var keep := IsActive();
    ListedMeaning(alerts, stations, keep, -1, true);
    forall a | a in alerts && a.status == Active && a.stationId in stations
      ensures exists k :: 0 <= k < |ActiveAlerts(alerts, stations)| && ActiveAlerts(alerts, stations)[k].alert == a
    {
      ListedComplete(alerts, stations, keep, -1, true, a);
      assert ActiveAlerts(alerts, stations) == Listed(alerts, stations, keep, -1, true);
    }
  }
}
