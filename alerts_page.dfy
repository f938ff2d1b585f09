/**
 * `client/src/pages/Alerts.js`: the filter bar of the alerts page (status tab,
 * severity, station and a free-text search) and the list it shows. `lower` is
 * the locale's `toLowerCase`. Reading `toLowerCase` of a missing station name
 * throws, which aborts the whole `filter`; `FilterOrThrow` answers `None` then.
 */
module AlertsPage {
  import opened Common
  import opened JsText
  import opened ClientData

  /** The `filters` state. `status` is `None` once a tab index outside 0..3 has
   *  stored `undefined` in it. */
  datatype Filters = Filters(status: Option<string>, severity: string, station: string, search: string)

  /** The initial state and what "clear filters" sets. */
  const DefaultFilters: Filters := Filters(Some("all"), "all", "all", "")

  /** `statusMap` of `handleTabChange`. */
  const StatusMap: seq<string> := ["all", "active", "acknowledged", "resolved"]

  /** `statusMap[newValue]`: `undefined` past the end. */
  function TabStatus(tab: int): (status: Option<string>)
    ensures 0 <= tab < 4 <==> status.Some?
    ensures tab == 0 ==> status == Some("all")
    ensures tab == 1 ==> status == Some("active")
    ensures tab == 2 ==> status == Some("acknowledged")
    ensures tab == 3 ==> status == Some("resolved")
  {
    if 0 <= tab < |StatusMap| then Some(StatusMap[tab]) else None
  }

  /** `handleTabChange`: only the status filter follows the tab. */
  function HandleTabChange(f: Filters, tab: int): (g: Filters)
    ensures g.status == TabStatus(tab)
    ensures g.severity == f.severity && g.station == f.station && g.search == f.search
  {
    f.(status := TabStatus(tab))
  }

  datatype FilterField = StatusField | SeverityField | StationField | SearchField

  /** `handleFilterChange(field, value)`: `{ ...prev, [field]: value }`. */
  function HandleFilterChange(f: Filters, field: FilterField, value: string): (g: Filters)
    ensures g.status == (if field == StatusField then Some(value) else f.status)
    ensures g.severity == (if field == SeverityField then value else f.severity)
    ensures g.station == (if field == StationField then value else f.station)
    ensures g.search == (if field == SearchField then value else f.search)
  {
    match field
    case StatusField => f.(status := Some(value))
    case SeverityField => f.(severity := value)
    case StationField => f.(station := value)
    case SearchField => f.(search := value)
  }

  /** The "clear filters" button. */
  function ClearFilters(f: Filters): (g: Filters)
    ensures g.status == Some("all") && g.severity == "all" && g.station == "all" && g.search == ""
  {
    DefaultFilters
  }

  // ------------------------------------------------------------- the filter

  /** The station test as the page means it: the alert's station id is the
   *  chosen station id (the select's values are station ids, strings). */
  predicate StationMatches(a: ClientAlert, station: string)
  {
    station == "all" || a.stationId == JsStr(station)
  }

  /** The station test as written: `alert.station_id !== parseInt(filters.station)`
   *  rejects the alert, and `!==` between a string and a number, or against NaN,
   *  is always true. */
  predicate StationMatchesAsWritten(a: ClientAlert, station: string)
  {
    station == "all" || (ParseIntNoRadix(station).Some? && a.stationId == JsNum(ParseIntNoRadix(station).value))
  }

  /** The filter predicate with the station test's outcome given: `Some(b)` is
   *  its boolean, `None` a thrown TypeError. */
  function PassesWith(a: ClientAlert, f: Filters, lower: string -> string, stationOk: bool): Option<bool>
  {
    if f.status != Some("all") && Some(a.status) != f.status then Some(false)
    else if f.severity != "all" && a.severity != f.severity then Some(false)
    else if !stationOk then Some(false)
    else if f.search != "" && !Includes(lower(a.message), lower(f.search)) then
      match a.stationName
      case None => None
      case Some(name) => Some(Includes(lower(name), lower(f.search)))
    else Some(true)
  }

  function Passes(a: ClientAlert, f: Filters, lower: string -> string): Option<bool>
  {
    PassesWith(a, f, lower, StationMatches(a, f.station))
  }

  function PassesAsWritten(a: ClientAlert, f: Filters, lower: string -> string): Option<bool>
  {
    PassesWith(a, f, lower, StationMatchesAsWritten(a, f.station))
  }

  /** `alerts.filter(pass)` where `pass` may throw: the first throw aborts. */
  function FilterOrThrow(alerts: seq<ClientAlert>, pass: ClientAlert -> Option<bool>): Option<seq<ClientAlert>>
  {
    if alerts == [] then Some([])
    else match pass(alerts[0])
      case None => None
      case Some(keep) =>
        match FilterOrThrow(alerts[1..], pass)
        case None => None
        case Some(rest) => Some((if keep then [alerts[0]] else []) + rest)
  }

  function PassesFn(f: Filters, lower: string -> string): ClientAlert -> Option<bool>
  {
    (a: ClientAlert) => Passes(a, f, lower)
  }

  function PassesAsWrittenFn(f: Filters, lower: string -> string): ClientAlert -> Option<bool>
  {
    (a: ClientAlert) => PassesAsWritten(a, f, lower)
  }

  /** `filteredAlerts`, with the corrected station test. */
  function FilteredAlerts(alerts: seq<ClientAlert>, f: Filters, lower: string -> string): Option<seq<ClientAlert>>
  {
    FilterOrThrow(alerts, PassesFn(f, lower))
  }

  /** `filteredAlerts` as written. */
  function FilteredAlertsAsWritten(alerts: seq<ClientAlert>, f: Filters, lower: string -> string): Option<seq<ClientAlert>>
  {
    FilterOrThrow(alerts, PassesAsWrittenFn(f, lower))
  }

  /** An alert passes exactly when status, severity and station each match their
   *  filter or the filter is 'all', and an empty search, the message or the
   *  station name (ignoring case) matches the search. The filter throws exactly
   *  when the rest passes, the message misses the search and there is no
   *  station name to read. */
  lemma PassesMeaning(a: ClientAlert, f: Filters, lower: string -> string)
    ensures var others := && (f.status == Some("all") || f.status == Some(a.status))
                          && (f.severity == "all" || f.severity == a.severity)
                          && StationMatches(a, f.station);
      && (Passes(a, f, lower) == Some(true) <==>
            others && (|| f.search == ""
                       || Includes(lower(a.message), lower(f.search))
                       || (a.stationName.Some? && Includes(lower(a.stationName.value), lower(f.search)))))
      && (Passes(a, f, lower).None? <==>
            others && f.search != "" && !Includes(lower(a.message), lower(f.search)) && a.stationName.None?)
  {
  }

  /** What a filter that did not throw keeps: exactly the passing alerts, in their order. */
  lemma {:induction false} FilterOrThrowMeaning(alerts: seq<ClientAlert>, pass: ClientAlert -> Option<bool>)
    requires FilterOrThrow(alerts, pass).Some?
    ensures var r := FilterOrThrow(alerts, pass).value;
      && IsSubsequence(r, alerts)
      && (forall a :: a in r <==> a in alerts && pass(a) == Some(true))
      && forall a :: a in alerts ==> pass(a).Some?
  {
    if alerts != [] {
      FilterOrThrowMeaning(alerts[1..], pass);
      var rest := FilterOrThrow(alerts[1..], pass).value;
      assert alerts == [alerts[0]] + alerts[1..];
      if pass(alerts[0]) == Some(true) {
        assert ([alerts[0]] + rest)[1..] == rest;
      } else {
        SubsequenceOfTail(rest, alerts);
        assert FilterOrThrow(alerts, pass).value == rest;
      }
    }
  }

  /** The filter throws only when some alert's predicate throws. */
  lemma {:induction false} FilterOrThrowTotal(alerts: seq<ClientAlert>, pass: ClientAlert -> Option<bool>)
    requires forall a :: a in alerts ==> pass(a).Some?
    ensures FilterOrThrow(alerts, pass).Some?
  {
    if alerts != [] {
      assert alerts[0] in alerts;
      assert forall a :: a in alerts[1..] ==> a in alerts;
      FilterOrThrowTotal(alerts[1..], pass);
    }
  }

  /** A filter that keeps every alert and never throws returns the list itself. */
  lemma {:induction false} FilterOrThrowAll(alerts: seq<ClientAlert>, pass: ClientAlert -> Option<bool>)
    requires forall a :: a in alerts ==> pass(a) == Some(true)
    ensures FilterOrThrow(alerts, pass) == Some(alerts)
  {
    if alerts != [] {
      assert alerts[0] in alerts;
      assert forall a :: a in alerts[1..] ==> a in alerts;
      FilterOrThrowAll(alerts[1..], pass);
      assert [alerts[0]] + alerts[1..] == alerts;
    }
  }

  /** A filter that never throws is `Filter` by the predicate's boolean. */
  lemma {:induction false} FilterOrThrowIsFilter(alerts: seq<ClientAlert>, pass: ClientAlert -> Option<bool>,
                                                 keep: ClientAlert -> bool)
    requires forall a :: a in alerts ==> pass(a) == Some(keep(a))
    ensures FilterOrThrow(alerts, pass) == Some(Filter(alerts, keep))
  {
    if alerts != [] {
      assert alerts[0] in alerts;
      assert forall a :: a in alerts[1..] ==> a in alerts;
      FilterOrThrowIsFilter(alerts[1..], pass, keep);
    }
  }

  /** With the default filters every alert is shown, in order. */
  lemma DefaultShowsAll(alerts: seq<ClientAlert>, lower: string -> string)
    ensures FilteredAlerts(alerts, DefaultFilters, lower) == Some(alerts)
  {
    FilterOrThrowAll(alerts, PassesFn(DefaultFilters, lower));
  }

  /** When every alert has a station name the list never throws; what it shows
   *  is an order-preserving selection of exactly the passing alerts. */
  lemma FilteredAlertsMeaning(alerts: seq<ClientAlert>, f: Filters, lower: string -> string)
    requires forall a :: a in alerts ==> a.stationName.Some?
    ensures FilteredAlerts(alerts, f, lower).Some?
    ensures var r := FilteredAlerts(alerts, f, lower).value;
      && IsSubsequence(r, alerts)
      && forall a :: a in r <==> a in alerts && Passes(a, f, lower) == Some(true)
  {
    forall a | a in alerts ensures PassesFn(f, lower)(a).Some? {
      PassesMeaning(a, f, lower);
    }
    FilterOrThrowTotal(alerts, PassesFn(f, lower));
    FilterOrThrowMeaning(alerts, PassesFn(f, lower));
  }

  /** `getStatusCount(status)` of the alerts page. */
  function AlertStatusCount(alerts: seq<ClientAlert>, status: string): (n: nat)
    ensures n <= |alerts|
    ensures n == 0 <==> forall a :: a in alerts ==> a.status != status
  {
    CountZeroIffNone(alerts, (a: ClientAlert) => a.status == status);
    Count(alerts, (a: ClientAlert) => a.status == status)
  }

  /** `getSeverityCount(severity)`. */
  function SeverityCount(alerts: seq<ClientAlert>, severity: string): (n: nat)
    ensures n <= |alerts|
    ensures n == 0 <==> forall a :: a in alerts ==> a.severity != severity
  {
    CountZeroIffNone(alerts, (a: ClientAlert) => a.severity == severity);
    Count(alerts, (a: ClientAlert) => a.severity == severity)
  }

  function StatusIs(status: string): ClientAlert -> bool
  {
    (a: ClientAlert) => a.status == status
  }

  /** Selecting tab 1, 2 or 3 from the default filters lists exactly the alerts
   *  of that status, as many as the tab's count. */
  lemma TabListsItsStatus(alerts: seq<ClientAlert>, tab: int, lower: string -> string)
    requires 1 <= tab <= 3
    ensures var status := StatusMap[tab];
      && FilteredAlerts(alerts, HandleTabChange(DefaultFilters, tab), lower) == Some(Filter(alerts, StatusIs(status)))
      && |Filter(alerts, StatusIs(status))| == AlertStatusCount(alerts, status)
  {
    var status := StatusMap[tab];
    var f := HandleTabChange(DefaultFilters, tab);
    assert f.status == Some(status);
    FilterOrThrowIsFilter(alerts, PassesFn(f, lower), StatusIs(status));
    FilterSamePredicate(alerts, StatusIs(status), (a: ClientAlert) => a.status == status);
  }

  // -------------------------------------------------------- the station test

  /** As written, choosing a station hides every alert whose station id is a
   *  string, whatever the chosen id. */
  lemma AsWrittenHidesStringIds(a: ClientAlert, f: Filters, lower: string -> string)
    requires f.station != "all" && a.stationId.JsStr?
    ensures PassesAsWritten(a, f, lower) == Some(false)
  {
  }

  /** An alert of the chosen station, with every other filter at its default:
   *  the code as written shows nothing, the corrected test shows the alert
   *  (for instance an alert of station 'P3' with the station filter on 'P3'). */
  lemma AsWrittenStationFilterCounterexample(a: ClientAlert, station: string, lower: string -> string)
    requires station != "all" && a.stationId == JsStr(station)
    ensures FilteredAlertsAsWritten([a], DefaultFilters.(station := station), lower) == Some([])
    ensures FilteredAlerts([a], DefaultFilters.(station := station), lower) == Some([a])
  {
    var f := DefaultFilters.(station := station);
    AsWrittenHidesStringIds(a, f, lower);
    assert Passes(a, f, lower) == Some(true);
    assert [a][1..] == [];
    assert PassesAsWrittenFn(f, lower)(a) == Some(false);
    assert PassesFn(f, lower)(a) == Some(true);
    assert FilterOrThrow([a][1..], PassesAsWrittenFn(f, lower)) == Some([]);
    assert FilterOrThrow([a][1..], PassesFn(f, lower)) == Some([]);
    var none: seq<ClientAlert> := [];
    assert FilterOrThrow([a], PassesAsWrittenFn(f, lower)) == Some(none + none);
    assert none + none == none;
    assert FilterOrThrow([a], PassesFn(f, lower)) == Some([a] + none);
    assert [a] + none == [a];
  }

  function AtStation(station: string): ClientAlert -> bool
  {
    (a: ClientAlert) => a.stationId == JsStr(station)
  }

  /** With the corrected test, choosing a station from the default filters lists
   *  exactly that station's alerts, in order. */
  lemma StationFilterSelectsStation(alerts: seq<ClientAlert>, station: string, lower: string -> string)
    requires station != "all"
    ensures FilteredAlerts(alerts, HandleFilterChange(DefaultFilters, StationField, station), lower)
            == Some(Filter(alerts, AtStation(station)))
  {
    var f := HandleFilterChange(DefaultFilters, StationField, station);
    FilterOrThrowIsFilter(alerts, PassesFn(f, lower), AtStation(station));
  }
}
