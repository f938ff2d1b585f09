/**
 * `client/src/pages/Dashboard.js`: the figures the dashboard derives from the
 * station list: the active-alert total, the four status counts, the stations
 * that are not normal, and the three zone groups, each sorted by code with
 * `localeCompare(..., {numeric: true})` (a parameter here).
 */
module Dashboard {
  import opened Common
  import opened JsText
  import opened ClientData
  import Sorting

  /** `parseInt(s.active_alerts, 10) || 0`: NaN counts as 0. */
  function ActiveAlertsOf(s: ClientStation): int
  {
    match ParseIntValue(s.activeAlerts)
    case Some(n) => n
    case None => 0
  }

  /** `stations.reduce((sum, s) => sum + ..., 0)`. */
  function TotalActiveAlerts(stations: seq<ClientStation>): int
    decreases |stations|
  {
    if stations == [] then 0
    else TotalActiveAlerts(stations[..|stations| - 1]) + ActiveAlertsOf(stations[|stations| - 1])
  }

  /** The total of two lists is the sum of their totals. */
  lemma {:induction false} TotalActiveAlertsAppend(a: seq<ClientStation>, b: seq<ClientStation>)
    ensures TotalActiveAlerts(a + b) == TotalActiveAlerts(a) + TotalActiveAlerts(b)
    decreases |b|
  {
    if b != [] {
      assert (a + b)[..|a + b| - 1] == a + b[..|b| - 1];
      TotalActiveAlertsAppend(a, b[..|b| - 1]);
    } else {
      assert a + b == a;
    }
  }

  /** A station whose count does not parse adds nothing; one whose count is a
   *  number adds that number. */
  lemma TotalActiveAlertsOfOne(stations: seq<ClientStation>, s: ClientStation)
    ensures ParseIntValue(s.activeAlerts).None? ==> TotalActiveAlerts(stations + [s]) == TotalActiveAlerts(stations)
    ensures ParseIntValue(s.activeAlerts).Some? ==>
      TotalActiveAlerts(stations + [s]) == TotalActiveAlerts(stations) + ParseIntValue(s.activeAlerts).value
  {
    assert (stations + [s])[..|stations|] == stations;
  }

  /** With no negative count, the total is not negative. */
  lemma {:induction false} TotalActiveAlertsNonNegative(stations: seq<ClientStation>)
    requires forall s :: s in stations ==> 0 <= ActiveAlertsOf(s)
    ensures 0 <= TotalActiveAlerts(stations)
    decreases |stations|
  {
    if stations != [] {
      var init := stations[..|stations| - 1];
      assert forall s :: s in init ==> s in stations;
      assert stations[|stations| - 1] in stations;
      TotalActiveAlertsNonNegative(init);
    }
  }

  /** The four statuses a station may have. */
  predicate KnownStatus(status: string)
  {
    status == "normal" || status == "warning" || status == "error" || status == "maintenance"
  }

  /** The four status counts add up to the number of stations when every station
   *  has one of the four statuses. */
  lemma {:induction false} StatusCountsSum(stations: seq<ClientStation>)
    requires forall s :: s in stations ==> KnownStatus(s.status)
    ensures StatusCount(stations, "normal") + StatusCount(stations, "warning")
            + StatusCount(stations, "error") + StatusCount(stations, "maintenance") == |stations|
  {
    if stations != [] {
      assert stations[0] in stations;
      assert forall s :: s in stations[1..] ==> s in stations;
      StatusCountsSum(stations[1..]);
    }
  }

  function IsAbnormal(): ClientStation -> bool
  {
    (s: ClientStation) => s.status != "normal"
  }

  /** `stations.filter(s => s.status !== 'normal')`. */
  function AbnormalStations(stations: seq<ClientStation>): seq<ClientStation>
  {
    Filter(stations, IsAbnormal())
  }

  /** Exactly the stations that are not normal, in their original order; with the
   *  normal ones they make up the whole list. */
  lemma AbnormalStationsMeaning(stations: seq<ClientStation>)
    ensures forall s :: s in AbnormalStations(stations) <==> s in stations && s.status != "normal"
    ensures IsSubsequence(AbnormalStations(stations), stations)
    ensures |AbnormalStations(stations)| + StatusCount(stations, "normal") == |stations|
  {
    FilterIsSubsequence(stations, IsAbnormal());
    CountComplement(stations, IsAbnormal(), HasStatus("normal"));
  }

  function InZone(prefix: string): ClientStation -> bool
  {
    (s: ClientStation) => StartsWith(s.code, prefix)
  }

  function ByCode(localeCompare: (string, string) -> int): (ClientStation, ClientStation) -> bool
  {
    (a: ClientStation, b: ClientStation) => localeCompare(a.code, b.code) <= 0
  }

  /** `stations.filter(s => s.code.startsWith(prefix)).sort(sortByCode)`. */
  function ZoneGroup(stations: seq<ClientStation>, prefix: string, localeCompare: (string, string) -> int)
    : seq<ClientStation>
  {
    Sorting.SortBy(Filter(stations, InZone(prefix)), ByCode(localeCompare))
  }

  /** A zone group is a rearrangement of the stations whose code starts with its
   *  letter, and it is ordered by code when the collation is a total preorder. */
  lemma ZoneGroupMeaning(stations: seq<ClientStation>, prefix: string, localeCompare: (string, string) -> int)
    ensures multiset(ZoneGroup(stations, prefix, localeCompare)) == multiset(Filter(stations, InZone(prefix)))
    ensures forall s :: s in ZoneGroup(stations, prefix, localeCompare) <==> s in stations && StartsWith(s.code, prefix)
    ensures Sorting.TotalPreorder(ByCode(localeCompare)) ==>
      Sorting.SortedBy(ZoneGroup(stations, prefix, localeCompare), ByCode(localeCompare))
  {
    var kept := Filter(stations, InZone(prefix));
    forall s ensures s in ZoneGroup(stations, prefix, localeCompare) <==> s in stations && StartsWith(s.code, prefix) {
      Sorting.SortByMembers(kept, ByCode(localeCompare), s);
    }
    if Sorting.TotalPreorder(ByCode(localeCompare)) {
      Sorting.SortBySorted(kept, ByCode(localeCompare));
    }
  }

  /** A one-letter prefix is the first character. */
  lemma StartsWithLetter(code: string, c: char)
    ensures StartsWith(code, [c]) <==> code != "" && code[0] == c
  {
    if code != "" && code[0] == c {
      assert code[..1] == [c];
    }
  }

  /** No station is in two of the S, C and P groups. */
  lemma ZoneGroupsDisjoint(stations: seq<ClientStation>, localeCompare: (string, string) -> int, s: ClientStation)
    ensures s in ZoneGroup(stations, "S", localeCompare) ==>
      s !in ZoneGroup(stations, "C", localeCompare) && s !in ZoneGroup(stations, "P", localeCompare)
    ensures s in ZoneGroup(stations, "C", localeCompare) ==> s !in ZoneGroup(stations, "P", localeCompare)
  {
    ZoneGroupMeaning(stations, "S", localeCompare);
    ZoneGroupMeaning(stations, "C", localeCompare);
    ZoneGroupMeaning(stations, "P", localeCompare);
    StartsWithLetter(s.code, 'S');
    StartsWithLetter(s.code, 'C');
    StartsWithLetter(s.code, 'P');
  }
}
