/**
 * `client/src/pages/Statistics.js`: the coloured status timeline of one station
 * over one day (`StationStatusTimeline`), the zone-then-number ordering of the
 * station lists, the zone name of a station code and the uptime figure.
 * A day is a day index; its first millisecond is `StartOfDay` and its last
 * (dayjs `endOf('day')`) is `EndOfDay`. The clock reading `now` is a parameter.
 */
module Timeline {
  import opened Common
  import opened JsText
  import opened ClientData
  import Sorting

  /** A row of the status-log answer: when, and the status it changed to. */
  datatype Entry = Entry(time: int, newStatus: string)

  /** One coloured stretch of the bar. */
  datatype Segment = Segment(from: int, to: int, status: string)

  function StartOfDay(day: int): int
  {
    day * DayMs
  }

  function EndOfDay(day: int): int
  {
    day * DayMs + DayMs - 1
  }

  // ------------------------------------------------------------ the segments

  /** The variables of the `forEach` over the log: the segments pushed so far,
   *  `lastTime` and `lastStatus`. */
  datatype Scan = Scan(segments: seq<Segment>, lastTime: int, lastStatus: string)

  /** One iteration: a segment is pushed only when the entry is strictly after
   *  `lastTime`; `lastTime` and `lastStatus` are taken from the entry in any case. */
  function Step(s: Scan, e: Entry): Scan
  {
    Scan(if e.time > s.lastTime then s.segments + [Segment(s.lastTime, e.time, s.lastStatus)] else s.segments,
         e.time, e.newStatus)
  }

  /** The loop over the whole log, starting from the start of the day in 'normal'. */
  function ScanLog(log: seq<Entry>, start: int): Scan
    decreases |log|
  {
    if log == [] then Scan([], start, "normal")
    else Step(ScanLog(log[..|log| - 1], start), log[|log| - 1])
  }

  /** The closing segments: today, up to `now` and then 'future' to the end of
   *  the day; any other day, up to the end of the day. */
  function Close(s: Scan, day: int, now: int): seq<Segment>
  {
    var end := EndOfDay(day);
    if DayOf(now) == day && now > s.lastTime then
      s.segments + [Segment(s.lastTime, now, s.lastStatus)]
      + (if now < end then [Segment(now, end, "future")] else [])
    else if DayOf(now) != day && s.lastTime < end then
      s.segments + [Segment(s.lastTime, end, s.lastStatus)]
    else s.segments
  }

  function Segments(log: seq<Entry>, day: int, now: int): seq<Segment>
  {
    Close(ScanLog(log, StartOfDay(day)), day, now)
  }

  /** The segment construction of `StationStatusTimeline`. */
  method BuildSegments(log: seq<Entry>, day: int, now: int) returns (segments: seq<Segment>)
    ensures segments == Segments(log, day, now)
  {
    var startOfDay := StartOfDay(day);
    var endOfDay := EndOfDay(day);
    segments := [];
    var lastTime := startOfDay;
    var lastStatus := "normal";
    for i := 0 to |log|
      invariant Scan(segments, lastTime, lastStatus) == ScanLog(log[..i], startOfDay)
    {
      assert log[..i + 1][..i] == log[..i];
      var entryTime := log[i].time;
      if entryTime > lastTime {
        segments := segments + [Segment(lastTime, entryTime, lastStatus)];
      }
      lastTime := entryTime;
      lastStatus := log[i].newStatus;
    }
    assert log[..|log|] == log;
    var isToday := DayOf(now) == day;
    if isToday && now > lastTime {
      segments := segments + [Segment(lastTime, now, lastStatus)];
      if now < endOfDay {
        segments := segments + [Segment(now, endOfDay, "future")];
      }
    } else if !isToday && lastTime < endOfDay {
      segments := segments + [Segment(lastTime, endOfDay, lastStatus)];
    }
  }

  // ------------------------------------------------- what the segments mean

  /** The status in force at time `t`: that of the last entry at or before `t`
   *  (of entries with equal times, the later one), 'normal' before any entry. */
  function StatusAt(log: seq<Entry>, t: int): string
    decreases |log|
  {
    if log == [] then "normal"
    else if log[|log| - 1].time <= t then log[|log| - 1].newStatus
    else StatusAt(log[..|log| - 1], t)
  }

  predicate Ascending(log: seq<Entry>)
  {
    forall i, j :: 0 <= i < j < |log| ==> log[i].time <= log[j].time
  }

  predicate WithinDay(log: seq<Entry>, day: int)
  {
    forall k :: 0 <= k < |log| ==> StartOfDay(day) <= log[k].time
  }

  predicate Positive(segs: seq<Segment>)
  {
    forall k :: 0 <= k < |segs| ==> segs[k].from < segs[k].to
  }

  predicate Contiguous(segs: seq<Segment>)
  {
    forall k :: 0 <= k < |segs| - 1 ==> segs[k].to == segs[k + 1].from
  }

  /** `lastTime` is the time of the last entry, or the start of the day. */
  lemma {:induction false} ScanLastTime(log: seq<Entry>, start: int)
    ensures ScanLog(log, start).lastTime == (if log == [] then start else log[|log| - 1].time)
    ensures ScanLog(log, start).lastStatus == (if log == [] then "normal" else log[|log| - 1].newStatus)
  {
  }

  /** The loop never pushes an empty or backwards segment. */
  lemma {:induction false} ScanPositive(log: seq<Entry>, start: int)
    ensures Positive(ScanLog(log, start).segments)
    decreases |log|
  {
    if log != [] {
      ScanPositive(log[..|log| - 1], start);
    }
  }

  /** Only positive-length segments are emitted, whatever the order of the log. */
  lemma SegmentsPositive(log: seq<Entry>, day: int, now: int)
    ensures Positive(Segments(log, day, now))
  {
    ScanPositive(log, StartOfDay(day));
  }

  /** A past or future day without log entries is one 'normal' segment over the whole day. */
  lemma EmptyOtherDay(day: int, now: int)
    requires DayOf(now) != day
    ensures Segments([], day, now) == [Segment(StartOfDay(day), EndOfDay(day), "normal")]
  {
  }

  /** An entry later than `t` does not change the status in force at `t`. */
  lemma StatusAtLater(log: seq<Entry>, e: Entry, t: int)
    requires t < e.time
    ensures StatusAt(log + [e], t) == StatusAt(log, t)
  {
    assert (log + [e])[..|log|] == log;
  }

  /** What the loop has built after an ascending prefix of the log. */
  ghost predicate Coherent(s: Scan, log: seq<Entry>, start: int)
  {
    && Positive(s.segments) && Contiguous(s.segments)
    && (s.segments == [] ==> s.lastTime == start)
    && (s.segments != [] ==> s.segments[0].from == start && s.segments[|s.segments| - 1].to == s.lastTime)
    && (forall k :: 0 <= k < |s.segments| ==> s.segments[k].status == StatusAt(log, s.segments[k].from))
    && s.lastStatus == StatusAt(log, s.lastTime)
  }

  lemma {:induction false} ScanCoherent(log: seq<Entry>, start: int)
    requires Ascending(log)
    requires forall k :: 0 <= k < |log| ==> start <= log[k].time
    ensures Coherent(ScanLog(log, start), log, start)
    decreases |log|
  {
    if log != [] {
      var init := log[..|log| - 1];
      var e := log[|log| - 1];
      assert init + [e] == log;
      ScanCoherent(init, start);
      ScanLastTime(init, start);
      CoherentStep(ScanLog(init, start), init, e, start);
    }
  }

  /** One iteration keeps the segments coherent with the log read so far. */
  lemma CoherentStep(s: Scan, init: seq<Entry>, e: Entry, start: int)
    requires Coherent(s, init, start)
    requires s.lastTime <= e.time
    ensures Coherent(Step(s, e), init + [e], start)
  {
    var log := init + [e];
    OldSegmentsKeepStatus(s, init, e, start);
    var r := Step(s, e);
    assert log[|log| - 1] == e;
    assert r.lastStatus == StatusAt(log, r.lastTime);
    if e.time > s.lastTime {
      StatusAtLater(init, e, s.lastTime);
      var seg := Segment(s.lastTime, e.time, s.lastStatus);
      assert r.segments == s.segments + [seg];
      forall k | 0 <= k < |r.segments|
        ensures r.segments[k].status == StatusAt(log, r.segments[k].from)
      {
        if k < |s.segments| {
          assert r.segments[k] == s.segments[k];
        }
      }
      forall k | 0 <= k < |r.segments| - 1
        ensures r.segments[k].to == r.segments[k + 1].from
      {
        if k < |s.segments| - 1 {
          assert r.segments[k] == s.segments[k] && r.segments[k + 1] == s.segments[k + 1];
        }
      }
    }
  }

  /** The segments already pushed all start before the new entry, so it does
   *  not change their status. */
  lemma OldSegmentsKeepStatus(s: Scan, init: seq<Entry>, e: Entry, start: int)
    requires Coherent(s, init, start)
    requires s.lastTime <= e.time
    ensures forall k :: 0 <= k < |s.segments| ==> s.segments[k].status == StatusAt(init + [e], s.segments[k].from)
  {
    forall k | 0 <= k < |s.segments|
      ensures s.segments[k].status == StatusAt(init + [e], s.segments[k].from)
    {
      assert s.segments[k].from < s.segments[k].to <= s.lastTime by {
        if k < |s.segments| - 1 {
          SegmentsBelowLast(s.segments, k);
        }
      }
      StatusAtLater(init, e, s.segments[k].from);
    }
  }

  /** In a positive contiguous run, every segment starts before the last one ends. */
  lemma {:induction false} SegmentsBelowLast(segs: seq<Segment>, k: nat)
    requires Positive(segs) && Contiguous(segs)
    requires k < |segs|
    ensures segs[k].to <= segs[|segs| - 1].to
    decreases |segs| - k
  {
    if k < |segs| - 1 {
      SegmentsBelowLast(segs, k + 1);
    }
  }

  /** For an ascending log of that day: the segments start at the start of the
   *  day, follow each other without gap or overlap, and each carries the status
   *  in force at its start, except today's closing 'future' segment. */
  lemma SegmentsFollowLog(log: seq<Entry>, day: int, now: int)
    requires Ascending(log) && WithinDay(log, day)
    ensures var segs := Segments(log, day, now);
      && Contiguous(segs)
      && (segs != [] ==> segs[0].from == StartOfDay(day))
      && forall k :: 0 <= k < |segs| ==>
           || segs[k].status == StatusAt(log, segs[k].from)
           || (DayOf(now) == day && k == |segs| - 1 && segs[k] == Segment(now, EndOfDay(day), "future"))
  {
    ScanCoherent(log, StartOfDay(day));
  }

  /** Today, once `now` is past every entry, the last real segment ends at `now`
   *  and a 'future' segment runs from `now` to the end of the day if there is
   *  any day left. */
  lemma TodayEndsAtNow(log: seq<Entry>, day: int, now: int)
    requires DayOf(now) == day && StartOfDay(day) < now
    requires forall k :: 0 <= k < |log| ==> log[k].time < now
    ensures var segs := Segments(log, day, now);
      && |segs| >= 1
      && (now < EndOfDay(day) ==> |segs| >= 2 && segs[|segs| - 1] == Segment(now, EndOfDay(day), "future")
                                  && segs[|segs| - 2].to == now)
      && (now >= EndOfDay(day) ==> segs[|segs| - 1].to == now)
  {
    ScanLastTime(log, StartOfDay(day));
  }

  /** Any other day, once every entry is before the end of the day, the last
   *  segment ends at the end of the day. */
  lemma OtherDayEndsAtEnd(log: seq<Entry>, day: int, now: int)
    requires DayOf(now) != day
    requires forall k :: 0 <= k < |log| ==> log[k].time < EndOfDay(day)
    ensures var segs := Segments(log, day, now);
      |segs| >= 1 && segs[|segs| - 1].to == EndOfDay(day)
  {
    ScanLastTime(log, StartOfDay(day));
  }

  // ------------------------------------------------------------- the ordering

  /** `khuOrder[code[0]] ?? 99`. */
  function ZoneRank(code: string): (rank: int)
    ensures rank in {0, 1, 2, 99}
    ensures rank == 0 <==> StartsWith(code, "S")
    ensures rank == 1 <==> StartsWith(code, "C")
    ensures rank == 2 <==> StartsWith(code, "P")
  {
    if code == "" then 99
    else if code[0] == 'S' then 0
    else if code[0] == 'C' then 1
    else if code[0] == 'P' then 2
    else 99
  }

  /** `parseInt(code.slice(1), 10)`; `None` is NaN. */
  function CodeNumber(code: string): Option<int>
  {
    ParseInt(if code == "" then "" else code[1..])
  }

  /** The comparator's value. A NaN difference counts as 0, as for any
   *  `Array.prototype.sort` comparator. */
  function Compare(a: ClientStation, b: ClientStation): int
  {
    var ka := ZoneRank(a.code);
    var kb := ZoneRank(b.code);
    if ka != kb then ka - kb
    else match (CodeNumber(a.code), CodeNumber(b.code))
      case (Some(x), Some(y)) => x - y
      case _ => 0
  }

  function ComesFirst(): (ClientStation, ClientStation) -> bool
  {
    (a: ClientStation, b: ClientStation) => Compare(a, b) <= 0
  }

  /** `stations.slice().sort(...)` of the timeline list. */
  function ByZoneAndNumber(stations: seq<ClientStation>): (r: seq<ClientStation>)
    ensures multiset(r) == multiset(stations)
  {
    Sorting.SortBy(stations, ComesFirst())
  }

  /** Every code has a number after its zone letter. */
  predicate NumberedCodes(stations: seq<ClientStation>)
  {
    forall s :: s in stations ==> CodeNumber(s.code).Some?
  }

  lemma ComesFirstPreorder(stations: seq<ClientStation>)
    requires NumberedCodes(stations)
    ensures Sorting.PreorderOn(stations, ComesFirst())
  {
    var le := ComesFirst();
    forall a, b | a in stations && b in stations ensures le(a, b) || le(b, a) {
      ComesFirstMeans(a, b);
      ComesFirstMeans(b, a);
    }
    forall a, b, c | a in stations && b in stations && c in stations && le(a, b) && le(b, c)
      ensures le(a, c)
    {
      ComesFirstMeans(a, b);
      ComesFirstMeans(b, c);
      ComesFirstMeans(a, c);
    }
  }

  /** `a` belongs before `b`: a lower zone rank, or the same zone and a number
   *  no greater. */
  predicate ZoneOrdered(a: ClientStation, b: ClientStation)
  {
    || ZoneRank(a.code) < ZoneRank(b.code)
    || (&& ZoneRank(a.code) == ZoneRank(b.code)
        && CodeNumber(a.code).Some? && CodeNumber(b.code).Some?
        && CodeNumber(a.code).value <= CodeNumber(b.code).value)
  }

  lemma ComesFirstMeans(a: ClientStation, b: ClientStation)
    requires CodeNumber(a.code).Some? && CodeNumber(b.code).Some?
    ensures ComesFirst()(a, b) <==> ZoneOrdered(a, b)
  {
  }

  /** With numbered codes, the list is ordered S before C before P before any
   *  other zone, and by ascending number within a zone. */
  lemma ByZoneAndNumberOrdered(stations: seq<ClientStation>)
    requires NumberedCodes(stations)
    ensures var r := ByZoneAndNumber(stations);
      forall i, j :: 0 <= i < j < |r| ==> ZoneOrdered(r[i], r[j])
  {
    ComesFirstPreorder(stations);
    Sorting.SortBySortedOn(stations, ComesFirst());
    var r := ByZoneAndNumber(stations);
    forall i, j | 0 <= i < j < |r| ensures ZoneOrdered(r[i], r[j]) {
      assert r[i] in multiset(stations) && r[j] in multiset(stations);
      assert ComesFirst()(r[i], r[j]);
      ComesFirstMeans(r[i], r[j]);
    }
  }

  // ------------------------------------------------------- performance rows

  /** `station.status === 'normal' ? 100 : station.status === 'warning' ? 75 : 50`. */
  function Uptime(status: string): (u: int)
    ensures u == 100 <==> status == "normal"
    ensures u == 75 <==> status == "warning"
    ensures u == 50 <==> status != "normal" && status != "warning"
  {
    if status == "normal" then 100 else if status == "warning" then 75 else 50
  }

  /** `{ ...station, uptime }`. */
  datatype PerfRow = PerfRow(station: ClientStation, uptime: int)

  function WithUptime(stations: seq<ClientStation>): (r: seq<PerfRow>)
    ensures |r| == |stations|
    ensures forall k :: 0 <= k < |r| ==> r[k] == PerfRow(stations[k], Uptime(stations[k].status))
  {
    if stations == [] then []
    else [PerfRow(stations[0], Uptime(stations[0].status))] + WithUptime(stations[1..])
  }

  function RowComesFirst(): (PerfRow, PerfRow) -> bool
  {
    (a: PerfRow, b: PerfRow) => Compare(a.station, b.station) <= 0
  }

  /** `getStationPerformance`: the stations with their uptime, sorted by the same comparator. */
  function StationPerformance(stations: seq<ClientStation>): seq<PerfRow>
  {
    Sorting.SortBy(WithUptime(stations), RowComesFirst())
  }

  lemma {:induction false} InsertWithUptime(x: ClientStation, s: seq<ClientStation>)
    ensures Sorting.InsertBy(PerfRow(x, Uptime(x.status)), WithUptime(s), RowComesFirst())
            == WithUptime(Sorting.InsertBy(x, s, ComesFirst()))
    decreases |s|
  {
    if s != [] && !ComesFirst()(x, s[0]) {
      InsertWithUptime(x, s[1..]);
      assert WithUptime(s)[1..] == WithUptime(s[1..]);
      assert Sorting.InsertBy(x, s, ComesFirst()) == [s[0]] + Sorting.InsertBy(x, s[1..], ComesFirst());
    } else if s != [] {
      assert WithUptime([x] + s) == [PerfRow(x, Uptime(x.status))] + WithUptime(s);
    }
  }

  /** The performance table lists the stations in the timeline list's order,
   *  each with its uptime. */
  lemma {:induction false} PerformanceFollowsOrder(stations: seq<ClientStation>)
    ensures StationPerformance(stations) == WithUptime(ByZoneAndNumber(stations))
    decreases |stations|
  {
    if stations != [] {
      PerformanceFollowsOrder(stations[1..]);
      assert WithUptime(stations)[1..] == WithUptime(stations[1..]);
      InsertWithUptime(stations[0], Sorting.SortBy(stations[1..], ComesFirst()));
    }
  }

  // ---------------------------------------------------------------- zones

  /** `getKhu`: the zone name of a code's letter, '' for any other letter. */
  function GetKhu(code: string): (zone: string)
    ensures code != "" && code[0] == 'S' ==> zone == "Khu Sơn"
    ensures code != "" && code[0] == 'C' ==> zone == "Khu Carcass"
    ensures code != "" && code[0] == 'P' ==> zone == "Khu Đóng Gói"
    ensures code == "" || code[0] !in "SCP" ==> zone == ""
  {
    if StartsWith(code, "S") then "Khu Sơn"
    else if StartsWith(code, "C") then "Khu Carcass"
    else if StartsWith(code, "P") then "Khu Đóng Gói"
    else ""
  }

  /** A station has a zone name exactly when the ordering ranks it in one of the
   *  three named zones. */
  lemma ZoneNameMatchesRank(code: string)
    ensures GetKhu(code) == "" <==> ZoneRank(code) == 99
  {
  }
}
