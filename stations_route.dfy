/**
 * The HTTP handlers of `server/routes/stations.js` that write or query the
 * station store: PUT `/:id/status`, POST `/`, DELETE `/:id`, POST `/reset-all`
 * and GET `/:id/status-log`. Each handler is a method over the store; the
 * Socket.IO server, when the app has one registered under 'io', is `io`.
 */
module StationsRoute {
  import opened Common
  import opened Store
  import Sorting

  /** The `data` object of a successful status update. */
  datatype StatusChange = StatusChange(stationId: string, status: string)

  /** The `data` object of a created station: it echoes the request as sent,
   *  before the defaults are applied. */
  datatype CreatedStation = CreatedStation(
    id: string, name: string, code: string, description: Option<string>,
    locationX: Option<int>, locationY: Option<int>)

  /** The message the reset handler posts to the chat webhook. */
  const ResetMessage: string := "[ANDON] Tất cả các trạm được reset về trạng thái bình thường"

  /** PUT `/:id/status`. A status outside the four is refused before the store is
   *  touched; an unknown id is refused after the UPDATE matched no row; otherwise
   *  the status is written, one `change_status` row records the old and new
   *  status (also when they are equal), and `io`, if registered, is told. */
  method UpdateStatus(db: Database, io: Channel, hasIo: bool, stationId: string, status: string, now: int)
    returns (r: Response<StatusChange>)
    modifies db, io
    ensures !IsValidStatus(status) ==> r == BadRequest
    ensures IsValidStatus(status) && stationId !in old(db.stations) ==> r == NotFound
    ensures !r.Ok? ==> db.stations == old(db.stations) && db.logs == old(db.logs) && io.sent == old(io.sent)
    ensures r.Ok? <==> IsValidStatus(status) && stationId in old(db.stations)
    ensures r.Ok? ==>
      && r.body == StatusChange(stationId, status)
      && db.stations == WithStatus(old(db.stations), stationId, status, now)
      && db.logs == old(db.logs) + [TransitionRow(ChangeStatus, stationId, old(db.stations)[stationId].status, status, now)]
      && io.sent == old(io.sent) + (if hasIo then [StationStatusUpdated("stationId", stationId, status, now)] else [])
  {
    if !IsValidStatus(status) {
      return BadRequest;
    }
    if stationId !in db.stations {
      return NotFound;
    }
    var oldStatus := db.stations[stationId].status;
    db.stations := WithStatus(db.stations, stationId, status, now);
    db.logs := db.logs + [TransitionRow(ChangeStatus, stationId, oldStatus, status, now)];
    if hasIo {
      io.Emit(StationStatusUpdated("stationId", stationId, status, now));
    }
    r := Ok(StatusChange(stationId, status));
  }

  /** The row POST `/` inserts: id is the code, status 'normal', text and
   *  coordinates default to '' and 0. */
  function NewStation(name: string, code: string, description: Option<string>,
                      locationX: Option<int>, locationY: Option<int>, now: int): (s: Station)
    ensures s.id == code && s.code == code && s.name == name
    ensures s.status == "normal" && s.lastUpdated == now
    ensures s.description == (if description.Some? then description.value else "")
    ensures s.locationX == (if locationX.Some? then locationX.value else 0)
    ensures s.locationY == (if locationY.Some? then locationY.value else 0)
  {
    Station(code, name, code,
            if description.Some? then description.value else "",
            if locationX.Some? then locationX.value else 0,
            if locationY.Some? then locationY.value else 0,
            "normal", now)
  }

  /** POST `/`. Name and code are required (an empty string counts as missing);
   *  an INSERT on an existing id fails on the primary key and answers 409. */
  method CreateStation(db: Database, name: string, code: string, description: Option<string>,
                       locationX: Option<int>, locationY: Option<int>, now: int)
    returns (r: Response<CreatedStation>)
    modifies db
    ensures db.logs == old(db.logs)
    ensures name == "" || code == "" ==> r == BadRequest
    ensures name != "" && code != "" && code in old(db.stations) ==> r == Conflict
    ensures !r.Created? ==> db.stations == old(db.stations)
    ensures r.Created? <==> name != "" && code != "" && code !in old(db.stations)
    ensures r.Created? ==>
      && r.body == CreatedStation(code, name, code, description, locationX, locationY)
      && db.stations == old(db.stations)[code := NewStation(name, code, description, locationX, locationY, now)]
  {
    if name == "" || code == "" {
      return BadRequest;
    }
    if code in db.stations {
      return Conflict;
    }
    db.stations := db.stations[code := NewStation(name, code, description, locationX, locationY, now)];
    r := Created(CreatedStation(code, name, code, description, locationX, locationY));
  }

  /** DELETE `/:id`: removes that station and no other; 404 when absent. */
  method DeleteStation(db: Database, stationId: string) returns (r: Response<()>)
    modifies db
    ensures db.logs == old(db.logs)
    ensures r == (if stationId in old(db.stations) then Ok(()) else NotFound)
    ensures db.stations == old(db.stations) - {stationId}
  {
    if stationId !in db.stations {
      return NotFound;
    }
    db.stations := db.stations - {stationId};
    r := Ok(());
  }

  /** POST `/reset-all`. A snapshot of the non-normal stations is taken; each is
   *  set to 'normal' with a `change_status` row carrying its prior status; one
   *  `clear_all` row without station follows; the webhook is posted to and its
   *  failure swallowed. The answer is always success. The `snap` out-parameter
   *  is the order the snapshot happened to come in. */
  method ResetAll(db: Database, webhook: Webhook, webhookOk: bool, now: int)
    returns (r: Response<()>, ghost snap: seq<SnapshotRow>)
    modifies db, webhook
    ensures r == Ok(())
    ensures SnapshotIds(snap) == NonNormalIds(old(db.stations)) && DistinctIds(snap)
    ensures forall k :: 0 <= k < |snap| ==> snap[k].id in old(db.stations) && snap[k].status == old(db.stations)[snap[k].id].status
    ensures db.stations == Normalized(old(db.stations), now)
    ensures db.logs == old(db.logs) + ResetRows(snap, ChangeStatus, now)
                       + [LogEntry(ClearAll, "server", None, None, None, now)]
    ensures webhook.posted == old(webhook.posted) + [ResetMessage]
  {
    var rows := db.SelectNonNormal();
    snap := rows;
    ghost var before := db.stations;
    ghost var logs0 := db.logs;
    ghost var done: set<string> := {};
    PartialResetNone(before, now);
    for i := 0 to |rows|
      invariant done == SnapshotIds(rows[..i])
      invariant db.stations == PartialReset(before, done, now)
      invariant db.logs == logs0 + ResetRows(rows[..i], ChangeStatus, now)
      invariant webhook.posted == old(webhook.posted)
    {
      var row := rows[i];
      assert row.id in before;
      PartialResetStep(before, done, row.id, now);
      db.stations := WithStatus(db.stations, row.id, "normal", now);
      db.logs := db.logs + [TransitionRow(ChangeStatus, row.id, row.status, "normal", now)];
      SnapshotIdsExtend(rows, i, ChangeStatus, now);
      done := done + {row.id};
    }
    assert rows[..|rows|] == rows;
    PartialResetComplete(before, now);
    db.logs := db.logs + [LogEntry(ClearAll, "server", None, None, None, now)];
    webhook.Post(ResetMessage);
    // The outcome of the webhook call is caught and logged; it never changes the answer.
    r := Ok(());
  }

  /** A row of the status-log answer. */
  datatype StatusLogRow = StatusLogRow(time: int, newStatus: Option<string>)

  /** The WHERE clause of the status-log query. */
  predicate InDayLog(e: LogEntry, stationId: string, day: int)
  {
    e.stationId == Some(stationId) && e.eventType == ChangeStatus && DayOf(e.time) == day
  }

  function Project(rows: seq<LogEntry>): (r: seq<StatusLogRow>)
    ensures |r| == |rows|
    ensures forall k :: 0 <= k < |rows| ==> r[k] == StatusLogRow(rows[k].time, rows[k].newStatus)
  {
    if rows == [] then [] else [StatusLogRow(rows[0].time, rows[0].newStatus)] + Project(rows[1..])
  }

  function ByTime(): (LogEntry, LogEntry) -> bool
  {
    (a: LogEntry, b: LogEntry) => a.time <= b.time
  }

  /** GET `/:id/status-log?date=`: without a date, 400; otherwise the
   *  `change_status` rows of that station on that day, ascending by time. */
  function StatusLog(logs: seq<LogEntry>, stationId: string, date: Option<int>): Response<seq<StatusLogRow>>
  {
    if date.None? then BadRequest
    else
      var day := date.value;
      Ok(Project(Sorting.SortBy(Filter(logs, (e: LogEntry) => InDayLog(e, stationId, day)), ByTime())))
  }

  lemma ByTimeIsTotalPreorder()
    ensures Sorting.TotalPreorder(ByTime())
  {
  }

  /** The answer is ordered by time, and each of its rows comes from a
   *  `change_status` row of that station on that day. */
  lemma StatusLogMeaning(logs: seq<LogEntry>, stationId: string, day: int)
    ensures StatusLog(logs, stationId, Some(day)).Ok?
    ensures var rows := StatusLog(logs, stationId, Some(day)).body;
      && (forall i, j :: 0 <= i < j < |rows| ==> rows[i].time <= rows[j].time)
      && (forall k :: 0 <= k < |rows| ==> exists e :: e in logs && InDayLog(e, stationId, day)
                                                  && rows[k] == StatusLogRow(e.time, e.newStatus))
  {
    var p := (e: LogEntry) => InDayLog(e, stationId, day);
    var matched := Filter(logs, p);
    var sorted := Sorting.SortBy(matched, ByTime());
    ByTimeIsTotalPreorder();
    Sorting.SortBySorted(matched, ByTime());
    var rows := Project(sorted);
    assert rows == StatusLog(logs, stationId, Some(day)).body;
    forall i, j | 0 <= i < j < |rows| ensures rows[i].time <= rows[j].time {
      assert ByTime()(sorted[i], sorted[j]);
    }
    forall k | 0 <= k < |rows|
      ensures exists e :: e in logs && InDayLog(e, stationId, day) && rows[k] == StatusLogRow(e.time, e.newStatus)
    {
      var e := sorted[k];
      Sorting.SortByMembers(matched, ByTime(), e);
      assert e in matched;
    }
  }

  /** The answer is the projection of a rearrangement of the matching log
   *  rows, each kept as often as the log holds it: the query drops no
   *  duplicate and adds none, it only reorders. */
  lemma StatusLogRearranges(logs: seq<LogEntry>, stationId: string, day: int)
    ensures exists matched: seq<LogEntry> ::
      && multiset(matched) == multiset(Filter(logs, (e: LogEntry) => InDayLog(e, stationId, day)))
      && StatusLog(logs, stationId, Some(day)).body == Project(matched)
    ensures |StatusLog(logs, stationId, Some(day)).body|
            == |Filter(logs, (e: LogEntry) => InDayLog(e, stationId, day))|
  {
    var sorted := Sorting.SortBy(Filter(logs, (e: LogEntry) => InDayLog(e, stationId, day)), ByTime());
    assert StatusLog(logs, stationId, Some(day)).body == Project(sorted);
  }

  /** Every matching row is in the answer: the query drops nothing. */
  lemma StatusLogComplete(logs: seq<LogEntry>, stationId: string, day: int, e: LogEntry)
    requires e in logs && InDayLog(e, stationId, day)
    ensures StatusLogRow(e.time, e.newStatus) in StatusLog(logs, stationId, Some(day)).body
  {
    var matched := Filter(logs, (x: LogEntry) => InDayLog(x, stationId, day));
    var sorted := Sorting.SortBy(matched, ByTime());
    Sorting.SortByMembers(matched, ByTime(), e);
    var k :| 0 <= k < |sorted| && sorted[k] == e;
    assert Project(sorted)[k] == StatusLogRow(e.time, e.newStatus);
  }
}
