/**
 * The relational store behind the station board: the `stations` table keyed by
 * station id, the append-only `logs` table, the Socket.IO channels the server
 * pushes on and the outbound chat webhook. Both `server/routes/stations.js` and
 * `server/socket/socketHandlers.js` run their SQL against this one store.
 */
module Store {
  import opened Common

  /** The only statuses the write paths accept. */
  const Statuses: seq<string> := ["normal", "warning", "error", "maintenance"]

  predicate IsValidStatus(s: string)
  {
    s in Statuses
  }

  /** A row of `stations`. */
  datatype Station = Station(
    id: string, name: string, code: string, description: string,
    locationX: int, locationY: int, status: string, lastUpdated: int)

  /** Why a `logs` row exists. */
  datatype EventType = ChangeStatus | ClearAll | ResetAll

  /** A row of `logs`; the auto-increment id is the row's position. */
  datatype LogEntry = LogEntry(
    eventType: EventType, source: string, stationId: Option<string>,
    oldStatus: Option<string>, newStatus: Option<string>, time: int)

  /** Reasons the socket handler reports on the `error` event. */
  datatype SocketError = MissingFields | InvalidStatus | StationNotFound

  /** An event pushed on a Socket.IO channel. `idKey` is the name of the
   *  payload's station-id property, which differs between the two senders. */
  datatype Push =
    | StationStatusUpdated(idKey: string, stationId: string, status: string, timestamp: int)
    | UpdateSucceeded
    | ErrorEvent(reason: SocketError)
    | NewAlert(newId: nat, stationNumber: Option<int>, alertType: string, severity: string,
               message: string, createdAt: int)
    | AlertAcknowledged(alertId: int, actor: string, timestamp: int)
    | AlertResolved(alertId: int, actor: string, timestamp: int)

  /** The HTTP outcome of a route handler. */
  datatype Response<T> = Ok(body: T) | Created(body: T) | BadRequest | NotFound | Conflict | ServerError
  {
    function HttpStatus(): int
    {
      match this
      case Ok(_) => 200
      case Created(_) => 201
      case BadRequest => 400
      case NotFound => 404
      case Conflict => 409
      case ServerError => 500
    }
  }

  /** One row of `SELECT id, status FROM stations WHERE status != 'normal'`. */
  datatype SnapshotRow = SnapshotRow(id: string, status: string)

  /** Every station has one of the four statuses. */
  ghost predicate AllValid(m: map<string, Station>)
  {
    forall id :: id in m ==> IsValidStatus(m[id].status)
  }

  /** The ids whose status is not 'normal'. */
  function NonNormalIds(m: map<string, Station>): set<string>
  {
    set id | id in m && m[id].status != "normal"
  }

  /** `UPDATE stations SET status = ?, last_updated = NOW() WHERE id = ?` on a present id. */
  function WithStatus(m: map<string, Station>, id: string, status: string, now: int): (m': map<string, Station>)
    requires id in m
    ensures m'.Keys == m.Keys
    ensures m'[id].status == status && m'[id].lastUpdated == now
    ensures m'[id] == m[id].(status := status, lastUpdated := now)
    ensures forall other :: other in m && other != id ==> m'[other] == m[other]
  {
    m[id := m[id].(status := status, lastUpdated := now)]
  }

  lemma WithStatusKeepsValid(m: map<string, Station>, id: string, status: string, now: int)
    requires id in m && AllValid(m) && IsValidStatus(status)
    ensures AllValid(WithStatus(m, id, status, now))
  {
  }

  /** A per-station transition row written by the server. */
  function TransitionRow(eventType: EventType, id: string, oldStatus: string, newStatus: string, now: int): LogEntry
  {
    LogEntry(eventType, "server", Some(id), Some(oldStatus), Some(newStatus), now)
  }

  /** The rows a reset loop writes for the snapshot rows it has processed, in order. */
  function ResetRows(snap: seq<SnapshotRow>, eventType: EventType, now: int): (rows: seq<LogEntry>)
    ensures |rows| == |snap|
    ensures forall k :: 0 <= k < |snap| ==>
      rows[k] == TransitionRow(eventType, snap[k].id, snap[k].status, "normal", now)
  {
    if snap == [] then []
    else ResetRows(snap[..|snap| - 1], eventType, now)
         + [TransitionRow(eventType, snap[|snap| - 1].id, snap[|snap| - 1].status, "normal", now)]
  }

  /** The stations after a reset at `now`: every non-normal station becomes
   *  normal with a fresh timestamp, every normal one is left as it was. */
  function Normalized(m: map<string, Station>, now: int): (m': map<string, Station>)
    ensures m'.Keys == m.Keys
  {
    map id | id in m :: if m[id].status != "normal" then m[id].(status := "normal", lastUpdated := now) else m[id]
  }

  lemma NormalizedAllNormal(m: map<string, Station>, now: int)
    ensures forall id :: id in Normalized(m, now) ==> Normalized(m, now)[id].status == "normal"
    ensures NonNormalIds(Normalized(m, now)) == {}
    ensures AllValid(Normalized(m, now))
  {
  }

  /** A second reset changes no station. */
  lemma NormalizedIdempotent(m: map<string, Station>, now: int, later: int)
    ensures Normalized(Normalized(m, now), later) == Normalized(m, now)
  {
  }

  /** A reset changes exactly the stations that were not normal. */
  lemma NormalizedChangesExactlyNonNormal(m: map<string, Station>, now: int, id: string)
    requires id in m
    ensures Normalized(m, now)[id] != m[id] <==> id in NonNormalIds(m)
  {
  }

  /** The stations once a reset loop has processed the ids in `done`. */
  function PartialReset(m: map<string, Station>, done: set<string>, now: int): (m': map<string, Station>)
    ensures m'.Keys == m.Keys
  {
    map id | id in m :: if id in done then m[id].(status := "normal", lastUpdated := now) else m[id]
  }

  /** One more iteration of a reset loop. */
  lemma PartialResetStep(m: map<string, Station>, done: set<string>, id: string, now: int)
    requires id in m
    ensures WithStatus(PartialReset(m, done, now), id, "normal", now) == PartialReset(m, done + {id}, now)
  {
    var lhs := WithStatus(PartialReset(m, done, now), id, "normal", now);
    var rhs := PartialReset(m, done + {id}, now);
    assert lhs.Keys == rhs.Keys;
    forall k | k in lhs ensures lhs[k] == rhs[k] {
    }
  }

  /** A reset loop that has processed exactly the non-normal stations has normalized the store. */
  lemma PartialResetComplete(m: map<string, Station>, now: int)
    ensures PartialReset(m, NonNormalIds(m), now) == Normalized(m, now)
  {
    var lhs := PartialReset(m, NonNormalIds(m), now);
    var rhs := Normalized(m, now);
    forall k | k in lhs ensures lhs[k] == rhs[k] {
    }
  }

  lemma PartialResetNone(m: map<string, Station>, now: int)
    ensures PartialReset(m, {}, now) == m
  {
  }

  /** The station ids listed in a snapshot. */
  function SnapshotIds(snap: seq<SnapshotRow>): set<string>
  {
    set k | 0 <= k < |snap| :: snap[k].id
  }

  /** Extending the processed prefix of a snapshot by one row. */
  lemma SnapshotIdsExtend(snap: seq<SnapshotRow>, i: nat, eventType: EventType, now: int)
    requires i < |snap|
    ensures SnapshotIds(snap[..i + 1]) == SnapshotIds(snap[..i]) + {snap[i].id}
    ensures ResetRows(snap[..i + 1], eventType, now)
            == ResetRows(snap[..i], eventType, now) + [TransitionRow(eventType, snap[i].id, snap[i].status, "normal", now)]
  {
    assert snap[..i + 1][..i] == snap[..i];
    assert snap[..i + 1][i] == snap[i];
    assert forall k :: 0 <= k < i ==> snap[..i + 1][k] == snap[..i][k];
  }

  ghost predicate DistinctIds(snap: seq<SnapshotRow>)
  {
    forall i, j :: 0 <= i < j < |snap| ==> snap[i].id != snap[j].id
  }

  /** The `stations` and `logs` tables. */
  class Database {
    var stations: map<string, Station>
    var logs: seq<LogEntry>

    constructor (initial: map<string, Station>)
      ensures stations == initial && logs == []
    {
      stations := initial;
      logs := [];
    }

    /** `SELECT id, status FROM stations WHERE status != 'normal'`: each non-normal
     *  station exactly once with its current status, in no particular order. */
    method SelectNonNormal() returns (snap: seq<SnapshotRow>)
      ensures SnapshotIds(snap) == NonNormalIds(stations)
      ensures DistinctIds(snap)
      ensures forall k :: 0 <= k < |snap| ==>
        snap[k].id in stations && snap[k].status == stations[snap[k].id].status
    {
      snap := [];
      var unscanned := stations.Keys;
      while unscanned != {}
        invariant unscanned <= stations.Keys
        invariant SnapshotIds(snap) == NonNormalIds(stations) - unscanned
        invariant SnapshotIds(snap) !! unscanned
        invariant DistinctIds(snap)
        invariant forall k :: 0 <= k < |snap| ==>
          snap[k].id in stations && snap[k].status == stations[snap[k].id].status
        decreases unscanned
      {
        var id :| id in unscanned;
        if stations[id].status != "normal" {
          var row := SnapshotRow(id, stations[id].status);
          assert SnapshotIds(snap + [row]) == SnapshotIds(snap) + {id} by {
            assert forall k :: 0 <= k < |snap| ==> (snap + [row])[k] == snap[k];
            assert (snap + [row])[|snap|] == row;
          }
          snap := snap + [row];
        }
        unscanned := unscanned - {id};
      }
    }
  }

  /** A Socket.IO endpoint: everything pushed to it, in order. */
  class Channel {
    var sent: seq<Push>

    constructor ()
      ensures sent == []
    {
      sent := [];
    }

    method Emit(p: Push)
      modifies this
      ensures sent == old(sent) + [p]
    {
      sent := sent + [p];
    }
  }

  /** The outbound chat webhook: every message posted to it, in order. Whether
   *  the HTTP call succeeded is an outcome the callers receive and ignore. */
  class Webhook {
    var posted: seq<string>

    constructor ()
      ensures posted == []
    {
      posted := [];
    }

    method Post(message: string)
      modifies this
      ensures posted == old(posted) + [message]
    {
      posted := posted + [message];
    }
  }
}
