/**
 * `server/socket/socketHandlers.js`: the `update_station_status` event handler
 * and the reset helper, run against the same station store as the HTTP routes.
 * `sender` is the socket that sent the event, `others` is `socket.broadcast`
 * (every other connected client).
 */
module SocketHandlers {
  import opened Common
  import opened Store

  /** The Vietnamese label of a status, for the webhook text. */
  function StatusLabel(s: string): (text: Option<string>)
    ensures text.Some? <==> IsValidStatus(s)
  {
    if s == "normal" then Some("Bình thường")
    else if s == "warning" then Some("Cảnh báo")
    else if s == "error" then Some("Lỗi")
    else if s == "maintenance" then Some("Bảo trì")
    else None
  }

  /** Each of the four statuses has its own label. */
  lemma StatusLabelInjective(a: string, b: string)
    requires StatusLabel(a).Some? && StatusLabel(a) == StatusLabel(b)
    ensures a == b
  {
  }

  /** `statusLabel[s] || s`: the label when there is one, the raw value otherwise. */
  function LabelOrRaw(s: string): (t: string)
    ensures IsValidStatus(s) ==> t == StatusLabel(s).value
    ensures !IsValidStatus(s) ==> t == s
  {
    match StatusLabel(s)
    case Some(text) => text
    case None => s
  }

  /** The webhook text for a transition of station `name[code]`, stamped with the
   *  server's local time rendering `timeText`. */
  function NotificationText(timeText: string, name: string, code: string, oldStatus: string, newStatus: string): string
    requires IsValidStatus(newStatus)
  {
    "[ANDON] [" + timeText + "] Trạm " + name + "[" + code + "] thay đổi trạng thái từ ["
      + LabelOrRaw(oldStatus) + "] thành [" + StatusLabel(newStatus).value + "]"
  }

  /** `handleUpdateStationStatus`. The missing-field check comes first, then the
   *  enum check, then the lookup; each failure emits one `error` event to the
   *  sender and changes nothing else. On success the status is written, one
   *  `change_status` row is appended, the webhook is posted to (its failure is
   *  swallowed), the other clients get `station_status_updated` keyed by
   *  `station_id`, and the sender gets the success acknowledgement. */
  method HandleUpdateStationStatus(db: Database, sender: Channel, others: Channel, webhook: Webhook,
                                   stationId: string, status: string, now: int, timeText: string,
                                   webhookOk: bool)
    requires sender != others
    modifies db, sender, others, webhook
    ensures var failure :=
      if stationId == "" || status == "" then Some(MissingFields)
      else if !IsValidStatus(status) then Some(InvalidStatus)
      else if stationId !in old(db.stations) then Some(StationNotFound)
      else None;
      if failure.Some? then
        && sender.sent == old(sender.sent) + [ErrorEvent(failure.value)]
        && db.stations == old(db.stations) && db.logs == old(db.logs)
        && others.sent == old(others.sent) && webhook.posted == old(webhook.posted)
      else
        var before := old(db.stations)[stationId];
        && db.stations == WithStatus(old(db.stations), stationId, status, now)
        && db.logs == old(db.logs) + [TransitionRow(ChangeStatus, stationId, before.status, status, now)]
        && webhook.posted == old(webhook.posted)
                             + [NotificationText(timeText, before.name, before.code, before.status, status)]
        && others.sent == old(others.sent) + [StationStatusUpdated("station_id", stationId, status, now)]
        && sender.sent == old(sender.sent) + [UpdateSucceeded]
  {
    if stationId == "" || status == "" {
      sender.Emit(ErrorEvent(MissingFields));
      return;
    }
    if !IsValidStatus(status) {
      sender.Emit(ErrorEvent(InvalidStatus));
      return;
    }
    if stationId !in db.stations {
      // The SELECT found nothing and the UPDATE matched no row.
      sender.Emit(ErrorEvent(StationNotFound));
      return;
    }
    var before := db.stations[stationId];
    db.stations := WithStatus(db.stations, stationId, status, now);
    db.logs := db.logs + [TransitionRow(ChangeStatus, stationId, before.status, status, now)];
    webhook.Post(NotificationText(timeText, before.name, before.code, before.status, status));
    // A failed webhook call (webhookOk == false) is caught and only logged.
    others.Emit(StationStatusUpdated("station_id", stationId, status, now));
    sender.Emit(UpdateSucceeded);
  }

  /** `resetAllStationsToNormal`: every non-normal station becomes 'normal' with
   *  one `reset_all` row carrying its prior status; no summary row, no webhook,
   *  no broadcast. `snap` is the order the snapshot happened to come in. */
  method ResetAllStationsToNormal(db: Database, now: int) returns (ghost snap: seq<SnapshotRow>)
    modifies db
    ensures SnapshotIds(snap) == NonNormalIds(old(db.stations)) && DistinctIds(snap)
    ensures forall k :: 0 <= k < |snap| ==>
      snap[k].id in old(db.stations) && snap[k].status == old(db.stations)[snap[k].id].status
    ensures db.stations == Normalized(old(db.stations), now)
    ensures db.logs == old(db.logs) + ResetRows(snap, ResetAll, now)
  {
    var rows := db.SelectNonNormal();
    snap := rows;
    ghost var before := db.stations;
    ghost var logs0 := db.logs;
    ghost var done: set<string> := {};
    PartialResetNone(before, now);
    for i := 0 to |rows|
      invariant done == SnapshotIds(rows[..i])
      invariant db.stations == PartialReset(before, done, now)
      invariant db.logs == logs0 + ResetRows(rows[..i], ResetAll, now)
    {
      var row := rows[i];
      assert row.id in before;
      PartialResetStep(before, done, row.id, now);
      db.stations := WithStatus(db.stations, row.id, "normal", now);
      db.logs := db.logs + [TransitionRow(ResetAll, row.id, row.status, "normal", now)];
      SnapshotIdsExtend(rows, i, ResetAll, now);
      done := done + {row.id};
    }
    assert rows[..|rows|] == rows;
    PartialResetComplete(before, now);
  }
}
