/**
 * `client/src/App.js`: how the socket events change the client's `stations`
 * and `alerts` lists. Each handler is a function from the previous list (and
 * the event's payload) to the next one.
 */
module AppReducers {
  import opened Common
  import opened ClientData

  /** `new_alert`: `[alert, ...prev]`. */
  function OnNewAlert(prev: seq<ClientAlert>, alert: ClientAlert): (next: seq<ClientAlert>)
    ensures |next| == |prev| + 1 && next[0] == alert && next[1..] == prev
  {
    [alert] + prev
  }

  /** The spread `{ ...alert, status: 'acknowledged', acknowledged_by }`. */
  function Acknowledged(a: ClientAlert, actor: Option<string>): ClientAlert
  {
    a.(status := "acknowledged", acknowledgedBy := actor)
  }

  /** The spread `{ ...alert, status: 'resolved', resolved_by }`. */
  function Resolved(a: ClientAlert, actor: Option<string>): ClientAlert
  {
    a.(status := "resolved", resolvedBy := actor)
  }

  /** `alert_acknowledged`: every alert with that id is marked, every other alert
   *  is left as it was, and the list keeps its length and order. */
  function OnAlertAcknowledged(prev: seq<ClientAlert>, alertId: int, actor: Option<string>): (next: seq<ClientAlert>)
    ensures |next| == |prev|
    ensures forall k :: 0 <= k < |prev| ==>
      next[k] == (if prev[k].id == alertId then Acknowledged(prev[k], actor) else prev[k])
  {
    if prev == [] then []
    else [if prev[0].id == alertId then Acknowledged(prev[0], actor) else prev[0]]
         + OnAlertAcknowledged(prev[1..], alertId, actor)
  }

  /** `alert_resolved`, likewise. */
  function OnAlertResolved(prev: seq<ClientAlert>, alertId: int, actor: Option<string>): (next: seq<ClientAlert>)
    ensures |next| == |prev|
    ensures forall k :: 0 <= k < |prev| ==>
      next[k] == (if prev[k].id == alertId then Resolved(prev[k], actor) else prev[k])
  {
    if prev == [] then []
    else [if prev[0].id == alertId then Resolved(prev[0], actor) else prev[0]]
         + OnAlertResolved(prev[1..], alertId, actor)
  }

  /** `station_status_updated`: `{ ...station, status, last_updated: timestamp }`
   *  on the stations with that id, nothing else touched. */
  function OnStationStatusUpdated(prev: seq<ClientStation>, stationId: string, status: string, timestamp: int)
    : (next: seq<ClientStation>)
    ensures |next| == |prev|
    ensures forall k :: 0 <= k < |prev| ==>
      next[k] == (if prev[k].id == stationId then prev[k].(status := status, lastUpdated := timestamp) else prev[k])
  {
    if prev == [] then []
    else [if prev[0].id == stationId then prev[0].(status := status, lastUpdated := timestamp) else prev[0]]
         + OnStationStatusUpdated(prev[1..], stationId, status, timestamp)
  }

  /** The events `App.js` listens to, with their payloads. */
  datatype Event =
    | StationsData(stations: seq<ClientStation>)
    | AlertsData(alerts: seq<ClientAlert>)
    | NewAlertEvent(alert: ClientAlert)
    | AlertAcknowledgedEvent(alertId: int, acknowledgedBy: Option<string>)
    | AlertResolvedEvent(alertId: int, resolvedBy: Option<string>)
    | StationStatusUpdatedEvent(stationId: string, status: string, timestamp: int)

  /** The two lists the handlers update. */
  datatype ClientState = ClientState(stations: seq<ClientStation>, alerts: seq<ClientAlert>)

  /** The handler for one event. */
  function Reduce(s: ClientState, e: Event): ClientState
  {
    match e
    case StationsData(data) => s.(stations := data)
    case AlertsData(data) => s.(alerts := data)
    case NewAlertEvent(a) => s.(alerts := OnNewAlert(s.alerts, a))
    case AlertAcknowledgedEvent(id, actor) => s.(alerts := OnAlertAcknowledged(s.alerts, id, actor))
    case AlertResolvedEvent(id, actor) => s.(alerts := OnAlertResolved(s.alerts, id, actor))
    case StationStatusUpdatedEvent(id, status, t) => s.(stations := OnStationStatusUpdated(s.stations, id, status, t))
  }

  predicate IsStationEvent(e: Event)
  {
    e.StationsData? || e.StationStatusUpdatedEvent?
  }

  /** Station events leave the alert list alone and alert events the station
   *  list; a `*_data` event replaces its list whatever it held before. */
  lemma ReduceTouchesOneList(s: ClientState, e: Event)
    ensures IsStationEvent(e) ==> Reduce(s, e).alerts == s.alerts
    ensures !IsStationEvent(e) ==> Reduce(s, e).stations == s.stations
    ensures e.StationsData? ==> Reduce(s, e).stations == e.stations
    ensures e.AlertsData? ==> Reduce(s, e).alerts == e.alerts
  {
  }

  /** After a `*_data` event the state no longer depends on what came before it. */
  lemma DataEventForgetsHistory(s: ClientState, t: ClientState, stations: seq<ClientStation>, alerts: seq<ClientAlert>)
    ensures Reduce(Reduce(s, StationsData(stations)), AlertsData(alerts))
            == Reduce(Reduce(t, StationsData(stations)), AlertsData(alerts))
  {
  }

  /** An acknowledgement changes no id, so a second one for the same id finds
   *  the same alerts, and repeating it changes nothing more. */
  lemma AcknowledgeIdempotent(prev: seq<ClientAlert>, alertId: int, actor: Option<string>)
    ensures var once := OnAlertAcknowledged(prev, alertId, actor);
      && (forall k :: 0 <= k < |prev| ==> once[k].id == prev[k].id)
      && OnAlertAcknowledged(once, alertId, actor) == once
  {
  }

  /** Resolving after acknowledging keeps who acknowledged. */
  lemma ResolveKeepsAcknowledger(prev: seq<ClientAlert>, alertId: int, acker: Option<string>, resolver: Option<string>)
    ensures var next := OnAlertResolved(OnAlertAcknowledged(prev, alertId, acker), alertId, resolver);
      forall k :: 0 <= k < |prev| && prev[k].id == alertId ==>
        next[k].status == "resolved" && next[k].acknowledgedBy == acker && next[k].resolvedBy == resolver
  {
  }

  /** A new alert is counted among the alerts of its status. */
  lemma NewAlertCounted(prev: seq<ClientAlert>, alert: ClientAlert)
    ensures Count(OnNewAlert(prev, alert), IsActiveAlert())
            == Count(prev, IsActiveAlert()) + (if alert.status == "active" then 1 else 0)
  {
    assert OnNewAlert(prev, alert)[1..] == prev;
  }
}
