/**
 * `client/src/services/mockData.js`: the in-memory stand-in for the Socket.IO
 * client that the React app runs against. `MockStore` holds the module-level
 * `mockStations` and `mockAlerts` arrays, which the socket's `emit` handlers
 * change in place; `Socket` is the `MockSocket` object with its listener
 * registry. The handlers' `setTimeout` delays are left out: each `emit` does its
 * work at once, stamped with the clock reading `now`. Callbacks are numbered in
 * registration order; what they do is the client's business, so the socket
 * records each call it makes, with its payload.
 */
module MockSocket {
  import opened Common
  import opened JsText
  import opened ClientData
  import AppReducers

  /** The payload a listener is called with. */
  datatype Payload =
    | AlertCreatedPayload(success: bool, id: int)
    | NewAlertPayload(alert: ClientAlert)
    | SuccessPayload(success: bool)
    | AcknowledgedPayload(alertId: int, acknowledgedBy: Option<string>, timestamp: int)
    | ResolvedPayload(alertId: int, resolvedBy: Option<string>, timestamp: int)
    | StationUpdatedPayload(stationId: string, status: string, timestamp: int)

  /** A registered callback, by registration number. */
  type Callback = nat

  /** The callbacks registered for `event`, none if it has no list yet. */
  function Listeners(m: map<string, seq<Callback>>, event: string): seq<Callback>
  {
    if event in m then m[event] else []
  }

  /** The calls `trigger` makes: each callback in order, with the same payload. */
  function Calls(callbacks: seq<Callback>, data: Payload): (r: seq<(Callback, Payload)>)
    ensures |r| == |callbacks|
    ensures forall k :: 0 <= k < |r| ==> r[k] == (callbacks[k], data)
  {
    seq(|callbacks|, k requires 0 <= k < |callbacks| => (callbacks[k], data))
  }

  /** `array.find(p)`, as an index: the first element that satisfies `p`. */
  function FindFirst<T>(s: seq<T>, p: T -> bool): (r: Option<nat>)
    ensures r.Some? ==> r.value < |s| && p(s[r.value]) && forall j :: 0 <= j < r.value ==> !p(s[j])
    ensures r.None? ==> forall j :: 0 <= j < |s| ==> !p(s[j])
  {
    if s == [] then None
    else if p(s[0]) then Some(0)
    else match FindFirst(s[1..], p)
      case None => None
      case Some(i) => Some(i + 1)
  }

  /** `a => a.id === alertId`, the predicate of `mockAlerts.find`. */
  function AlertIdIs(alertId: int): ClientAlert -> bool
  {
    (a: ClientAlert) => a.id == alertId
  }

  /** `s => s.id === stationId`, the predicate of `mockStations.find`. */
  function StationIdIs(stationId: string): ClientStation -> bool
  {
    (s: ClientStation) => s.id == stationId
  }

  /** The alert `create_alert` builds: id and creation time from the clock, the
   *  station's name and code looked up (missing for an unknown station), status
   *  'active', and no acknowledgement or resolution fields. */
  function NewMockAlert(stations: seq<ClientStation>, stationId: string, alertType: string, severity: string,
                        message: string, now: int): (a: ClientAlert)
    ensures a.id == now && a.createdAt == now && a.status == "active"
    ensures a.stationId == JsStr(stationId)
    ensures a.alertType == alertType && a.severity == severity && a.message == message
    ensures a.stationName.Some? <==> exists j :: 0 <= j < |stations| && stations[j].id == stationId
    ensures a.acknowledgedBy.None? && a.acknowledgedAt.None? && a.resolvedBy.None? && a.resolvedAt.None?
  {
    var station := FindFirst(stations, StationIdIs(stationId));
    ClientAlert(now, JsStr(stationId),
                if station.Some? then Some(stations[station.value].name) else None,
                if station.Some? then Some(stations[station.value].code) else None,
                alertType, severity, message, "active", None, None, None, None, now)
  }

  /** The alert list after `acknowledge_alert`: the first alert with that id is
   *  marked, whatever its status was. */
  function AcknowledgeInStore(alerts: seq<ClientAlert>, alertId: int, actor: Option<string>, now: int)
    : (r: seq<ClientAlert>)
    ensures |r| == |alerts|
  {
    match FindFirst(alerts, AlertIdIs(alertId))
    case None => alerts
    case Some(i) => alerts[i := alerts[i].(status := "acknowledged", acknowledgedBy := actor, acknowledgedAt := Some(now))]
  }

  /** The alert list after `resolve_alert`. */
  function ResolveInStore(alerts: seq<ClientAlert>, alertId: int, actor: Option<string>, now: int)
    : (r: seq<ClientAlert>)
    ensures |r| == |alerts|
  {
    match FindFirst(alerts, AlertIdIs(alertId))
    case None => alerts
    case Some(i) => alerts[i := alerts[i].(status := "resolved", resolvedBy := actor, resolvedAt := Some(now))]
  }

  /** The station list after `update_station_status`. */
  function UpdateStationInStore(stations: seq<ClientStation>, stationId: string, status: string, now: int)
    : (r: seq<ClientStation>)
    ensures |r| == |stations|
  {
    match FindFirst(stations, StationIdIs(stationId))
    case None => stations
    case Some(i) => stations[i := stations[i].(status := status, lastUpdated := now)]
  }

  /** At most one alert per id. */
  predicate DistinctIds(alerts: seq<ClientAlert>)
  {
    forall i, j :: 0 <= i < j < |alerts| ==> alerts[i].id != alerts[j].id
  }

  /** With distinct ids, the mock store and the page's own list agree after an
   *  acknowledgement, except for the time stamp the page does not keep. */
  lemma AcknowledgeAgreesWithApp(alerts: seq<ClientAlert>, alertId: int, actor: Option<string>, now: int)
    requires DistinctIds(alerts)
    ensures var store := AcknowledgeInStore(alerts, alertId, actor, now);
            var page := AppReducers.OnAlertAcknowledged(alerts, alertId, actor);
      forall k :: 0 <= k < |alerts| ==> store[k] == page[k].(acknowledgedAt := store[k].acknowledgedAt)
  {
  }

  /** The same for a resolution. */
  lemma ResolveAgreesWithApp(alerts: seq<ClientAlert>, alertId: int, actor: Option<string>, now: int)
    requires DistinctIds(alerts)
    ensures var store := ResolveInStore(alerts, alertId, actor, now);
            var page := AppReducers.OnAlertResolved(alerts, alertId, actor);
      forall k :: 0 <= k < |alerts| ==> store[k] == page[k].(resolvedAt := store[k].resolvedAt)
  {
  }

  /** An update marks only the first station with that id; an unknown id changes nothing. */
  lemma UpdateStationMeaning(stations: seq<ClientStation>, stationId: string, status: string, now: int)
    ensures var r := UpdateStationInStore(stations, stationId, status, now);
      && (forall j :: 0 <= j < |stations| && stations[j].id != stationId ==> r[j] == stations[j])
      && ((forall j :: 0 <= j < |stations| ==> stations[j].id != stationId) ==> r == stations)
      && forall j :: (0 <= j < |stations| && stations[j].id == stationId
                      && forall i :: 0 <= i < j ==> stations[i].id != stationId) ==>
           r[j] == stations[j].(status := status, lastUpdated := now)
  {
  }

  /** `mockApi.fetchActiveAlerts`. */
  function FetchActiveAlerts(alerts: seq<ClientAlert>): seq<ClientAlert>
  {
    Filter(alerts, IsActiveAlert())
  }

  /** Exactly the active alerts, in the store's order. */
  lemma FetchActiveAlertsMeaning(alerts: seq<ClientAlert>)
    ensures forall a :: a in FetchActiveAlerts(alerts) <==> a in alerts && a.status == "active"
    ensures IsSubsequence(FetchActiveAlerts(alerts), alerts)
  {
    FilterIsSubsequence(alerts, IsActiveAlert());
  }

  /** The page's alert list after the first `new_alert` when, as after the
   *  initial load, the page holds the very array the store unshifts: the alert
   *  is already at its front when the listener prepends it again. The model
   *  keeps the store and the page as separate values, so the sharing is
   *  written into this definition (the `[a] + store` argument) rather than
   *  derived from a shared array. */
  function SharedListAfterCreate(store: seq<ClientAlert>, a: ClientAlert): seq<ClientAlert>
  {
    AppReducers.OnNewAlert([a] + store, a)
  }

  /** So the new alert is shown twice. */
  lemma AsWrittenNewAlertShownTwice(store: seq<ClientAlert>, a: ClientAlert)
    ensures SharedListAfterCreate(store, a) == [a, a] + store
    ensures multiset(SharedListAfterCreate(store, a))[a] == multiset(store)[a] + 2
  {
    assert [a] + ([a] + store) == [a, a] + store;
  }

  /** With a list of its own, the page's list after `new_alert` is the store's
   *  after the unshift: the new alert is shown once. */
  lemma OwnListAgreesWithStore(store: seq<ClientAlert>, a: ClientAlert)
    ensures AppReducers.OnNewAlert(store, a) == [a] + store
    ensures multiset(AppReducers.OnNewAlert(store, a))[a] == multiset(store)[a] + 1
  {
  }

  /** `mockStations` and `mockAlerts`. */
  class MockStore {
    var stations: seq<ClientStation>
    var alerts: seq<ClientAlert>

    constructor (stations0: seq<ClientStation>, alerts0: seq<ClientAlert>)
      ensures stations == stations0 && alerts == alerts0
    {
      stations := stations0;
      alerts := alerts0;
    }
  }

  /** The `MockSocket` object. */
  class Socket {
    var listeners: map<string, seq<Callback>>
    var connected: bool
    /** Every callback call `trigger` has made, in order. */
    var calls: seq<(Callback, Payload)>

    constructor ()
      ensures listeners == map[] && connected && calls == []
    {
      listeners := map[];
      connected := true;
      calls := [];
    }

    /** `on(event, callback)`: appended to that event's list, created if missing. */
    method On(event: string, callback: Callback)
      modifies this
      ensures listeners == old(listeners)[event := Listeners(old(listeners), event) + [callback]]
      ensures connected == old(connected) && calls == old(calls)
    {
      if event !in listeners {
        listeners := listeners[event := []];
      }
      listeners := listeners[event := listeners[event] + [callback]];
    }

    /** `trigger(event, data)`: every callback of that event, in registration
     *  order; no call at all for an event nobody listens to. */
    method Trigger(event: string, data: Payload)
      modifies this
      ensures calls == old(calls) + Calls(Listeners(old(listeners), event), data)
      ensures listeners == old(listeners) && connected == old(connected)
    {
      if event in listeners {
        var callbacks := listeners[event];
        var i := 0;
        while i < |callbacks|
          invariant 0 <= i <= |callbacks|
          invariant calls == old(calls) + Calls(callbacks[..i], data)
          invariant listeners == old(listeners) && connected == old(connected)
        {
          calls := calls + [(callbacks[i], data)];
          i := i + 1;
          assert Calls(callbacks[..i], data) == Calls(callbacks[..i - 1], data) + [(callbacks[i - 1], data)];
        }
        assert callbacks[..i] == callbacks;
      }
    }

    /** `emit('create_alert', data)`: the new alert goes to the front of the
     *  store, then `alert_created` and `new_alert` are triggered, in that order. */
    method EmitCreateAlert(store: MockStore, stationId: string, alertType: string, severity: string,
                           message: string, now: int)
      modifies this, store
      ensures var a := NewMockAlert(old(store.stations), stationId, alertType, severity, message, now);
        && store.alerts == [a] + old(store.alerts)
        && calls == old(calls) + Calls(Listeners(listeners, "alert_created"), AlertCreatedPayload(true, now))
                               + Calls(Listeners(listeners, "new_alert"), NewAlertPayload(a))
      ensures store.stations == old(store.stations)
      ensures listeners == old(listeners) && connected == old(connected)
    {
      var a := NewMockAlert(store.stations, stationId, alertType, severity, message, now);
      store.alerts := [a] + store.alerts;
      Trigger("alert_created", AlertCreatedPayload(true, a.id));
      Trigger("new_alert", NewAlertPayload(a));
    }

    /** `emit('acknowledge_alert', data)`: the store is updated if the id is
     *  known, and the success events are triggered in any case. */
    method EmitAcknowledgeAlert(store: MockStore, alertId: int, actor: Option<string>, now: int)
      modifies this, store
      ensures store.alerts == AcknowledgeInStore(old(store.alerts), alertId, actor, now)
      ensures calls == old(calls) + Calls(Listeners(listeners, "alert_acknowledged_success"), SuccessPayload(true))
                                  + Calls(Listeners(listeners, "alert_acknowledged"), AcknowledgedPayload(alertId, actor, now))
      ensures store.stations == old(store.stations)
      ensures listeners == old(listeners) && connected == old(connected)
    {
      var i := FindFirst(store.alerts, AlertIdIs(alertId));
      if i.Some? {
        var a := store.alerts[i.value];
        store.alerts := store.alerts[i.value := a.(status := "acknowledged", acknowledgedBy := actor, acknowledgedAt := Some(now))];
      }
      Trigger("alert_acknowledged_success", SuccessPayload(true));
      Trigger("alert_acknowledged", AcknowledgedPayload(alertId, actor, now));
    }

    /** `emit('resolve_alert', data)`. */
    method EmitResolveAlert(store: MockStore, alertId: int, actor: Option<string>, now: int)
      modifies this, store
      ensures store.alerts == ResolveInStore(old(store.alerts), alertId, actor, now)
      ensures calls == old(calls) + Calls(Listeners(listeners, "alert_resolved_success"), SuccessPayload(true))
                                  + Calls(Listeners(listeners, "alert_resolved"), ResolvedPayload(alertId, actor, now))
      ensures store.stations == old(store.stations)
      ensures listeners == old(listeners) && connected == old(connected)
    {
      var i := FindFirst(store.alerts, AlertIdIs(alertId));
      if i.Some? {
        var a := store.alerts[i.value];
        store.alerts := store.alerts[i.value := a.(status := "resolved", resolvedBy := actor, resolvedAt := Some(now))];
      }
      Trigger("alert_resolved_success", SuccessPayload(true));
      Trigger("alert_resolved", ResolvedPayload(alertId, actor, now));
    }

    /** `emit('update_station_status', data)`. */
    method EmitUpdateStationStatus(store: MockStore, stationId: string, status: string, now: int)
      modifies this, store
      ensures store.stations == UpdateStationInStore(old(store.stations), stationId, status, now)
      ensures calls == old(calls) + Calls(Listeners(listeners, "station_status_updated_success"), SuccessPayload(true))
                                  + Calls(Listeners(listeners, "station_status_updated"),
                                          StationUpdatedPayload(stationId, status, now))
      ensures store.alerts == old(store.alerts)
      ensures listeners == old(listeners) && connected == old(connected)
    {
      var i := FindFirst(store.stations, StationIdIs(stationId));
      if i.Some? {
        var s := store.stations[i.value];
        store.stations := store.stations[i.value := s.(status := status, lastUpdated := now)];
      }
      Trigger("station_status_updated_success", SuccessPayload(true));
      Trigger("station_status_updated", StationUpdatedPayload(stationId, status, now));
    }

    /** `disconnect()`. */
    method Disconnect()
      modifies this
      ensures !connected
      ensures listeners == old(listeners) && calls == old(calls)
    {
      connected := false;
    }
  }
}
