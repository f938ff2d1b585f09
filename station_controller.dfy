/**
 * `server/hardware/station-controller.js`: the TCP controller of the light
 * towers. It keeps the registered stations, the set of stations with an open
 * connection and one status record per station; it parses the
 * `STATUS:x|BUTTON:y` messages a tower sends and writes `SET_LIGHT:` and
 * `RESET_BUTTON` commands to it. Socket traffic is the `written` outbox; the
 * EventEmitter's events are the `events` outbox.
 */
module StationController {
  import opened Common
  import opened JsText

  /** A property of a JavaScript object: missing, present with `undefined`,
   *  `null`, or a value. Spreading copies every present property. */
  datatype Field<T> = Absent | Undef | Null | Val(v: T)

  /** A status record `{ lightStatus, buttonPressed, lastButtonPress, lastUpdate }`. */
  datatype StatusRecord = StatusRecord(
    lightStatus: Field<string>, buttonPressed: Field<string>, lastButtonPress: Field<int>, lastUpdate: Field<int>)

  const EmptyRecord: StatusRecord := StatusRecord(Absent, Absent, Absent, Absent)

  function Pick<T>(earlier: Field<T>, later: Field<T>): Field<T>
  {
    if later.Absent? then earlier else later
  }

  /** `{ ...earlier, ...later }`. */
  function Merge(earlier: StatusRecord, later: StatusRecord): (r: StatusRecord)
  {
    StatusRecord(Pick(earlier.lightStatus, later.lightStatus), Pick(earlier.buttonPressed, later.buttonPressed),
                 Pick(earlier.lastButtonPress, later.lastButtonPress), Pick(earlier.lastUpdate, later.lastUpdate))
  }

  /** Spreading keeps the earlier properties the later record lacks and takes
   *  every property it has; spreading the same record twice changes nothing,
   *  and spreading an empty object is the identity. */
  lemma MergeMeaning(earlier: StatusRecord, later: StatusRecord)
    ensures var r := Merge(earlier, later);
      && (later.lightStatus.Absent? ==> r.lightStatus == earlier.lightStatus)
      && (!later.lightStatus.Absent? ==> r.lightStatus == later.lightStatus)
      && (later.buttonPressed.Absent? ==> r.buttonPressed == earlier.buttonPressed)
      && (!later.buttonPressed.Absent? ==> r.buttonPressed == later.buttonPressed)
      && (later.lastButtonPress.Absent? ==> r.lastButtonPress == earlier.lastButtonPress)
      && (!later.lastButtonPress.Absent? ==> r.lastButtonPress == later.lastButtonPress)
      && (later.lastUpdate.Absent? ==> r.lastUpdate == earlier.lastUpdate)
      && (!later.lastUpdate.Absent? ==> r.lastUpdate == later.lastUpdate)
    ensures Merge(Merge(earlier, later), later) == Merge(earlier, later)
    ensures Merge(earlier, EmptyRecord) == earlier && Merge(EmptyRecord, later) == later
  {
  }

  // ------------------------------------------------------------ message parser

  /** `part.split(':')[0]`. */
  function Key(part: string): string
  {
    Split(part, ':')[0]
  }

  /** `part.split(':')[1]`, `undefined` when there is no colon. */
  function ValueOf(part: string): Field<string>
  {
    var pieces := Split(part, ':');
    if |pieces| >= 2 then Val(pieces[1]) else Undef
  }

  /** One iteration of the `forEach` over the parts. */
  function ParsePart(r: StatusRecord, part: string, now: int): StatusRecord
  {
    if Key(part) == "STATUS" then r.(lightStatus := ValueOf(part))
    else if Key(part) == "BUTTON" then r.(buttonPressed := ValueOf(part), lastButtonPress := Val(now))
    else r
  }

  /** The record after the parts, processed left to right from `{}`. */
  function ParseParts(parts: seq<string>, now: int): StatusRecord
  {
    if parts == [] then EmptyRecord else ParsePart(ParseParts(parts[..|parts| - 1], now), parts[|parts| - 1], now)
  }

  /** `parseStationMessage`: the `|`-separated parts, each applied in turn. */
  method ParseStationMessage(message: string, now: int) returns (r: StatusRecord)
    ensures r == ParseParts(Split(message, '|'), now)
    ensures r.lastUpdate == Absent
  {
    var parts := Split(message, '|');
    r := EmptyRecord;
    for i := 0 to |parts|
      invariant r == ParseParts(parts[..i], now)
      invariant r.lastUpdate == Absent
    {
      assert parts[..i + 1][..i] == parts[..i];
      r := ParsePart(r, parts[i], now);
    }
    assert parts[..|parts|] == parts;
  }

  /** STATUS sets `lightStatus` to the value of the last STATUS part. */
  lemma {:induction false} ParsedLightStatus(parts: seq<string>, now: int)
    ensures forall k :: 0 <= k < |parts| && Key(parts[k]) == "STATUS"
                        && (forall j :: k < j < |parts| ==> Key(parts[j]) != "STATUS")
                        ==> ParseParts(parts, now).lightStatus == ValueOf(parts[k])
  {
    if parts != [] {
      var prefix := parts[..|parts| - 1];
      var last := parts[|parts| - 1];
      ParsedLightStatus(prefix, now);
      var before := ParseParts(prefix, now);
      var after := ParseParts(parts, now);
      if Key(last) == "STATUS" {
        assert after.lightStatus == ValueOf(last);
      } else {
        assert after.lightStatus == before.lightStatus;
        forall k | 0 <= k < |parts| && Key(parts[k]) == "STATUS" && (forall j :: k < j < |parts| ==> Key(parts[j]) != "STATUS")
          ensures after.lightStatus == ValueOf(parts[k])
        {
          assert k < |prefix| && prefix[k] == parts[k];
          forall j | k < j < |prefix| ensures Key(prefix[j]) != "STATUS" {
            assert prefix[j] == parts[j];
          }
        }
      }
    }
  }

  /** Without a STATUS part `lightStatus` stays missing. */
  lemma {:induction false} ParsedNoStatus(parts: seq<string>, now: int)
    requires forall k :: 0 <= k < |parts| ==> Key(parts[k]) != "STATUS"
    ensures ParseParts(parts, now).lightStatus == Absent
  {
    if parts != [] {
      var prefix := parts[..|parts| - 1];
      assert forall k :: 0 <= k < |prefix| ==> prefix[k] == parts[k];
      ParsedNoStatus(prefix, now);
    }
  }

  /** BUTTON sets `buttonPressed` to the value of the last BUTTON part and
   *  nothing else does. */
  lemma {:induction false} ParsedButton(parts: seq<string>, now: int)
    ensures forall k :: 0 <= k < |parts| && Key(parts[k]) == "BUTTON"
                        && (forall j :: k < j < |parts| ==> Key(parts[j]) != "BUTTON")
                        ==> ParseParts(parts, now).buttonPressed == ValueOf(parts[k])
  {
    if parts != [] {
      var prefix := parts[..|parts| - 1];
      var last := parts[|parts| - 1];
      ParsedButton(prefix, now);
      assert "BUTTON"[0] != "STATUS"[0];
      var before := ParseParts(prefix, now);
      var after := ParseParts(parts, now);
      if Key(last) == "BUTTON" {
        assert after.buttonPressed == ValueOf(last);
      } else {
        assert after.buttonPressed == before.buttonPressed;
        forall k | 0 <= k < |parts| && Key(parts[k]) == "BUTTON" && (forall j :: k < j < |parts| ==> Key(parts[j]) != "BUTTON")
          ensures after.buttonPressed == ValueOf(parts[k])
        {
          assert k < |prefix| && prefix[k] == parts[k];
          forall j | k < j < |prefix| ensures Key(prefix[j]) != "BUTTON" {
            assert prefix[j] == parts[j];
          }
        }
      }
    }
  }

  /** Without a BUTTON part `buttonPressed` stays missing. */
  lemma {:induction false} ParsedNoButton(parts: seq<string>, now: int)
    requires forall k :: 0 <= k < |parts| ==> Key(parts[k]) != "BUTTON"
    ensures ParseParts(parts, now).buttonPressed == Absent
  {
    if parts != [] {
      var prefix := parts[..|parts| - 1];
      assert forall k :: 0 <= k < |prefix| ==> prefix[k] == parts[k];
      ParsedNoButton(prefix, now);
    }
  }

  /** `lastButtonPress` is stamped exactly when some part is a BUTTON part. */
  lemma {:induction false} ParsedButtonStamp(parts: seq<string>, now: int)
    ensures (forall k :: 0 <= k < |parts| ==> Key(parts[k]) != "BUTTON") ==> ParseParts(parts, now).lastButtonPress == Absent
    ensures (exists k :: 0 <= k < |parts| && Key(parts[k]) == "BUTTON") ==> ParseParts(parts, now).lastButtonPress == Val(now)
  {
    if parts != [] {
      var prefix := parts[..|parts| - 1];
      var last := parts[|parts| - 1];
      ParsedButtonStamp(prefix, now);
      var before := ParseParts(prefix, now);
      var after := ParseParts(parts, now);
      if Key(last) == "BUTTON" {
        assert "BUTTON"[0] != "STATUS"[0];
        assert after.lastButtonPress == Val(now);
      } else {
        assert after.lastButtonPress == before.lastButtonPress;
        if exists k :: 0 <= k < |parts| && Key(parts[k]) == "BUTTON" {
          var k :| 0 <= k < |parts| && Key(parts[k]) == "BUTTON";
          assert k < |prefix| && prefix[k] == parts[k];
        } else {
          forall k | 0 <= k < |prefix| ensures Key(prefix[k]) != "BUTTON" {
            assert prefix[k] == parts[k];
          }
        }
      }
    }
  }

  /** A `key:value` part reads back as that key and value. */
  lemma PartRoundTrip(key: string, value: string)
    requires ':' !in key && ':' !in value
    ensures Key(key + ":" + value) == key && ValueOf(key + ":" + value) == Val(value)
  {
    assert Join([key, value], ':') == key + ":" + value;
    SplitJoin([key, value], ':');
  }

  lemma NoBarInPart(key: string, value: string)
    requires '|' !in key && '|' !in value
    ensures '|' !in key + ":" + value
  {
    var part := key + ":" + value;
    forall i | 0 <= i < |part| ensures part[i] != '|' {
      if i < |key| {
        assert part[i] == key[i];
      } else if i > |key| {
        assert part[i] == value[i - |key| - 1];
      }
    }
  }

  /** A well-formed tower message parses back to the colour and button it carries. */
  lemma MessageRoundTrip(color: string, button: string, now: int)
    requires '|' !in color && ':' !in color && '|' !in button && ':' !in button
    ensures ParseParts(Split("STATUS:" + color + "|BUTTON:" + button, '|'), now)
            == StatusRecord(Val(color), Val(button), Val(now), Absent)
  {
    var statusPart, buttonPart := "STATUS" + ":" + color, "BUTTON" + ":" + button;
    PartRoundTrip("STATUS", color);
    PartRoundTrip("BUTTON", button);
    NoBarInPart("STATUS", color);
    NoBarInPart("BUTTON", button);
    var parts := [statusPart, buttonPart];
    assert Join(parts, '|') == "STATUS:" + color + "|BUTTON:" + button;
    SplitJoin(parts, '|');
    assert parts[..1] == [statusPart];
    assert [statusPart][..0] == [];
    var first := ParseParts([statusPart], now);
    assert first == ParsePart(ParseParts([], now), statusPart, now);
    assert ParseParts(parts, now) == ParsePart(first, buttonPart, now);
  }

  // --------------------------------------------------------------- controller

  /** A registered station. */
  datatype ControllerStation = ControllerStation(
    id: string, name: string, location: string, ip: string, port: int, status: Field<string>, lastUpdate: int)

  /** What `getAllStationsStatus` reports for one station. */
  datatype StationView = StationView(
    id: string, name: string, location: string, ip: string, port: int, status: Field<string>,
    lastUpdate: Field<int>, lightStatus: Field<string>, buttonPressed: Field<string>, lastButtonPress: Field<int>)

  /** `{ ...station, ...record }`: `lastUpdate` is the only shared property. */
  function View(s: ControllerStation, rec: StatusRecord): (v: StationView)
    ensures v.lastUpdate == (if rec.lastUpdate.Absent? then Val(s.lastUpdate) else rec.lastUpdate)
    ensures v.lightStatus == rec.lightStatus && v.buttonPressed == rec.buttonPressed
    ensures v.lastButtonPress == rec.lastButtonPress
    ensures (v.id, v.name, v.location, v.ip, v.port, v.status) == (s.id, s.name, s.location, s.ip, s.port, s.status)
  {
    StationView(s.id, s.name, s.location, s.ip, s.port, s.status, Pick(Val(s.lastUpdate), rec.lastUpdate),
                rec.lightStatus, rec.buttonPressed, rec.lastButtonPress)
  }

  /** An event the controller emits. */
  datatype ControllerEvent =
    | StationStatusChange(stationId: string, stationName: string, status: Field<string>,
                          buttonPressed: Field<string>, lastButtonPress: Field<int>, timestamp: int)
    | StationError(stationId: string)

  datatype CommandOutcome = NoConnection | InvalidColor | Sent

  const LightColors: seq<string> := ["green", "yellow", "red"]

  /** `config.port || 8080`: a missing or zero port gives the default. */
  function PortOrDefault(port: Option<int>): (p: int)
    ensures port.Some? && port.value != 0 ==> p == port.value
    ensures port.None? || port.value == 0 ==> p == 8080
  {
    if port.Some? && port.value != 0 then port.value else 8080
  }

  /** The record `updateStationStatus` stores: the current one (or `{}`),
   *  then the update, then a fresh `lastUpdate`. */
  function UpdatedRecord(current: map<string, StatusRecord>, stationId: string, data: StatusRecord, now: int): StatusRecord
  {
    Merge(Merge(if stationId in current then current[stationId] else EmptyRecord, data),
          StatusRecord(Absent, Absent, Absent, Val(now)))
  }

  /** An update that names no field (the close handler's 'disconnected')
   *  keeps the stored light and button fields and only restamps the record. */
  lemma EmptyUpdateOnlyStamps(current: map<string, StatusRecord>, stationId: string, now: int)
    ensures UpdatedRecord(current, stationId, EmptyRecord, now)
            == (if stationId in current then current[stationId] else EmptyRecord).(lastUpdate := Val(now))
  {
    MergeMeaning(if stationId in current then current[stationId] else EmptyRecord, EmptyRecord);
  }

  class Controller {
    var stations: map<string, ControllerStation>
    var connections: set<string>
    var stationStatus: map<string, StatusRecord>
    var written: seq<(string, string)>
    var events: seq<ControllerEvent>

    /** Only registered stations are connected, and each has a status record. */
    ghost predicate Valid()
      reads this
    {
      connections <= stations.Keys && stations.Keys <= stationStatus.Keys
    }

    constructor ()
      ensures stations == map[] && connections == {} && stationStatus == map[]
      ensures written == [] && events == [] && Valid()
    {
      stations := map[];
      connections := {};
      stationStatus := map[];
      written := [];
      events := [];
    }

    /** `addStation`: (re)registers the station 'green' with the port defaulted
     *  and a fresh record without button press. */
    method AddStation(stationId: string, name: string, location: string, ip: string, port: Option<int>, now: int)
      returns (s: ControllerStation)
      requires Valid()
      modifies this
      ensures Valid()
      ensures s == ControllerStation(stationId, name, location, ip, PortOrDefault(port), Val("green"), now)
      ensures stations == old(stations)[stationId := s]
      ensures stationStatus == old(stationStatus)[stationId := StatusRecord(Val("green"), Null, Null, Absent)]
      ensures connections == old(connections) && written == old(written) && events == old(events)
    {
      s := ControllerStation(stationId, name, location, ip, PortOrDefault(port), Val("green"), now);
      stations := stations[stationId := s];
      stationStatus := stationStatus[stationId := StatusRecord(Val("green"), Null, Null, Absent)];
    }

    /** `connectToStation`: an unknown station throws before any socket is
     *  made; `reachable` is whether the TCP connection was established. */
    method ConnectToStation(stationId: string, reachable: bool) returns (connected: bool)
      requires Valid()
      modifies this
      ensures Valid()
      ensures connected <==> stationId in stations && reachable
      ensures connections == (if connected then old(connections) + {stationId} else old(connections))
      ensures events == old(events) + (if stationId in stations && !reachable then [StationError(stationId)] else [])
      ensures stations == old(stations) && stationStatus == old(stationStatus) && written == old(written)
    {
      if stationId !in stations {
        return false;
      }
      if reachable {
        connections := connections + {stationId};
        connected := true;
      } else {
        events := events + [StationError(stationId)];
        connected := false;
      }
    }

    /** The socket's 'close' handler drops the connection, then updates the
     *  station with the string 'disconnected', whose spread sets none of the
     *  record's named fields: the record and the station are stamped `now`
     *  and one event repeats the current light and button fields. */
    method ConnectionClosed(stationId: string, now: int)
      requires Valid()
      modifies this
      ensures Valid()
      ensures connections == old(connections) - {stationId}
      ensures stationStatus == old(stationStatus)[stationId := UpdatedRecord(old(stationStatus), stationId, EmptyRecord, now)]
      ensures var rec := UpdatedRecord(old(stationStatus), stationId, EmptyRecord, now);
        if stationId in old(stations) then
          && stations == old(stations)[stationId := old(stations)[stationId].(status := rec.lightStatus, lastUpdate := now)]
          && events == old(events) + [StationStatusChange(stationId, old(stations)[stationId].name, rec.lightStatus,
                                                          rec.buttonPressed, rec.lastButtonPress, now)]
        else stations == old(stations) && events == old(events)
      ensures written == old(written)
    {
      connections := connections - {stationId};
      var _ := UpdateStationStatus(stationId, EmptyRecord, now);
    }

    /** `updateStationStatus`: the record is merged and stored; on a registered
     *  station its status becomes the merged `lightStatus` and an event is
     *  emitted; on an unknown one the record is still stored but the access to
     *  the missing station throws (`ok` is false). */
    method UpdateStationStatus(stationId: string, data: StatusRecord, now: int) returns (ok: bool)
      requires Valid()
      modifies this
      ensures Valid()
      ensures ok <==> stationId in old(stations)
      ensures stationStatus == old(stationStatus)[stationId := UpdatedRecord(old(stationStatus), stationId, data, now)]
      ensures var rec := UpdatedRecord(old(stationStatus), stationId, data, now);
        if ok then
          && stations == old(stations)[stationId := old(stations)[stationId].(status := rec.lightStatus, lastUpdate := now)]
          && events == old(events) + [StationStatusChange(stationId, old(stations)[stationId].name, rec.lightStatus,
                                                          rec.buttonPressed, rec.lastButtonPress, now)]
        else stations == old(stations) && events == old(events)
      ensures connections == old(connections) && written == old(written)
    {
      var rec := UpdatedRecord(stationStatus, stationId, data, now);
      stationStatus := stationStatus[stationId := rec];
      if stationId !in stations {
        return false;
      }
      var station := stations[stationId];
      stations := stations[stationId := station.(status := rec.lightStatus, lastUpdate := now)];
      events := events + [StationStatusChange(stationId, station.name, rec.lightStatus, rec.buttonPressed,
                                              rec.lastButtonPress, now)];
      ok := true;
    }

    /** `handleStationData`: the trimmed text is parsed and always applied
     *  (the parsed object is never falsy); a throw is caught. */
    method HandleStationData(stationId: string, data: string, now: int)
      requires Valid()
      modifies this
      ensures Valid()
      ensures var parsed := ParseParts(Split(Trim(data), '|'), now);
        && stationStatus == old(stationStatus)[stationId := UpdatedRecord(old(stationStatus), stationId, parsed, now)]
        && (stationId in old(stations) ==>
              var rec := UpdatedRecord(old(stationStatus), stationId, parsed, now);
              && stations == old(stations)[stationId := old(stations)[stationId].(status := rec.lightStatus, lastUpdate := now)]
              && events == old(events) + [StationStatusChange(stationId, old(stations)[stationId].name, rec.lightStatus,
                                                              rec.buttonPressed, rec.lastButtonPress, now)])
        && (stationId !in old(stations) ==> stations == old(stations) && events == old(events))
      ensures connections == old(connections) && written == old(written)
    {
      var parsed := ParseStationMessage(Trim(data), now);
      var _ := UpdateStationStatus(stationId, parsed, now);
    }

    /** `controlLight`: the connection is checked first, then the colour; on
     *  success `SET_LIGHT:<color>` is written and `lightStatus` becomes the colour. */
    method ControlLight(stationId: string, color: string, now: int) returns (r: CommandOutcome)
      requires Valid()
      modifies this
      ensures Valid()
      ensures stationId !in old(connections) ==> r == NoConnection
      ensures stationId in old(connections) && color !in LightColors ==> r == InvalidColor
      ensures r == Sent <==> stationId in old(connections) && color in LightColors
      ensures r != Sent ==>
        && stations == old(stations) && stationStatus == old(stationStatus)
        && written == old(written) && events == old(events)
      ensures r == Sent ==>
        && written == old(written) + [(stationId, "SET_LIGHT:" + color + "\n")]
        && stationStatus == old(stationStatus)[stationId :=
             UpdatedRecord(old(stationStatus), stationId, StatusRecord(Val(color), Absent, Absent, Absent), now)]
        && stationStatus[stationId].lightStatus == Val(color)
        && stations == old(stations)[stationId := old(stations)[stationId].(status := Val(color), lastUpdate := now)]
        && var rec := stationStatus[stationId];
           events == old(events) + [StationStatusChange(stationId, old(stations)[stationId].name, Val(color),
                                                        rec.buttonPressed, rec.lastButtonPress, now)]
      ensures connections == old(connections)
    {
      if stationId !in connections {
        return NoConnection;
      }
      if color !in LightColors {
        return InvalidColor;
      }
      written := written + [(stationId, "SET_LIGHT:" + color + "\n")];
      var _ := UpdateStationStatus(stationId, StatusRecord(Val(color), Absent, Absent, Absent), now);
      r := Sent;
    }

    /** `resetButton`: requires a connection, writes `RESET_BUTTON`, and sets
     *  both button fields to `null` while keeping `lightStatus`. */
    method ResetButton(stationId: string, now: int) returns (r: CommandOutcome)
      requires Valid()
      modifies this
      ensures Valid()
      ensures r != InvalidColor
      ensures r == Sent <==> stationId in old(connections)
      ensures r != Sent ==>
        && stations == old(stations) && stationStatus == old(stationStatus)
        && written == old(written) && events == old(events)
      ensures r == Sent ==>
        && written == old(written) + [(stationId, "RESET_BUTTON\n")]
        && stationStatus == old(stationStatus)[stationId :=
             UpdatedRecord(old(stationStatus), stationId, StatusRecord(Absent, Null, Null, Absent), now)]
        && stationStatus[stationId].buttonPressed == Null && stationStatus[stationId].lastButtonPress == Null
        && stationStatus[stationId].lightStatus == old(stationStatus)[stationId].lightStatus
        && var rec := stationStatus[stationId];
           && stations == old(stations)[stationId := old(stations)[stationId].(status := rec.lightStatus, lastUpdate := now)]
           && events == old(events) + [StationStatusChange(stationId, old(stations)[stationId].name, rec.lightStatus,
                                                           Null, Null, now)]
      ensures connections == old(connections)
    {
      if stationId !in connections {
        return NoConnection;
      }
      written := written + [(stationId, "RESET_BUTTON\n")];
      var _ := UpdateStationStatus(stationId, StatusRecord(Absent, Null, Null, Absent), now);
      r := Sent;
    }

    /** `getStationStatus`. */
    function GetStationStatus(stationId: string): (r: Option<StatusRecord>)
      reads this
      ensures r.Some? <==> stationId in stationStatus
      ensures r.Some? ==> r.value == stationStatus[stationId]
    {
      if stationId in stationStatus then Some(stationStatus[stationId]) else None
    }

    /** `getAllStationsStatus`: one entry per registered station, the station
     *  spread with its record. */
    method GetAllStationsStatus() returns (status: map<string, StationView>)
      ensures status.Keys == stations.Keys
      ensures forall id :: id in status ==>
        status[id] == View(stations[id], if id in stationStatus then stationStatus[id] else EmptyRecord)
    {
      status := map[];
      var pending := stations.Keys;
      while pending != {}
        invariant pending <= stations.Keys
        invariant status.Keys == stations.Keys - pending
        invariant forall id :: id in status ==>
          status[id] == View(stations[id], if id in stationStatus then stationStatus[id] else EmptyRecord)
        decreases pending
      {
        var id :| id in pending;
        status := status[id := View(stations[id], if id in stationStatus then stationStatus[id] else EmptyRecord)];
        pending := pending - {id};
      }
    }

    /** `disconnectStation`: drops that connection only; no-op when there is none. */
    method DisconnectStation(stationId: string)
      requires Valid()
      modifies this
      ensures Valid()
      ensures connections == old(connections) - {stationId}
      ensures stations == old(stations) && stationStatus == old(stationStatus)
      ensures written == old(written) && events == old(events)
    {
      if stationId in connections {
        connections := connections - {stationId};
      }
    }

    /** `disconnectAll`. */
    method DisconnectAll()
      requires Valid()
      modifies this
      ensures Valid()
      ensures connections == {}
      ensures stations == old(stations) && stationStatus == old(stationStatus)
      ensures written == old(written) && events == old(events)
    {
      connections := {};
    }

    /** `isStationConnected`. */
    function IsStationConnected(stationId: string): (b: bool)
      reads this
      ensures b <==> stationId in connections
    {
      stationId in connections
    }
  }
}
