/**
 * `server/hardware/plc-connector.js`: the PLC variant of the tower link. It
 * keeps a set of connected stations and one `isConnected` flag for the whole
 * connector; commands written to a PLC are the `written` outbox, emitted
 * events the `events` outbox.
 */
module PlcConnector {

  /** The fixed reading `parsePLCData` returns. */
  datatype LightReading = LightReading(green: bool, yellow: bool, red: bool)
  datatype ButtonReading = ButtonReading(alert: bool, reset: bool, maintenance: bool)
  datatype PlcReading = PlcReading(status: string, lightStatus: LightReading, buttonPressed: ButtonReading)

  const FixedReading: PlcReading :=
    PlcReading("running", LightReading(true, false, false), ButtonReading(false, false, false))

  /** `parsePLCData`: a placeholder that ignores the bytes it is given. */
  function ParsePlcData(data: seq<bv8>): (r: PlcReading)
    ensures r.status == "running"
    ensures r.lightStatus == LightReading(true, false, false)
    ensures r.buttonPressed == ButtonReading(false, false, false)
  {
    FixedReading
  }

  /** Whatever the input, the reading is the same. */
  lemma ParsePlcDataConstant(a: seq<bv8>, b: seq<bv8>)
    ensures ParsePlcData(a) == ParsePlcData(b)
  {
  }

  const LightTypes: seq<string> := ["green", "yellow", "red"]

  /** `buildLightCommand`: the three light types map to `X_ON` / `X_OFF`,
   *  anything else to ''. */
  function BuildLightCommand(lightType: string, state: bool): (command: string)
    ensures command == "" <==> lightType !in LightTypes
  {
    if lightType == "green" then (if state then "GREEN_ON" else "GREEN_OFF")
    else if lightType == "yellow" then (if state then "YELLOW_ON" else "YELLOW_OFF")
    else if lightType == "red" then (if state then "RED_ON" else "RED_OFF")
    else ""
  }

  /** The command names the light in upper case and ends in `_ON` exactly when
   *  the state is on. */
  lemma BuildLightCommandShape(lightType: string, state: bool)
    requires lightType in LightTypes
    ensures var c := BuildLightCommand(lightType, state);
      var upper := if lightType == "green" then "GREEN" else if lightType == "yellow" then "YELLOW" else "RED";
      c == upper + (if state then "_ON" else "_OFF")
  {
  }

  /** Different requests give different commands. */
  lemma BuildLightCommandInjective(t1: string, s1: bool, t2: string, s2: bool)
    requires t1 in LightTypes && t2 in LightTypes
    requires BuildLightCommand(t1, s1) == BuildLightCommand(t2, s2)
    ensures t1 == t2 && s1 == s2
  {
    var c1, c2 := BuildLightCommand(t1, s1), BuildLightCommand(t2, s2);
    assert c1[0] == c2[0] && |c1| == |c2|;
    assert c1[|c1| - 1] == c2[|c2| - 1];
  }

  datatype PlcEvent =
    | PlcError(stationId: string)
    | PlcStatusChange(stationId: string, reading: PlcReading, timestamp: int)

  class Connector {
    var connections: set<string>
    var isConnected: bool
    var written: seq<(string, string)>
    var events: seq<PlcEvent>

    constructor ()
      ensures connections == {} && !isConnected && written == [] && events == []
    {
      connections := {};
      isConnected := false;
      written := [];
      events := [];
    }

    /** `connectToPLC`: `reachable` is whether the TCP connection was made. */
    method ConnectToPlc(stationId: string, reachable: bool)
      modifies this
      ensures reachable ==> connections == old(connections) + {stationId} && isConnected && events == old(events)
      ensures !reachable ==> connections == old(connections) && isConnected == old(isConnected)
                             && events == old(events) + [PlcError(stationId)]
      ensures written == old(written)
    {
      if reachable {
        connections := connections + {stationId};
        isConnected := true;
      } else {
        events := events + [PlcError(stationId)];
      }
    }

    /** The socket's 'close' handler: drops that connection and clears the
     *  connector-wide flag, whatever other connections remain. */
    method ConnectionClosed(stationId: string)
      modifies this
      ensures connections == old(connections) - {stationId} && !isConnected
      ensures written == old(written) && events == old(events)
    {
      connections := connections - {stationId};
      isConnected := false;
    }

    /** `handlePLCData`: emits the fixed reading for that station. */
    method HandlePlcData(stationId: string, data: seq<bv8>, now: int)
      modifies this
      ensures events == old(events) + [PlcStatusChange(stationId, FixedReading, now)]
      ensures connections == old(connections) && isConnected == old(isConnected) && written == old(written)
    {
      events := events + [PlcStatusChange(stationId, ParsePlcData(data), now)];
    }

    /** `controlLight`: throws (`ok` false) without writing when the station
     *  has no connection; otherwise writes the built command, even ''. */
    method ControlLight(stationId: string, lightType: string, state: bool) returns (ok: bool)
      modifies this
      ensures ok <==> stationId in connections
      ensures written == old(written) + (if ok then [(stationId, BuildLightCommand(lightType, state))] else [])
      ensures connections == old(connections) && isConnected == old(isConnected) && events == old(events)
    {
      if stationId !in connections {
        return false;
      }
      written := written + [(stationId, BuildLightCommand(lightType, state))];
      ok := true;
    }

    /** `readButtonStatus`: throws without writing when there is no
     *  connection; otherwise writes `READ_BUTTONS`. */
    method ReadButtonStatus(stationId: string) returns (ok: bool)
      modifies this
      ensures ok <==> stationId in connections
      ensures written == old(written) + (if ok then [(stationId, "READ_BUTTONS")] else [])
      ensures connections == old(connections) && isConnected == old(isConnected) && events == old(events)
    {
      if stationId !in connections {
        return false;
      }
      written := written + [(stationId, "READ_BUTTONS")];
      ok := true;
    }

    /** `disconnect`: removes that station's connection only (a no-op when it
     *  has none) and leaves `isConnected` as it was. */
    method Disconnect(stationId: string)
      modifies this
      ensures connections == old(connections) - {stationId}
      ensures isConnected == old(isConnected) && written == old(written) && events == old(events)
    {
      if stationId in connections {
        connections := connections - {stationId};
      }
    }

    /** `disconnectAll`: no connection is left and the flag is cleared. */
    method DisconnectAll()
      modifies this
      ensures connections == {} && !isConnected
      ensures written == old(written) && events == old(events)
    {
      connections := {};
      isConnected := false;
    }
  }
}
