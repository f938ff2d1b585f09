/**
 * The records the React client holds in its `stations` and `alerts` lists, as
 * they arrive from the server or from the mock data of
 * `client/src/services/mockData.js`. Timestamps are milliseconds; a property
 * that is `null` or missing is `None`.
 */
module ClientData {
  import opened Common
  import opened JsText

  /** A station as the client lists it. `activeAlerts` is whatever JSON value
   *  the server's COUNT column or the mock data put there. */
  datatype ClientStation = ClientStation(
    id: string, name: string, code: string, description: string,
    status: string, activeAlerts: JsValue, lastUpdated: int)

  /** An alert as the client lists it. `stationId` is a JSON value: the mock
   *  data and the server both send station ids as strings. */
  datatype ClientAlert = ClientAlert(
    id: int, stationId: JsValue, stationName: Option<string>, stationCode: Option<string>,
    alertType: string, severity: string, message: string, status: string,
    acknowledgedBy: Option<string>, acknowledgedAt: Option<int>,
    resolvedBy: Option<string>, resolvedAt: Option<int>, createdAt: int)

  function HasStatus(status: string): ClientStation -> bool
  {
    (s: ClientStation) => s.status == status
  }

  /** `stations.filter(s => s.status === status).length`. */
  function StatusCount(stations: seq<ClientStation>, status: string): (n: nat)
    ensures n <= |stations|
    ensures n == 0 <==> forall s :: s in stations ==> s.status != status
  {
    CountZeroIffNone(stations, HasStatus(status));
    Count(stations, HasStatus(status))
  }

  /** `alerts.filter(a => a.status === 'active')`. */
  function IsActiveAlert(): ClientAlert -> bool
  {
    (a: ClientAlert) => a.status == "active"
  }
}
