# Andon board — a Dafny model

This project models the core of an Andon board for a production line. Each
station on the line is in one of four statuses: `normal`, `warning`, `error`
or `maintenance`.

The server side keeps a `stations` table and an append-only `logs` table of
status transitions. It answers the HTTP routes for stations, alerts and
statistics, and handles the Socket.IO `update_station_status` event. It posts a
human-readable notice to a chat webhook, and it drives the light towers through
two hardware links: a TCP station controller and a PLC connector.

The client side is a React application. Its logic modelled here:
- the dashboard's counts and zone groups;
- the statistics page's per-day status timeline and zone ordering;
- the alerts page's filters;
- the reducers `App.js` applies to socket events;
- the mock socket the demo runs on;
- the create-alert dialog.

How the model is built:
- **Classes for stateful objects.** Objects whose fields the source updates in
  place are classes: the store's tables, the Socket.IO channels, the webhook
  outbox, the station controller, the PLC connector, the mock socket and the
  mock store. Their handlers are methods with `modifies` clauses and contracts
  that state the whole new state.
- **Functions for pure code.** Pure code (the filters, reducers, parsers and
  orderings) is written as functions, with lemmas about them.
- **Loops stay loops.** Where the source loops, the model is a method with a
  loop against a specification function:
  - the reset sweep;
  - the trend grouping;
  - the totals `reduce`;
  - the message parser;
  - the mock socket's `trigger`;
  - the timeline's `forEach`.
- **Helper modules.** `Common`, `JsText` and `Sorting` model the JavaScript
  building blocks the source relies on:
  - filtering and counting;
  - `split`, `trim`, `includes`, and `parseInt` both with radix 10 and with
    no radix, where a `0x` prefix reads hexadecimal (`None` is `NaN`);
  - a stable insertion sort standing in for `Array.prototype.sort` and for
    SQL `ORDER BY`.

Conventions:
- A missing, `null` or `''` request field is the empty string (all are falsy
  in JavaScript). Optional values are `Option`.
- Times are integers in milliseconds. A day is `time / 86400000`, with no time
  zone.
- The clock reading (`now`) is a parameter.
- Networks are modelled by reachability flags. Message sending is an outbox
  sequence.

Behaviour of the code worth knowing:
- POST `/reset-all` answers `{ success: true }`, with no reset count.
- Reset-all broadcasts nothing to the dashboards. It only posts to the webhook.
- The summary row it writes is `clear_all` with null station and statuses.
- The socket-side reset writes one `reset_all` row per station and no summary
  row.
- PUT `/:id/status` answers `{ stationId, status }` and does not return the
  old status.
- The source of every log row is the fixed string `server`.

## Model

| member | source | states |
|---|---|---|
| Store.WithStatus | server/routes/stations.js:75-78 | The UPDATE by id changes only that station: the new status and a fresh timestamp there, every other station and the key set unchanged |
| Store.WithStatusKeepsValid | server/routes/stations.js:61-78 | Writing one of the four statuses keeps every station's status among the four |
| Store.ResetRows | server/routes/stations.js:163-169 | The rows a reset loop writes: one per snapshot row, in order, each from that station's prior status to 'normal' |
| Store.Normalized | server/socket/socketHandlers.js:122-132 | The reset's end state keeps every station id |
| Store.NormalizedAllNormal | server/socket/socketHandlers.js:122-132 | After a reset every station is 'normal' and no non-normal station remains |
| Store.NormalizedIdempotent | server/routes/stations.js:160-169 | A second reset, at any later time, changes no station |
| Store.NormalizedChangesExactlyNonNormal | server/routes/stations.js:162-164 | A reset changes a station exactly when it was not 'normal' |
| Store.PartialReset | server/routes/stations.js:163-169 | The state of the reset loop after some of the snapshot: the processed stations normal and stamped, the key set unchanged |
| Store.PartialResetStep | server/routes/stations.js:164 | One more UPDATE of the loop extends the processed set by that station |
| Store.PartialResetComplete | server/routes/stations.js:162-169 | Processing exactly the non-normal stations equals the full reset |
| Store.PartialResetNone | server/routes/stations.js:162-163 | Before the first iteration the stations are untouched |
| Store.SnapshotIdsExtend | server/routes/stations.js:163-169 | Extending the processed prefix of the snapshot by one row adds that id and appends that row's transition |
| Store.Database.constructor | server/routes/stations.js:2 | A store opened on some stations starts with those stations and an empty log |
| Store.Database.SelectNonNormal | server/routes/stations.js:162 | The snapshot lists every non-normal station exactly once with its current status, and nothing else |
| Store.Channel.constructor | server/routes/stations.js:88 | A channel starts with nothing sent |
| Store.Channel.Emit | server/routes/stations.js:88-95 | An emit appends exactly that event to what the channel has sent |
| Store.Webhook.constructor | server/routes/stations.js:173-175 | The webhook starts with nothing posted |
| Store.Webhook.Post | server/routes/stations.js:176-184 | A post appends exactly that message, whatever the HTTP outcome |
| StationsRoute.UpdateStatus | server/routes/stations.js:58-105 | 400 for a status outside the four, 404 for an unknown id, and success exactly otherwise. On failure nothing changes. On success the station takes the status with a fresh timestamp, exactly one change_status row from the old status to the new one is appended (also when they are equal), and `io`, if set, gets one `station_status_updated` |
| StationsRoute.NewStation | server/routes/stations.js:116-118 | The inserted row: id and code are the code, status 'normal', stamped now; description '' and coordinates 0 when not given |
| StationsRoute.CreateStation | server/routes/stations.js:108-139 | 400 without name or code, 409 for an existing code, 201 exactly otherwise, with the new row added under its code. The log is untouched, and nothing changes on failure |
| StationsRoute.DeleteStation | server/routes/stations.js:142-157 | The station is removed and no other; 404 exactly when it was absent; the log is untouched |
| StationsRoute.ResetAll | server/routes/stations.js:160-190 | Always 200. The snapshot is exactly the non-normal stations with their statuses. Afterwards every station is normalized, and the log gains one change_status row per snapshot station followed by one clear_all row. The webhook gets the reset notice |
| StationsRoute.Project | server/routes/stations.js:201 | `SELECT time, new_status` keeps one row per log row, in order |
| StationsRoute.StatusLog | server/routes/stations.js:193-209 | 400 without a date; otherwise the day's change_status rows of the station, ascending by time. StatusLogMeaning, StatusLogComplete and StatusLogRearranges state its meaning |
| StationsRoute.ByTimeIsTotalPreorder | server/routes/stations.js:201 | `ORDER BY time ASC` is a total preorder, so the sort is well defined |
| StationsRoute.StatusLogMeaning | server/routes/stations.js:193-209 | With a date the answer is 200. Its rows ascend by time, and each comes from a change_status row of that station on that day |
| StationsRoute.StatusLogComplete | server/routes/stations.js:200-203 | Every change_status row of that station on that day is in the answer |
| StationsRoute.StatusLogRearranges | server/routes/stations.js:200-203 | The answer is the projection of a rearrangement of the matching change_status rows, each as often as the log holds it, and has as many rows as match |
| SocketHandlers.StatusLabel | server/socket/socketHandlers.js:87-92 | A label exists exactly for the four statuses |
| SocketHandlers.StatusLabelInjective | server/socket/socketHandlers.js:87-92 | No two statuses share a label |
| SocketHandlers.LabelOrRaw | server/socket/socketHandlers.js:95 | `statusLabel[s] \|\| s`: the label for the four statuses, the raw value otherwise |
| SocketHandlers.NotificationText | server/socket/socketHandlers.js:95-103 | The posted message `'[ANDON] ' + msg`: the time text, the station's name and code, the old status's label or the raw status, and the new status's label. HandleUpdateStationStatus states that exactly this text is posted |
| SocketHandlers.HandleUpdateStationStatus | server/socket/socketHandlers.js:53-119 | Errors come in order: missing field, then bad status, then unknown station. Each sends one `error` to the sender and changes nothing else. On success: the status is written, one change_status row is appended, the webhook gets the transition notice, the other clients get `station_status_updated`, and the sender gets the success event |
| SocketHandlers.ResetAllStationsToNormal | server/socket/socketHandlers.js:122-132 | Every non-normal station becomes normal, with one reset_all row per station carrying its prior status; no summary row |
| AlertsRoute.AlertTable.constructor | server/routes/alerts.js:99-102 | An empty alerts table whose next rowid is 1 |
| AlertsRoute.CreateAlert | server/routes/alerts.js:79-133 | Any missing field gives the required-fields error. A bad severity gives the severity error. Otherwise exactly one 'active' row with the next id is appended, the request fields are echoed, and `io`, if set, gets `new_alert` with `parseInt(station_id)` read without a radix, so `0x1A` is 26. Nothing changes on failure |
| AlertsRoute.Transition | server/routes/alerts.js:145-151 | The guarded UPDATE: each alert with that id, in an accepted status, gets the SET clause; every other alert is unchanged |
| AlertsRoute.ChangesZeroIffUntargeted | server/routes/alerts.js:157-159 | `this.changes === 0` exactly when no alert has that id in an accepted status |
| AlertsRoute.ChangesAtMostOne | server/routes/alerts.js:150 | With unique ids an UPDATE by id changes at most one row |
| AlertsRoute.TransitionKeepsIds | server/routes/alerts.js:145-151 | The UPDATE keeps every id, so ids stay unique and below the next rowid |
| AlertsRoute.TransitionFollowsLifecycle | server/routes/alerts.js:145-194 | Every alert stays as it was, or goes active to acknowledged, or active/acknowledged to resolved |
| AlertsRoute.Run | server/routes/alerts.js:136-219 | A sequence of acknowledge/resolve UPDATEs keeps the number of alerts |
| AlertsRoute.ResolvedIsTerminal | server/routes/alerts.js:193 | No sequence of UPDATEs changes a resolved alert |
| AlertsRoute.NeverBackToActive | server/routes/alerts.js:150-193 | An alert active after any sequence of UPDATEs was active before and is unchanged |
| AlertsRoute.StepPush | server/routes/alerts.js:161-168 | The `alert_acknowledged` or `alert_resolved` payload. ApplyStep states when it is pushed |
| AlertsRoute.ApplyStep | server/routes/alerts.js:136-219 | 400 without an actor. 404 exactly when no alert is targeted. Otherwise the table becomes the Transition and `io`, if set, gets the matching event. Nothing changes on failure |
| AlertsRoute.AllSatisfiedAppend | server/routes/alerts.js:22-30 | Appending a clause to the WHERE adds exactly that condition |
| AlertsRoute.ListQuery | server/routes/alerts.js:8-33 | The built WHERE holds exactly when each given filter matches, with one clause per given filter, and the limit is `parseInt(limit)` without a radix, 50 when absent |
| AlertsRoute.LimitValue | server/routes/alerts.js:8-33 | 50 when absent, otherwise `parseInt(limit)` without a radix. HexLimitValue and ParseIntNoRadixOfNatToString state how it reads |
| AlertsRoute.HexLimitValue | server/routes/alerts.js:33 | `limit=0x10` reads as 16 and a bare `limit=0x` as NaN, as `parseInt` without a radix reads them |
| JsText.ParseIntNoRadixHex | server/routes/alerts.js:113 | Without a radix, `0x` or `0X` followed by hexadecimal digits reads as their value, whatever text follows the last hexadecimal digit |
| JsText.ParseIntNoRadixBareHex | server/routes/alerts.js:33 | Without a radix, `0x` with no hexadecimal digit after it is NaN |
| JsText.ParseIntNoRadixOfNatToString | server/routes/alerts.js:33 | A printed decimal number reads back as itself without a radix when the next character is not a digit, `x` or `X` |
| AlertsRoute.JoinRows | server/routes/alerts.js:16 | The inner join yields no more rows than alerts |
| AlertsRoute.JoinRowsAllPresent | server/routes/alerts.js:16 | When every alert's station exists, the join keeps every alert in order, joined with its station |
| AlertsRoute.NewestIsTotalPreorder | server/routes/alerts.js:32 | `ORDER BY created_at DESC` is a total preorder |
| AlertsRoute.Take | server/routes/alerts.js:32-33 | LIMIT n keeps the first n rows; a negative limit keeps all |
| AlertsRoute.Listed | server/routes/alerts.js:8-33 | The kept alerts with a station, newest first, cut to the limit and joined. ListedMeaning, ListedComplete and ListedKeepsNewest state its meaning |
| AlertsRoute.ListAlerts | server/routes/alerts.js:6-47 | A limit that is not a number (`abc`, or a bare `0x`) is a database error; otherwise the answer is the listed rows for the filters, cut to the limit as `parseInt` reads it |
| AlertsRoute.ListedMeaning | server/routes/alerts.js:10-33 | Every listed row is a kept alert with a station, joined with that station. The rows are newest first and at most the limit |
| AlertsRoute.ListedComplete | server/routes/alerts.js:10-33 | Without a binding limit, every kept alert with a station is listed |
| AlertsRoute.ListedKeepsNewest | server/routes/alerts.js:32-33 | The limit cuts off only the oldest: a kept alert not listed is no newer than every row that is |
| AlertsRoute.ActiveAlertsMeaning | server/routes/alerts.js:50-76 | GET `/active` lists only active alerts, newest first, and every active alert that has a station |
| StatisticsRoute.StationOverview | server/routes/statistics.js:9-17 | The total is the number of stations, and each status count is at most the total |
| StatisticsRoute.StationOverviewSums | server/routes/statistics.js:9-17 | When every station has one of the four statuses, the four counts add up to the total |
| StatisticsRoute.RecentAlerts | server/routes/statistics.js:28 | The 24-hour window keeps exactly the alerts created in it |
| StatisticsRoute.StatusCountsPartition | server/routes/statistics.js:21-26 | Active, acknowledged and resolved counts add up to the total, and critical-active is at most active |
| StatisticsRoute.AlertOverview | server/routes/statistics.js:19-29 | The five counts over the 24-hour window. RecentAlerts and AlertOverviewSums state their meaning |
| StatisticsRoute.AlertOverviewSums | server/routes/statistics.js:20-29 | The same for the alert overview over the last 24 hours |
| StatisticsRoute.InitEntry | server/routes/statistics.js:98-105 | A new day entry has the day and the four severities at 0 |
| StatisticsRoute.Dates | server/routes/statistics.js:96-112 | The entries' days are exactly the days in the rows, each once, in order of first appearance |
| StatisticsRoute.Grouped | server/routes/statistics.js:97-108 | One day's entry after the rows in order. GroupedMeaning and GroupedUntouched state its meaning |
| StatisticsRoute.GroupedMeaning | server/routes/statistics.js:97-108 | A day's entry has the four severities. Each is 0 unless a row of that day set it, in which case it is the last such row's count. Other severities are present exactly when a row set them |
| StatisticsRoute.GroupedUntouched | server/routes/statistics.js:97-106 | A day no row mentions keeps its initial entry |
| StatisticsRoute.GroupTrend | server/routes/statistics.js:95-112 | The grouping gives one entry per day present, in first-appearance order, each built from that day's rows |
| StatisticsRoute.Sum | server/routes/statistics.js:145-150 | The field-wise sum of the reduce. SumAppend and SumDefectsBounded state its meaning |
| StatisticsRoute.SumAppend | server/routes/statistics.js:145-150 | The field-wise sum over two row lists is the sum of their sums |
| StatisticsRoute.SumDefectsBounded | server/routes/statistics.js:145-150 | When no row has more defects than products, neither do the totals |
| StatisticsRoute.QualityRate | server/routes/statistics.js:152-154 | Without products the rate is 0; otherwise the rate is `(total - defects) * 100 / total` rounded half up |
| StatisticsRoute.QualityRateBounds | server/routes/statistics.js:152-154 | With defects between 0 and the total, the rate is between 0 and 100. It is 100 without defects, and 0 when every product is defective |
| StatisticsRoute.ComputeTotals | server/routes/statistics.js:145-154 | The reduce gives the three field sums, and the quality rate is computed from the totals |
| StatisticsRoute.ProductionTable.constructor | server/routes/statistics.js:181-184 | An empty production table |
| StatisticsRoute.PostProduction | server/routes/statistics.js:171-202 | 400 exactly when the station is missing or total_products is absent, with the table untouched. Otherwise exactly the (station, date or today) row is written with `x \|\| 0` values, replacing any earlier row for that key |
| StationController.MergeMeaning | server/hardware/station-controller.js:113-117 | Spreading keeps the earlier properties the later record lacks and takes every property it has. It is idempotent, and the empty record is its identity on both sides |
| StationController.ParseStationMessage | server/hardware/station-controller.js:87-105 | The loop yields the record the parts give, processed left to right, and never sets lastUpdate |
| StationController.ParsedLightStatus | server/hardware/station-controller.js:96-97 | lightStatus is the value of the last STATUS part |
| StationController.ParsedNoStatus | server/hardware/station-controller.js:94-104 | Without a STATUS part, lightStatus stays missing |
| StationController.ParsedButton | server/hardware/station-controller.js:98-100 | buttonPressed is the value of the last BUTTON part |
| StationController.ParsedNoButton | server/hardware/station-controller.js:98-100 | Without a BUTTON part, buttonPressed stays missing |
| StationController.ParsedButtonStamp | server/hardware/station-controller.js:98-100 | lastButtonPress is stamped now exactly when a BUTTON part is present |
| StationController.PartRoundTrip | server/hardware/station-controller.js:95 | A colon-free key and value written `key:value` split back into that key and value |
| StationController.NoBarInPart | server/hardware/station-controller.js:91 | A part built from bar-free text has no `\|`, so it survives the split intact |
| StationController.MessageRoundTrip | server/hardware/station-controller.js:88-105 | `STATUS:c\|BUTTON:b` parses to light c, button b, stamped now |
| StationController.View | server/hardware/station-controller.js:186-190 | A station spread with its status record: the record's fields win, and the station's own fields are kept |
| StationController.PortOrDefault | server/hardware/station-controller.js:19 | `config.port \|\| 8080` |
| StationController.Controller.constructor | server/hardware/station-controller.js:5-10 | No stations, connections or status records |
| StationController.Controller.AddStation | server/hardware/station-controller.js:13-33 | The returned station is registered under its id, with light 'green' and status record `{green, null, null}`; nothing else changes |
| StationController.Controller.ConnectToStation | server/hardware/station-controller.js:36-67 | Connected exactly when the station is registered and reachable. A registered but unreachable station emits station-error. Registration is unchanged |
| StationController.Controller.ConnectionClosed | server/hardware/station-controller.js:61-65 | The 'close' handler drops that connection and then updates the station with 'disconnected': the record is restamped now, and a registered station takes the record's light and lastUpdate now and gets one station-status-change event with the current light and button fields. An unknown station keeps the stations and events. No command is written |
| StationController.EmptyUpdateOnlyStamps | server/hardware/station-controller.js:109-117 | An update that names no field keeps the stored light and button fields and only sets lastUpdate |
| StationController.Controller.UpdateStationStatus | server/hardware/station-controller.js:108-136 | The merged record, stamped now, is stored. On a registered station, its status becomes the merged light and one status-change event is emitted. An unknown station throws after the record is stored |
| StationController.Controller.HandleStationData | server/hardware/station-controller.js:70-84 | The trimmed text is parsed and merged into that station's record. On a registered station, its status becomes the merged light, its lastUpdate becomes now, and exactly one station-status-change event with the merged fields is appended; on an unknown one no station and no event changes. Nothing is written to any socket and no connection changes |
| StationController.Controller.ControlLight | server/hardware/station-controller.js:139-157 | No connection is an error. Then a colour outside green/yellow/red is an error. Otherwise exactly `SET_LIGHT:<colour>\n` is written, the light is recorded, the station takes the colour as status with lastUpdate now, and exactly one station-status-change event is appended. An error changes nothing |
| StationController.Controller.ResetButton | server/hardware/station-controller.js:160-176 | Sent exactly when connected: `RESET_BUTTON\n` is written, the button fields are set to null, the light is kept, the station keeps its status with lastUpdate now, and exactly one station-status-change event with null button fields is appended. Nothing changes otherwise |
| StationController.Controller.GetStationStatus | server/hardware/station-controller.js:179-181 | The stored record, or undefined for an unknown id |
| StationController.Controller.GetAllStationsStatus | server/hardware/station-controller.js:184-193 | One entry per registered station: the station spread with its record |
| StationController.Controller.DisconnectStation | server/hardware/station-controller.js:196-203 | That connection is dropped and nothing else |
| StationController.Controller.DisconnectAll | server/hardware/station-controller.js:206-212 | Every connection is dropped and nothing else |
| StationController.Controller.IsStationConnected | server/hardware/station-controller.js:215-217 | True exactly when the station has a connection |
| PlcConnector.ParsePlcData | server/hardware/plc-connector.js:62-77 | The reading is 'running', green on, no button pressed |
| PlcConnector.ParsePlcDataConstant | server/hardware/plc-connector.js:62-77 | The reading does not depend on the received bytes |
| PlcConnector.BuildLightCommand | server/hardware/plc-connector.js:94-102 | The command is '' exactly for a light type other than green/yellow/red |
| PlcConnector.BuildLightCommandShape | server/hardware/plc-connector.js:96-100 | For the three lights, the command is the upper-case light name followed by `_ON` or `_OFF` as the state says |
| PlcConnector.BuildLightCommandInjective | server/hardware/plc-connector.js:96-100 | Different (light, state) requests give different commands |
| PlcConnector.Connector.constructor | server/hardware/plc-connector.js:5-10 | No connections, not connected |
| PlcConnector.Connector.ConnectToPlc | server/hardware/plc-connector.js:13-40 | Reachable: the station is connected and isConnected is set. Unreachable: a plc-error event and no change. Nothing is written |
| PlcConnector.Connector.ConnectionClosed | server/hardware/plc-connector.js:34-38 | The 'close' handler drops that connection and clears isConnected |
| PlcConnector.Connector.HandlePlcData | server/hardware/plc-connector.js:43-59 | One station-status-change event carrying the fixed reading; nothing else changes |
| PlcConnector.Connector.ControlLight | server/hardware/plc-connector.js:80-91 | Succeeds exactly when connected, and then writes exactly the built command |
| PlcConnector.Connector.ReadButtonStatus | server/hardware/plc-connector.js:105-114 | Succeeds exactly when connected, and then writes exactly `READ_BUTTONS` |
| PlcConnector.Connector.Disconnect | server/hardware/plc-connector.js:117-123 | That connection is dropped; isConnected is left as it was |
| PlcConnector.Connector.DisconnectAll | server/hardware/plc-connector.js:126-132 | Every connection is dropped and isConnected is cleared |
| ClientData.StatusCount | client/src/pages/Statistics.js:157-159 | `stations.filter(status).length`: at most the number of stations, and 0 exactly when no station has that status |
| Timeline.ScanLog | client/src/pages/Statistics.js:74-85 | The `forEach` over the log from the start of the day in 'normal'. ScanLastTime, ScanPositive and ScanCoherent state what it builds |
| Timeline.Segments | client/src/pages/Statistics.js:66-96 | The whole segment list: the scan and the closing segments. BuildSegments computes it, and SegmentsPositive, SegmentsFollowLog, TodayEndsAtNow and OtherDayEndsAtEnd state its meaning |
| Timeline.BuildSegments | client/src/pages/Statistics.js:66-96 | The loop and its closing segments produce exactly Segments(log, day, now) |
| Timeline.ScanLastTime | client/src/pages/Statistics.js:74-85 | After the loop, lastTime and lastStatus come from the last entry, or are the start of the day and 'normal' |
| Timeline.ScanPositive | client/src/pages/Statistics.js:76-82 | The loop pushes only segments of positive length |
| Timeline.SegmentsPositive | client/src/pages/Statistics.js:74-96 | Every segment has positive length, whatever the order of the log |
| Timeline.EmptyOtherDay | client/src/pages/Statistics.js:94-96 | A day other than today with no entries is one 'normal' segment over the whole day |
| Timeline.StatusAtLater | client/src/pages/Statistics.js:74-85 | An entry after t does not change the status in force at t |
| Timeline.ScanCoherent | client/src/pages/Statistics.js:74-85 | For an ascending log of the day, the pushed segments are contiguous from the start of the day, each carries the status in force at its start, and they end at lastTime |
| Timeline.CoherentStep | client/src/pages/Statistics.js:76-84 | One iteration over an entry no earlier than lastTime keeps the segments contiguous, positive and carrying the status in force at their start |
| Timeline.OldSegmentsKeepStatus | client/src/pages/Statistics.js:76-84 | The segments pushed before an entry no earlier than lastTime keep their status once that entry is read |
| Timeline.SegmentsBelowLast | client/src/pages/Statistics.js:74-96 | In a contiguous positive run no segment ends after the last one |
| Timeline.SegmentsFollowLog | client/src/pages/Statistics.js:66-96 | For an ascending log of that day: the bar starts at the start of the day, with no gaps or overlaps. Each segment has the status in force at its start, except today's final 'future' segment |
| Timeline.TodayEndsAtNow | client/src/pages/Statistics.js:87-93 | Today, with every entry before now: the last real segment ends at now, followed by 'future' to the end of the day when time is left |
| Timeline.OtherDayEndsAtEnd | client/src/pages/Statistics.js:94-96 | Any other day, with every entry before the day's end: the bar ends at the end of the day |
| Timeline.ZoneRank | client/src/pages/Statistics.js:167-170 | `khuOrder[code[0]] ?? 99`: 0, 1 or 2 exactly for codes starting S, C or P, and 99 otherwise |
| Timeline.ByZoneAndNumber | client/src/pages/Statistics.js:301-311 | The sorted list is a permutation of the stations |
| Timeline.Compare | client/src/pages/Statistics.js:168-177 | The comparator: zone rank first, then the code numbers, with a NaN difference as 0. ComesFirstMeans and ComesFirstPreorder state the order it defines |
| Timeline.ComesFirstPreorder | client/src/pages/Statistics.js:303-311 | On stations with numbered codes, the comparator is a total preorder |
| Timeline.ComesFirstMeans | client/src/pages/Statistics.js:303-311 | For numbered codes, the comparator puts a before b exactly when a has a lower zone, or the same zone and a number no greater |
| Timeline.ByZoneAndNumberOrdered | client/src/pages/Statistics.js:301-311 | With numbered codes the list is S before C before P before other codes, ascending by number within a zone |
| Timeline.Uptime | client/src/pages/Statistics.js:165 | 100 exactly for 'normal', 75 exactly for 'warning', and 50 exactly for anything else |
| Timeline.WithUptime | client/src/pages/Statistics.js:163-166 | One row per station, in order, with its uptime |
| Timeline.InsertWithUptime | client/src/pages/Statistics.js:162-177 | Inserting a station's row into the rows with uptime gives the rows of the list with the station inserted: adding the uptime commutes with the sort's insertion |
| Timeline.StationPerformance | client/src/pages/Statistics.js:162-177 | `getStationPerformance`: each station with its uptime, sorted by Compare. WithUptime, InsertWithUptime and PerformanceFollowsOrder state its meaning |
| Timeline.PerformanceFollowsOrder | client/src/pages/Statistics.js:162-177 | The performance rows are the stations in zone-then-number order, each with its uptime |
| Timeline.GetKhu | client/src/pages/Statistics.js:182-187 | The zone name by the code's first letter S/C/P, and '' otherwise |
| Timeline.ZoneNameMatchesRank | client/src/pages/Statistics.js:167-187 | A code has no zone name exactly when the sort ranks it 99 |
| Dashboard.TotalActiveAlerts | client/src/pages/Dashboard.js:70 | The reduce over `parseInt(active_alerts, 10) \|\| 0`. TotalActiveAlertsAppend, TotalActiveAlertsOfOne and TotalActiveAlertsNonNegative state its meaning |
| Dashboard.TotalActiveAlertsAppend | client/src/pages/Dashboard.js:70 | The reduce over two station lists adds up |
| Dashboard.TotalActiveAlertsOfOne | client/src/pages/Dashboard.js:70 | A station adds `parseInt(active_alerts)`, or 0 when that is NaN |
| Dashboard.TotalActiveAlertsNonNegative | client/src/pages/Dashboard.js:70 | With no negative per-station count, the total is not negative |
| Dashboard.StatusCountsSum | client/src/pages/Dashboard.js:72-75 | When every station has one of the four statuses, the four counts add up to the number of stations |
| Dashboard.AbnormalStations | client/src/pages/Dashboard.js:85 | The stations that are not normal. AbnormalStationsMeaning states which and in what order |
| Dashboard.AbnormalStationsMeaning | client/src/pages/Dashboard.js:85 | Exactly the stations not 'normal', in order. With the normal count they make up all stations |
| Dashboard.ZoneGroup | client/src/pages/Dashboard.js:79-82 | A zone's stations sorted by `sortByCode`. ZoneGroupMeaning and ZoneGroupsDisjoint state its meaning |
| Dashboard.ZoneGroupMeaning | client/src/pages/Dashboard.js:79-82 | A zone group is a permutation of the stations whose code starts with the prefix, sorted when the comparator is a total preorder |
| Dashboard.StartsWithLetter | client/src/pages/Dashboard.js:80-82 | `startsWith` a one-letter prefix means the first character is that letter |
| Dashboard.ZoneGroupsDisjoint | client/src/pages/Dashboard.js:80-82 | No station is in two of the S, C and P groups |
| AlertsPage.TabStatus | client/src/pages/Alerts.js:45 | Tabs 0-3 map to all/active/acknowledged/resolved; any other tab gives undefined |
| AlertsPage.HandleTabChange | client/src/pages/Alerts.js:42-47 | Only the status filter changes, to the tab's status |
| AlertsPage.HandleFilterChange | client/src/pages/Alerts.js:49-51 | Only the named filter changes, to the value |
| AlertsPage.ClearFilters | client/src/pages/Alerts.js:282-287 | All filters return to 'all' and an empty search |
| AlertsPage.PassesMeaning | client/src/pages/Alerts.js:59-82 | An alert passes exactly when status, severity and station match or are 'all', and the search is empty or found (ignoring case) in the message or station name. It throws exactly when only the name could decide and the alert has none |
| AlertsPage.FilterOrThrowMeaning | client/src/pages/Alerts.js:59 | A filter that did not throw keeps exactly the passing alerts, in order |
| AlertsPage.FilterOrThrowTotal | client/src/pages/Alerts.js:59 | The filter does not throw when no alert makes the predicate throw |
| AlertsPage.FilterOrThrowAll | client/src/pages/Alerts.js:59 | When every alert passes, the list is unchanged |
| AlertsPage.FilterOrThrowIsFilter | client/src/pages/Alerts.js:59 | When the predicate never throws and agrees with a plain test, the result is that plain filter |
| AlertsPage.DefaultShowsAll | client/src/pages/Alerts.js:35-40 | With the initial filters every alert is shown, in order |
| AlertsPage.FilteredAlerts | client/src/pages/Alerts.js:59-82 | `filteredAlerts` with the station test comparing ids as strings. FilteredAlertsMeaning, TabListsItsStatus and StationFilterSelectsStation state what it keeps |
| AlertsPage.FilteredAlertsAsWritten | client/src/pages/Alerts.js:59-82 | `filteredAlerts` as written, with `parseInt(filters.station)` at line 71. AsWrittenHidesStringIds and AsWrittenStationFilterCounterexample state what it hides |
| AlertsPage.FilteredAlertsMeaning | client/src/pages/Alerts.js:59-82 | When every alert has a station name the list never throws. It shows, in order, exactly the passing alerts |
| AlertsPage.AlertStatusCount | client/src/pages/Alerts.js:84-86 | At most the number of alerts, and 0 exactly when no alert has that status |
| AlertsPage.SeverityCount | client/src/pages/Alerts.js:88-90 | At most the number of alerts, and 0 exactly when no alert has that severity |
| AlertsPage.TabListsItsStatus | client/src/pages/Alerts.js:42-47 | Tab 1, 2 or 3 from the initial filters lists exactly the alerts of that status, as many as its count |
| AlertsPage.AsWrittenHidesStringIds | client/src/pages/Alerts.js:71 | As written, choosing any station hides every alert whose station id is a string |
| AlertsPage.AsWrittenStationFilterCounterexample | client/src/pages/Alerts.js:71 | An alert of the chosen station: the code as written shows nothing, the corrected test shows it |
| AlertsPage.StationFilterSelectsStation | client/src/pages/Alerts.js:49-82 | With the corrected test, choosing a station lists exactly that station's alerts, in order |
| AppReducers.OnNewAlert | client/src/App.js:47-49 | The new alert comes first, followed by the earlier list |
| AppReducers.OnAlertAcknowledged | client/src/App.js:51-57 | Same length and order: every alert with that id is acknowledged by the actor, every other alert is unchanged |
| AppReducers.OnAlertResolved | client/src/App.js:59-65 | Same length and order: every alert with that id is resolved by the actor, every other alert is unchanged |
| AppReducers.OnStationStatusUpdated | client/src/App.js:67-73 | Same length and order: the stations with that id take the status and timestamp, the others are unchanged |
| AppReducers.ReduceTouchesOneList | client/src/App.js:39-73 | Station events leave the alerts alone and alert events the stations; a `*_data` event replaces its list |
| AppReducers.DataEventForgetsHistory | client/src/App.js:39-45 | After stations_data and alerts_data the state no longer depends on what came before |
| AppReducers.AcknowledgeIdempotent | client/src/App.js:51-57 | An acknowledgement keeps every id, and repeating it changes nothing |
| AppReducers.ResolveKeepsAcknowledger | client/src/App.js:51-65 | Resolving after acknowledging keeps who acknowledged |
| AppReducers.NewAlertCounted | client/src/App.js:47-49 | A new alert adds one to the active count exactly when it is active |
| MockSocket.Calls | client/src/services/mockData.js:298-302 | `forEach(callback => callback(data))`: one call per listener, in order, with that payload |
| MockSocket.FindFirst | client/src/services/mockData.js:249 | `find` (used for `mockAlerts` by id and `mockStations` by id) yields the first element that satisfies the predicate, and none exactly when no element does |
| MockSocket.NewMockAlert | client/src/services/mockData.js:230-240 | The new alert: id and creation time from the clock, status 'active'. The station name is present exactly when the station exists. No acknowledgement or resolution fields |
| MockSocket.AcknowledgeInStore | client/src/services/mockData.js:249-254 | The store keeps its length |
| MockSocket.ResolveInStore | client/src/services/mockData.js:266-271 | The store keeps its length |
| MockSocket.UpdateStationInStore | client/src/services/mockData.js:283-287 | The station list keeps its length |
| MockSocket.AcknowledgeAgreesWithApp | client/src/services/mockData.js:247-262 | With distinct ids, the mock store and the page's list agree after an acknowledgement, except for the time stamp |
| MockSocket.ResolveAgreesWithApp | client/src/services/mockData.js:264-279 | The same for a resolution |
| MockSocket.UpdateStationMeaning | client/src/services/mockData.js:281-295 | Only the first station with that id takes the status and time; an unknown id changes nothing |
| MockSocket.FetchActiveAlerts | client/src/services/mockData.js:315 | The active alerts of the store. FetchActiveAlertsMeaning states which and in what order |
| MockSocket.FetchActiveAlertsMeaning | client/src/services/mockData.js:315 | Exactly the active alerts, in store order |
| MockSocket.SharedListAfterCreate | client/src/App.js:47-49 | The page's list after the first create when it is the store array itself, with that sharing written into the definition. AsWrittenNewAlertShownTwice states the duplicate |
| MockSocket.AsWrittenNewAlertShownTwice | client/src/App.js:47-49 | When the page list is the store array itself, the first `new_alert` leaves the new alert in it twice |
| MockSocket.OwnListAgreesWithStore | client/src/App.js:47-49 | When the page holds its own list, `new_alert` leaves it equal to the store after the unshift, with the new alert once |
| MockSocket.MockStore.constructor | client/src/services/mockData.js:4-200 | The store holds the given stations and alerts |
| MockSocket.Socket.constructor | client/src/services/mockData.js:211-215 | No listeners, connected, no calls |
| MockSocket.Socket.On | client/src/services/mockData.js:217-222 | The callback is appended to that event's listeners (a new list when there was none) and nothing else changes |
| MockSocket.Socket.Trigger | client/src/services/mockData.js:298-302 | Each listener of the event is called once with the payload, in registration order; no listener means no call |
| MockSocket.Socket.EmitCreateAlert | client/src/services/mockData.js:228-245 | The new alert is put first in the store. Then the `alert_created` listeners, then the `new_alert` listeners, are called |
| MockSocket.Socket.EmitAcknowledgeAlert | client/src/services/mockData.js:247-262 | The store's first alert with that id is acknowledged. Then the success listeners, then the `alert_acknowledged` listeners, are called |
| MockSocket.Socket.EmitResolveAlert | client/src/services/mockData.js:264-279 | The store's first alert with that id is resolved. Then the success listeners, then the `alert_resolved` listeners, are called |
| MockSocket.Socket.EmitUpdateStationStatus | client/src/services/mockData.js:281-295 | The store's first station with that id is updated. Then the success listeners, then the `station_status_updated` listeners, are called |
| MockSocket.Socket.Disconnect | client/src/services/mockData.js:304-307 | Only `connected` becomes false |
| CreateAlertDialog.Validate | client/src/components/CreateAlertDialog.js:57-73 | The first missing field names the error, in the order station, type, severity, blank message; no error exactly when all four are present |
| CreateAlertDialog.WhitespaceMessageRefused | client/src/components/CreateAlertDialog.js:70-73 | A message of whitespace only is refused like an empty one |
| CreateAlertDialog.SubmitEnabledIffValid | client/src/components/CreateAlertDialog.js:216 | The button is enabled exactly when nothing is loading and the form would pass validation |
| CreateAlertDialog.HandleSubmit | client/src/components/CreateAlertDialog.js:56-105 | A failed validation sets its error. A valid form with a socket starts loading, clears the error and emits the form. Without a socket it shows the no-connection error. The form is untouched |
| CreateAlertDialog.SubmitSendsOnlyValidForms | client/src/components/CreateAlertDialog.js:56-80 | Only a valid form is ever sent, as it stands, and only with a socket |
| CreateAlertDialog.HandleInputChange | client/src/components/CreateAlertDialog.js:48-54 | Only the named field takes the value; the error is cleared |
| CreateAlertDialog.HandleClose | client/src/components/CreateAlertDialog.js:107-117 | The form is emptied, the error cleared, loading stopped |
| CreateAlertDialog.FillingTheFormEnablesSubmit | client/src/components/CreateAlertDialog.js:48-79 | Filling in the four fields of a closed dialog enables submit, and submitting sends exactly those values |
| CreateAlertDialog.ClosedDialogDisabled | client/src/components/CreateAlertDialog.js:107-117 | A closed dialog cannot be submitted; validation names the station first |

## Left out

- Database failures (HTTP 500 and the socket handler's catch) are left out. The one exception is the `NaN` LIMIT of GET `/api/alerts`, which the model treats as a database error.
- The store is a map keyed by station id. SQLite/MySQL type affinity, the split between the two database drivers, and transactions or concurrency between requests are not modelled.
- SQL `ORDER BY` ties keep the order rows were inserted in, which is one of the orders the engine may return.
- GET `/api/stations` and GET `/api/stations/:id` (aggregate joins with `COUNT`/`MAX`) are left out.
- GET `/api/statistics/stations` is left out: its `ORDER BY` runs over aggregate counts, with a `days` interval parameter.
- GET `/api/alerts/statistics` is left out; it builds its SQL by string concatenation.
- `setupSocketHandlers`, `sendInitialData`, `sendStationsData` and `broadcastEvent` are left out. They only wire events or relay a `SELECT * ORDER BY name`.
- The webhook's URL, team and channel ids are not modelled. Its HTTP outcome never changes an answer, so only the posted message is kept.
- Time formatting (`toLocaleTimeString`, `toISOString`) is left out. The notice's time text is a parameter.
- StatisticsRoute.AlertOverviewSums and the trend query count rows in a window the model takes as given. `DATE_SUB(NOW(), INTERVAL …)` arithmetic and the `days` parameter are not modelled.
- StatisticsRoute.ComputeTotals: the per-row `ROUND(…, 2)` quality rate of the performance query is not modelled; only the totals' rate is.
- StatisticsRoute.GroupedMeaning does not cover a severity named `date`. That row overwrites the entry's date instead, which is what `SetCount` models.
- StationController.Controller.ConnectionClosed: spreading the string 'disconnected' also copies its character indices ('0' to '11') into the stored record as keys; the record type has only the four named fields, so those keys are not modelled.
- StationController.Controller.ConnectToStation: the connection attempt is a `reachable` flag. Socket `data` events are HandleStationData, called separately.
- The PLC connector's `state` is modelled as a boolean; other truthy or falsy values are not.
- Lookups through JavaScript prototype keys (`khuOrder['constructor']`, `statusLabel['toString']`) are not modelled.
- `toLowerCase` and `localeCompare` are parameters, since locale behaviour is outside Dafny.
- Timeline: only uptime and segment boundaries are modelled. The width percentages (`getPercent`), colours and labels are rendering and are left out.
- Timeline.ByZoneAndNumberOrdered assumes numbered codes. Otherwise the comparator returns `NaN`, which `sort` treats as 0. That makes the comparator inconsistent, and the model's stable insertion sort is then only one of the orders an engine may produce.
- The mock socket's `setTimeout` delays are modelled as immediate. `emit` of any other event (for example `request_alerts`) does nothing.
- The mock socket has no `once`, so the reply listeners CreateAlertDialog registers after emitting are not modelled. Neither is its 5-second timeout that sets a no-reply error.
- AppReducers compares `alert_id` as a number; a string id in a payload is not modelled.
- Client `null` and `undefined` are both `None`.
- MockSocket.Socket.EmitCreateAlert, AppReducers.OnNewAlert: the mock store's arrays and the page's lists are separate values everywhere except in MockSocket.SharedListAfterCreate. The page takes the very `mockAlerts` array from `fetchAlerts` (App.js:80-87, mockData.js:313), so the first create both unshifts into the page's list and prepends again; that case is a finding below. The in-place edits of shared alert and station objects by acknowledge, resolve and status updates are not modelled as aliasing; the reducers' spreads give the same fields.
- JsText.ParseIntNoRadix: results are exact integers; JavaScript rounds values beyond 2^53 to the nearest double.
- The routes' `io`: `server/index.js` never registers it with `app.set('io', …)`, so the model takes it as an optional channel (`hasIo`).

## Findings

| source | as written | input that shows it | evidently intended | confidence | as-written member | corrected member |
|---|---|---|---|---|---|---|
| client/src/pages/Alerts.js:71 | `alert.station_id !== parseInt(filters.station)`. Station ids are strings such as 'P3', so `parseInt('P3')` is `NaN`, and a string never equals a number | An alert with `station_id: 'P3'` and the station filter set to 'P3'. Every other filter is at its default | Show the alerts whose `station_id` equals the chosen station id | high (not executed) | AlertsPage.AsWrittenStationFilterCounterexample | AlertsPage.StationFilterSelectsStation |
| client/src/App.js:47-49 | `setAlerts(prev => [alert, ...prev])` on `new_alert`, where `prev` is still the `mockAlerts` array loaded by `fetchAlerts` (mockData.js:313) and `emit('create_alert')` has already done `mockAlerts.unshift(newAlert)` (mockData.js:241) | Load the page, then create one alert from the dialog | The new alert is shown once, at the top of the list | medium (not executed) | MockSocket.AsWrittenNewAlertShownTwice | MockSocket.OwnListAgreesWithStore |
