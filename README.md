# kroos-en-co gateway core in Dafny

This is a model of the kroos-en-co battery gateway and its controller sketch.
Field devices send 21-byte status frames over The Things Network's MQTT
bridge. The gateway decodes each frame, attributes it to a battery, stores
it, and compares it with the last configuration issued to that battery. On a
mismatch it sends the configuration again as a 16-byte command frame. On a
first match it records the acknowledgement. On the device side, each `Battery`
counts its manual-mode timeout down in 32-bit milliseconds and latches panic,
and each `FlowController` counts its flow sensor's rising edges.

The files:

- `wrappers.dfy` holds `Option` and `Result`.
- `messages.dfy` holds the records the gateway passes around: `Reading`, `Status` and `Config`. A dictionary key that may be absent is a `Field`.
- `codec.dfy` models `encode_command` and `decode_status` (webapp/app/mqtt.py).
  - `EncodeCommand` fills the 16-byte array index by index.
  - `StatusFrame` is a reference encoder for the uplink; `DecodeStatus` inverts it.
- `mqtt.py` is also modelled in `mqtt.dfy`:
  - the `DEVICES` directory: `battery_to_device` as a loop and `device_to_battery` as a lookup;
  - the port filter of `process_data`;
  - the message `send_command` publishes.
- `database.dfy` models webapp/app/database.py without connections:
  - the message and row conversions;
  - `parse_timestamp`, with `strptime` as a parameter;
  - the query text and parameter lists of `insert_from_dict`, `update_from_dict` and `get_most_recent`.
- `engine.dfy` models webapp/app/core.py.
  - The functions `Uplink`, `Command` and `Hydrate` give the new per-battery entry and the sequence of effects (inserted rows, MQTT publications, log warnings, acknowledgements, websocket messages).
  - The lemmas state the reconciliation properties.
  - The class `Gateway`, with the `batteries` map and an event log, performs `setup`, `process_uplink`, `process_command` and `process_data` step by step and is proved to follow those functions.
  - The current time is a parameter.
- `battery.dfy` models controller-sketch/battery.h: the classes `Battery` and `FlowController`, with the 32-bit `unsigned long` and 16-bit `unsigned int` arithmetic written out.

## Model

| member | source | states |
|---|---|---|
| Codec.EncodeCommand | webapp/app/mqtt.py:97-115 | the 16 stored bytes are exactly the command frame of the configuration |
| Codec.CommandFrameLayout | webapp/app/mqtt.py:98-114 | the frame is 16 bytes; bytes 0-1 big-endian are the timeout, then pumps (2-5), target flow (6), target, minimum and maximum levels (7-9, 10-12, 13-15) |
| Codec.DecodeStatus | webapp/app/mqtt.py:117-131 | decoding succeeds iff the frame has at least 21 bytes; panic iff bytes 0-1 are both 0xFF, with timeout 0; otherwise the timeout is the big-endian word, below 0xFFFF |
| Codec.DecodedLayout | webapp/app/mqtt.py:124-130 | pumps are bytes 2-5, measured flow 6-7, target flow 8, measured level 9-11, target level 12-14, minimum 15-17, maximum 18-20 |
| Codec.DecodeStatusFrame | webapp/app/mqtt.py:117-131 | decoding the uplink frame of any representable reading gives that reading back |
| Codec.StatusFrameOfDecoded | webapp/app/mqtt.py:117-131 | every frame of 21 or more bytes decodes to a representable reading, whose frame is the first 21 bytes; later bytes are ignored |
| Codec.SharedPrefixRoundTrip | webapp/app/mqtt.py:99-104 | a status frame that starts with the command frame's first six bytes decodes to the command's pumps and timeout; timeout 0xFFFF reads back as panic |
| Mqtt.BatteryToDevice | webapp/app/mqtt.py:69-76 | the nested search returns the first (device, index) listing the battery in table order, or none |
| Mqtt.IndexFrom | webapp/app/mqtt.py:73-75 | the first index at or after j holding the battery; none iff no later index holds it |
| Mqtt.FindFrom | webapp/app/mqtt.py:72-76 | none iff no device from position k lists the battery; otherwise the found device lists it at that index and no earlier device or index does |
| Mqtt.DeviceBatteries | webapp/app/mqtt.py:80 | the battery list of a device id; none iff the id is not in the table |
| Mqtt.DeviceToBattery | webapp/app/mqtt.py:78-80 | an unknown device fails with UnknownDevice; for a known device, success iff the index is within its list, with the battery at that index, and an index past the list fails with UnknownChannel |
| Mqtt.FindThenLookup | webapp/app/mqtt.py:69-80 | looking up the (device, index) a battery was found at gives that battery |
| Mqtt.LookupThenFind | webapp/app/mqtt.py:69-80 | when no battery is listed twice, the battery at (device, index) is found at exactly that (device, index) |
| Mqtt.UplinkIndex | webapp/app/mqtt.py:55-59 | only ports 1 and 2 are accepted, as battery index port - 1 |
| Mqtt.DownlinkPort | webapp/app/mqtt.py:87 | the downlink port is 1 + index; for indices 0 and 1 it is the uplink port of that index |
| Mqtt.DownlinkFor | webapp/app/mqtt.py:82-94 | the downlink goes to the first (device, index) battery_to_device finds, on port 1 + index, and that pair routes back to the configuration's battery; the topic is `<app id>/devices/<device>/down`; the payload is the command frame, unconfirmed, schedule "replace" |
| Mqtt.SendCommand | webapp/app/mqtt.py:82-94 | the message built by the lookup and the encoder is the specified downlink |
| Mqtt.RouteUplink | webapp/app/mqtt.py:54-62 | other ports fail with UnknownPort; success iff the port is 1 or 2, the device and channel exist and the frame is complete; the status then carries the looked-up battery and the decoded reading, with no id and no timestamp |
| Mqtt.UplinkOnDownlinkRouteReturns | webapp/app/mqtt.py:54-62 | a complete frame on the port and from the device of a command for battery b is attributed to b |
| Database.StampOf | webapp/app/database.py:75-77 | a message timestamp is stored as NULL iff it is None, never as text |
| Database.ParseTimestamp | webapp/app/database.py:67-70 | None and datetimes pass through unchanged; text succeeds iff strptime accepts it, with strptime's result |
| Database.ParseStoredTimestamp | webapp/app/database.py:67-70 | parsing any stored message timestamp gives it back |
| Database.ConfigMessageToRow | webapp/app/database.py:73-94 | the row has no id, and its numbered columns hold the pump and level lists in order |
| Database.ConfigRowToMessage | webapp/app/database.py:97-110 | succeeds iff the row has an id and both timestamps parse; no id gives KeyError 'id'; keeps id, battery and user |
| Database.ConfigMessageRoundTrip | webapp/app/database.py:73-110 | a configuration written as a row and read back with an assigned id is the same configuration with that id |
| Database.ConfigRowRoundTrip | webapp/app/database.py:73-110 | a readable row read and rewritten is the row without its id, text timestamps replaced by their parsed datetimes |
| Database.ReadingRow | webapp/app/database.py:114-138 | the row columns hold the reading's lists in order: currentFlow as flowIn/flowOut, panic kept |
| Database.StatusMessageToRow | webapp/app/database.py:112-138 | succeeds iff the status has a timestamp key, otherwise KeyError 'timestamp'; the row is the reading's row at that time |
| Database.StatusRowToMessage | webapp/app/database.py:140-154 | succeeds iff the row has an id and its timestamp parses; no id gives KeyError 'id'; keeps id, battery, panic and timeout |
| Database.StatusMessageRoundTrip | webapp/app/database.py:112-154 | a timestamped status written and read back with an assigned id is the same status with that id |
| Database.StatusRowRoundTrip | webapp/app/database.py:112-154 | a readable status row read and rewritten is the row without its id |
| Database.ConfigItems | webapp/app/database.py:74-94 | the dictionary of a config row has config_message_to_row's keys in its order |
| Database.StatusItems | webapp/app/database.py:114-138 | the dictionary of a status row has status_message_to_row's keys in its order |
| Database.Placeholder | webapp/app/database.py:35-42 | the placeholder starts with '%' under MySQL and with '?' under SQLite |
| Database.PlaceholderCount | webapp/app/database.py:37-41 | a placeholder holds its marker character once |
| Database.InsertFromDict | webapp/app/database.py:156-168 | the parameters are the dictionary's values in key order |
| Database.InsertPlaceholders | webapp/app/database.py:162-168 | for plain names, the insert text holds exactly one placeholder per bound parameter |
| Database.UpdateFromDict | webapp/app/database.py:172-184 | the parameters are the set values, then the where values |
| Database.UpdatePlaceholders | webapp/app/database.py:178-184 | the update text holds exactly one placeholder per bound parameter |
| Database.GetMostRecent | webapp/app/database.py:188-197 | the parameters are the matched values; the where part is absent iff there is nothing to match; the text always ends in `order by timestamp desc limit 1` |
| Database.WhereClause | webapp/app/database.py:192-194 | the where part is empty iff there is nothing to match |
| Database.GetMostRecentPlaceholders | webapp/app/database.py:192-197 | the select text holds exactly one placeholder per bound parameter |
| Database.ConfigRowInsert | webapp/app/database.py:73-94 | config rows have plain column names, so their insert has one placeholder per value |
| Database.StatusRowInsert | webapp/app/database.py:112-138 | status rows have plain column names, so their insert has one placeholder per value |
| Engine.MatchIgnoresLiveFields | webapp/app/core.py:22-27 | timeout, panic and the measured flow and levels play no part in matching |
| Engine.MatchIffSettingsEchoed | webapp/app/core.py:22-27 | a decoded status matches a configuration iff the uplink frame repeats the command frame's pump, target-flow and level bytes |
| Engine.UplinkRow | webapp/app/core.py:31-32 | the stored row is the status stamped with the time of receipt |
| Engine.UplinkRowAsWritten | webapp/app/core.py:31-32 | with the key order as written, a status without a timestamp key fails with KeyError 'timestamp'; with one, the row is the intended row |
| Engine.RoutedUplinkRowFails | webapp/app/core.py:31 | every status routed from an uplink makes the row conversion as written fail |
| Engine.CommandRow | webapp/app/core.py:68-72 | the command's row has no id, is stamped now and is unacknowledged |
| Engine.InstalledConfig | webapp/app/core.py:68-78 | the installed configuration is unacknowledged, stamped now, for the same battery, stored as the command's row, and encodes to the same command frame |
| Engine.InstalledConfigIsStored | webapp/app/core.py:75-78 | the installed configuration is what reading the inserted row back gives, whatever id it gets |
| Engine.InstalledConfigAsWritten | webapp/app/core.py:78 | reading back the freshly built row as written fails with KeyError 'id' |
| Engine.Uplink | webapp/app/core.py:29-63 | after an uplink the battery's last status is that status |
| Engine.Command | webapp/app/core.py:65-82 | a command leaves the battery's last status alone |
| Engine.UplinkAlertsOnEdge | webapp/app/core.py:35-37 | one panic alert iff the status is in panic and the previous one was present and not in panic; otherwise none |
| Engine.RepeatedPanicAlertsOnce | webapp/app/core.py:35-37 | of two consecutive panic uplinks, the second never alerts |
| Engine.UplinkStoresOneRow | webapp/app/core.py:31-42 | each uplink stores exactly one status row, stamped now, through an insert with one placeholder per value; the status becomes the last one and is broadcast last |
| Engine.UplinkWithoutConfig | webapp/app/core.py:46-48 | with no configuration on file nothing is sent or acknowledged and the configuration stays absent |
| Engine.UplinkMismatchResends | webapp/app/core.py:49-56 | on a mismatch the stored configuration is sent exactly once, unchanged, nothing is acknowledged, and the drift warning appears iff it was acknowledged before |
| Engine.UplinkMatchAcks | webapp/app/core.py:57-62 | on a match nothing is sent; an unacknowledged configuration is acknowledged at the time of receipt, exactly once |
| Engine.AckIdempotent | webapp/app/core.py:57-62 | a second matching uplink changes nothing in the configuration and records no acknowledgement |
| Engine.CommandInstalls | webapp/app/core.py:65-82 | a command stores one config row, through an insert with one placeholder per value, sends the command frame once and installs the configuration unacknowledged, stamped now |
| Engine.CommandThenEchoAcks | webapp/app/core.py:49-80 | after a command, an uplink whose frame repeats its setting bytes acknowledges it at that uplink's time and sends nothing |
| Engine.FlattenMembers | webapp/app/core.py:11-12 | the batteries setup walks are exactly those listed under some device |
| Engine.StoredConfig | webapp/app/core.py:17-19 | no stored row gives no configuration; otherwise success iff the row reads as a message, and the result is that message |
| Engine.Install | webapp/app/core.py:13-19 | the battery's entry is reset, then gets its stored configuration; a failure is reported with the entry left empty |
| Engine.HydrateInstalls | webapp/app/core.py:8-19 | setup succeeds iff every listed battery's stored configuration reads; then each listed battery has no status and its stored configuration, and other entries are untouched |
| Engine.HydrateConcat | webapp/app/core.py:11-19 | installing two lists of batteries is installing the first, then the second unless the first failed |
| Engine.Gateway.constructor | webapp/app/core.py:5 | the gateway starts with no entries and an empty log |
| Engine.Gateway.Setup | webapp/app/core.py:8-19 | the loop over devices yields exactly the specified setup; on success every directory battery has an entry; nothing is logged |
| Engine.Gateway.InstallDevice | webapp/app/core.py:12-19 | the loop over one device's batteries yields the specified installs |
| Engine.Gateway.InstallStored | webapp/app/core.py:13-19 | one battery's install, as specified |
| Engine.Gateway.ProcessUplink | webapp/app/core.py:29-63 | only the status's battery entry changes, to the specified entry, and the log grows by the specified events |
| Engine.Gateway.RecordStatus | webapp/app/core.py:31-42 | alert on a new panic, store the row, keep the status; the configuration is unchanged |
| Engine.Gateway.ReconcileConfig | webapp/app/core.py:46-62 | only the battery's configuration changes, as reconciliation specifies, with its events |
| Engine.Gateway.ProcessCommand | webapp/app/core.py:65-82 | only the command's battery entry changes, to the specified one, with the row, the publication and the reply |
| Engine.Gateway.ProcessData | webapp/app/mqtt.py:54-64 | a routed uplink is processed; an unrouted one changes nothing and reports why |
| Controller.Elapsed | controller-sketch/battery.h:274 | `now - lastCycle` on 32 bits: adding it to lastCycle gives now; it is the plain difference without a wrap and 2^32 - lastCycle + now across one |
| Controller.Countdown | controller-sketch/battery.h:274 | the remaining time never grows; it is 0 iff the elapsed time reaches it, and otherwise the exact difference |
| Controller.CountdownTwice | controller-sketch/battery.h:274 | two countdowns are one countdown by the sum, while the sum fits |
| Controller.MinutesToMillis | controller-sketch/battery.h:260-265 | for every 16-bit timeout the product is exact and at most 65535 minutes' worth of milliseconds |
| Controller.MillisToMinutes | controller-sketch/battery.h:269-270 | whole minutes, truncated, for every remaining time a 16-bit timeout can leave |
| Controller.MinutesRoundTrip | controller-sketch/battery.h:260-271 | reading back any timeout that was set gives the minutes that were set |
| Controller.CountdownReadable | controller-sketch/battery.h:269-274 | counting down keeps the remaining time within the settable range, and its whole minutes never grow |
| Controller.Edges | controller-sketch/battery.h:103-110 | no more pulses are counted than readings |
| Controller.EdgesBound | controller-sketch/battery.h:103-110 | at most every other reading counts a pulse |
| Controller.SteadyCountsNothing | controller-sketch/battery.h:103-110 | a steady sensor counts no pulses |
| Controller.EdgesConcat | controller-sketch/battery.h:103-110 | the pulses of consecutive stretches of readings add up |
| Controller.FlowController.constructor | controller-sketch/battery.h:24-34 | the pins are kept and the counter starts at 0 |
| Controller.FlowController.DoLoop | controller-sketch/battery.h:103-110 | the counter grows by the rising edge of the new reading, which becomes the last state |
| Controller.FlowController.DoCycle | controller-sketch/battery.h:63-66 | the counter is cleared, the last state kept, and no panic reported |
| Controller.Battery.constructor | controller-sketch/battery.h:247-250 | no manual time and no panic |
| Controller.Battery.AttachFlowController | controller-sketch/battery.h:252-254 | slot i gets a fresh controller, and the other slot is unchanged |
| Controller.Battery.SetManualTimeout | controller-sketch/battery.h:260-267 | a positive 16-bit timeout replaces the remaining time by its milliseconds; 0 is ignored |
| Controller.Battery.GetManualTimeout | controller-sketch/battery.h:269-271 | the remaining time in whole minutes |
| Controller.Battery.DoCycle | controller-sketch/battery.h:273-281 | the timeout counts down by the elapsed time; panic latches: the old panic or any level controller's alarm under the manual flag; the result is panic; the flow counters are cleared |
| Controller.Battery.DoLoop | controller-sketch/battery.h:283-289 | each flow controller counts the rising edge of its own sensor reading |

## Left out

- Transport is not modelled: the paho MQTT client, JSON and base64 framing, `on_message`'s exception handling, TLS and connecting. `process_data` starts from the port, device id and raw payload. A publication is an event in the gateway's log.
- Database connections, cursors, commits and the schema are not modelled. The query builders return the text and the parameter list. `get_most_recent`'s result for each battery is the `rows` map passed to `Setup`.
- `datetime.now()` is not modelled; the time is a parameter. process_uplink reads the clock twice: once for the row stamp (core.py:32) and once for the acknowledgement (core.py:60). Engine.Uplink uses one `now` for both. `datetime.strptime` is a function parameter, because it is a foreign library call.
- Database columns are not typed: a stored value is a `Value`.
- Logging text is not modelled. Only the panic alert and the drift warning appear, as events. The debug and info lines are dropped.
- The web application, its authentication and the websocket layer are not modelled. `send_status` and `reply_message` are events.
- The `app.app_context()` blocks and the shared module-level dictionary are not modelled, and neither is concurrency between the MQTT thread and the web handlers.
- Engine.Gateway.ProcessUplink: update_from_dict at core.py:61 is called with three arguments where it takes four. It would raise at run time. The model records the acknowledgement as an event instead.
- Engine.Gateway.ProcessUplink: send_status at core.py:63 is called with two arguments where webapp/app/websocket.py:20 takes one. The model broadcasts the status as intended.
- Engine.Gateway.ProcessCommand: requires the battery to be known and the command to be encodable. The source raises on anything else. For an unknown battery, `battery_to_device` returns `(None, None)` (mqtt.py:76), and `1 + battery_num` raises a TypeError (mqtt.py:87). A field outside its byte range makes the bytearray store raise a ValueError (mqtt.py:99-114). That crash path is not modelled.
- Engine.Uplink: requires a stored configuration that does not match to be sendable, for the same reason.
- Config is a complete record of integers. The sample command at webapp/app/__init__.py:63 omits `username`, `timestamp` and `ackTimestamp`, which core.py reads. It also carries booleans and a string. The KeyErrors and type errors this input would raise are not modelled.
- The model follows what the code does:
  - panic is the exact timeout value 0xFFFF (mqtt.py:121), not a flag bit;
  - levels are compared as the device reports them, without any calibration;
  - `status_matches_config` compares the pumps, the target flow and the levels exactly. The pump-255 rule and the timeout comparison are only TODOs (core.py:23, core.py:26), and so is adjusting the timeout on a resend (core.py:51).
- In controller-sketch/battery.h, the floating-point flow arithmetic, the pump switching and duty cycle, the PID level controllers, `printf` and the pin I/O are not modelled. A level controller's cycle result is the parameter `levelAlarm`.
- Controller.Battery.DoLoop: the `manual` flag it computes only drives pumps, so it is not modelled. The sensor readings are a parameter, standing for `digitalRead`.
- Controller.MinutesToMillis: `timeout*60000` multiplies the 16-bit timeout by a `long` constant. That is a signed 32-bit product, which overflows for 35792 to 65535 minutes. The model takes the product's unsigned value, which the two's-complement wrap and the store into the `unsigned long` give.
- Controller.FlowController.DoLoop: the 16-bit `int flowCounter` overflow is not modelled. The counter is unbounded.
- Controller.Battery.DoLoop: requires the two flow controllers to be distinct objects. The source always attaches two separate ones.

## Findings

| source | as written | input that shows it | evidently intended | confidence | as-written member | corrected member |
|---|---|---|---|---|---|---|
| webapp/app/core.py:31-32 | `status_message_to_row(status)` reads `status['timestamp']` before the timestamp is set | any decoded uplink; `decode_status` and `process_data` never set `timestamp`, so KeyError 'timestamp' is raised | build the row from the status stamped with the time of receipt | not executed | Engine.RoutedUplinkRowFails | Engine.UplinkRow |
| webapp/app/core.py:78 | `config_row_to_message(v)` on the dictionary just built by `config_message_to_row`, which has no `id` key | any command; `row['id']` raises KeyError 'id' | install the command as stored: unacknowledged, stamped now | not executed | Engine.InstalledConfigAsWritten | Engine.InstalledConfigIsStored |
