/**
 * The routing half of webapp/app/mqtt.py: the device directory
 * (`battery_to_device`, `device_to_battery`), the port filter of
 * `process_data` and the message `send_command` publishes.
 */
module Mqtt {
  import opened Wrappers
  import opened Messages
  import opened Codec

  /** The `DEVICES` setting: device ids in order, each with its batteries by channel index. */
  type DeviceTable = seq<(string, seq<string>)>

  /** Device ids are the keys of a dictionary, so each occurs once. */
  predicate DistinctDevices(ds: DeviceTable) {
    forall m, n :: 0 <= m < n < |ds| ==> ds[m].0 != ds[n].0
  }

  type Directory = ds: DeviceTable | DistinctDevices(ds)

  /** No battery is listed twice, under one device or under two. */
  predicate UniqueBatteries(ds: DeviceTable) {
    forall m, n, i, j ::
      0 <= m < |ds| && 0 <= n < |ds| && 0 <= i < |ds[m].1| && 0 <= j < |ds[n].1| && ds[m].1[i] == ds[n].1[j]
      ==> m == n && i == j
  }

  datatype RouteError =
    | UnknownPort(port: int)
    | UnknownDevice(device: string)
    | UnknownChannel(index: nat)
    | Malformed

  /** The first index at or after `j` where `batteries` holds `b`. */
  function IndexFrom(batteries: seq<string>, b: string, j: nat): (r: Option<nat>)
    decreases |batteries| - j
    ensures r.None? <==> forall i :: j <= i < |batteries| ==> batteries[i] != b
    ensures r.Some? ==> j <= r.value < |batteries| && batteries[r.value] == b
    ensures r.Some? ==> forall i :: j <= i < r.value ==> batteries[i] != b
  {
    if j >= |batteries| then None
    else if batteries[j] == b then Some(j)
    else IndexFrom(batteries, b, j + 1)
  }

  /** The first device at or after position `k` listing `b`, with the channel index. */
  function FindFrom(ds: DeviceTable, b: string, k: nat): (r: Option<(string, nat)>)
    decreases |ds| - k
    ensures r.None? <==> forall m :: k <= m < |ds| ==> b !in ds[m].1
    ensures r.Some? ==> exists m :: k <= m < |ds| && ds[m].0 == r.value.0
                                 && r.value.1 < |ds[m].1| && ds[m].1[r.value.1] == b
                                 && (forall i :: 0 <= i < r.value.1 ==> ds[m].1[i] != b)
                                 && (forall n :: k <= n < m ==> b !in ds[n].1)
  {
    if k >= |ds| then None
    else match IndexFrom(ds[k].1, b, 0)
      case Some(i) => Some((ds[k].0, i))
      case None => FindFrom(ds, b, k + 1)
  }

  /** `battery_to_device` as a function: the first (device, index) listing the battery, in table order. */
  function FindBattery(ds: DeviceTable, b: string): Option<(string, nat)> {
    FindFrom(ds, b, 0)
  }

  /**
   * `battery_to_device`: the nested search with early return.  `None` stands for
   * the source's `(None, None)`.
   */
  method BatteryToDevice(dir: Directory, battery: string) returns (r: Option<(string, nat)>)
    ensures r == FindBattery(dir, battery)
  {
    var k := 0;
    while k < |dir|
      invariant 0 <= k <= |dir|
      invariant FindFrom(dir, battery, k) == FindBattery(dir, battery)
    {
      var (device, batteries) := dir[k];
      var i := 0;
      while i < |batteries|
        invariant 0 <= i <= |batteries|
        invariant IndexFrom(batteries, battery, i) == IndexFrom(batteries, battery, 0)
      {
        if batteries[i] == battery {
          return Some((device, i));
        }
        i := i + 1;
      }
      k := k + 1;
    }
    return None;
  }

  /** The battery list of a device id, `None` when the id is not a key of the table. */
  function DeviceBatteries(ds: DeviceTable, device: string): (r: Option<seq<string>>)
    ensures r.None? <==> forall m :: 0 <= m < |ds| ==> ds[m].0 != device
    ensures r.Some? ==> exists m :: 0 <= m < |ds| && ds[m].0 == device && ds[m].1 == r.value
  {
    if ds == [] then None
    else if ds[0].0 == device then Some(ds[0].1)
    else
      var r := DeviceBatteries(ds[1..], device);
      assert forall m :: 1 <= m < |ds| ==> ds[m] == ds[1..][m - 1];
      r
  }

  /** `device_to_battery`: `DEVICES[device][index]`, failing like the dictionary and list lookups. */
  function DeviceToBattery(ds: DeviceTable, device: string, index: nat): (r: Result<string, RouteError>)
    ensures DeviceBatteries(ds, device).None? ==> r == Err(UnknownDevice(device))
    ensures DeviceBatteries(ds, device).Some? ==> (r.Ok? <==> index < |DeviceBatteries(ds, device).value|)
    ensures DeviceBatteries(ds, device).Some? && index >= |DeviceBatteries(ds, device).value| ==> r == Err(UnknownChannel(index))
    ensures r.Ok? ==> DeviceBatteries(ds, device).Some? && r.value == DeviceBatteries(ds, device).value[index]
  {
    match DeviceBatteries(ds, device)
    case None => Err(UnknownDevice(device))
    case Some(batteries) => if index < |batteries| then Ok(batteries[index]) else Err(UnknownChannel(index))
  }

  /** Looking up the (device, index) a battery was found at gives the battery back. */
  lemma FindThenLookup(dir: Directory, b: string)
    requires FindBattery(dir, b).Some?
    ensures DeviceToBattery(dir, FindBattery(dir, b).value.0, FindBattery(dir, b).value.1) == Ok(b)
  {
    var (d, i) := FindBattery(dir, b).value;
    var m :| 0 <= m < |dir| && dir[m].0 == d && i < |dir[m].1| && dir[m].1[i] == b;
    var bs := DeviceBatteries(dir, d);
    assert bs.Some?;
    var m' :| 0 <= m' < |dir| && dir[m'].0 == d && dir[m'].1 == bs.value;
    assert m == m';
  }

  /**
   * When no battery is listed twice, the lookup is the exact inverse: the
   * battery at (device, index) is found at that very (device, index).
   */
  lemma LookupThenFind(dir: Directory, d: string, i: nat, b: string)
    requires UniqueBatteries(dir)
    requires DeviceToBattery(dir, d, i) == Ok(b)
    ensures FindBattery(dir, b) == Some((d, i))
  {
    var bs := DeviceBatteries(dir, d).value;
    var m :| 0 <= m < |dir| && dir[m].0 == d && dir[m].1 == bs;
    assert dir[m].1[i] == b;
    var r := FindBattery(dir, b);
    assert r.Some? by {
      assert b in dir[m].1;
    }
    var n :| 0 <= n < |dir| && dir[n].0 == r.value.0 && r.value.1 < |dir[n].1| && dir[n].1[r.value.1] == b;
    assert dir[n].1[r.value.1] == dir[m].1[i];
  }

  /** The port filter and index of `process_data`: only ports 1 and 2 carry telemetry. */
  function UplinkIndex(port: int): (r: Option<nat>)
    ensures r.Some? <==> port == 1 || port == 2
    ensures r.Some? ==> r.value < 2 && r.value + 1 == port
  {
    if port != 1 && port != 2 then None else Some(port - 1)
  }

  /** The downlink port of `send_command`, `1 + index`; for the two telemetry channels it is the uplink port. */
  function DownlinkPort(index: nat): (port: int)
    ensures port >= 1
    ensures index < 2 ==> UplinkIndex(port) == Some(index)
    ensures index >= 2 ==> UplinkIndex(port).None?
  {
    1 + index
  }

  /** The message `send_command` publishes (the MQTT client call itself is left out). */
  datatype Downlink = Downlink(
    device: string,
    topic: string,
    port: int,
    confirmed: bool,
    payload: seq<Byte>,
    schedule: string)

  /** What `send_command` needs of a configuration: an encodable value for a battery in the directory. */
  predicate Sendable(dir: Directory, c: Config) {
    Encodable(c) && FindBattery(dir, c.battery).Some?
  }

  /** The downlink for a configuration, as a function (the specification of `SendCommand`). */
  function DownlinkFor(dir: Directory, appId: string, c: Config): (d: Downlink)
    requires Sendable(dir, c)
    ensures d.port >= 1 && DeviceToBattery(dir, d.device, d.port - 1) == Ok(c.battery)
    ensures FindBattery(dir, c.battery) == Some((d.device, d.port - 1))
    ensures d.topic == appId + "/devices/" + d.device + "/down"
    ensures d.payload == CommandFrame(c) && d.schedule == "replace" && !d.confirmed
  {
    var (device, index) := FindBattery(dir, c.battery).value;
    FindThenLookup(dir, c.battery);
    Downlink(device, appId + "/devices/" + device + "/down", DownlinkPort(index), false, CommandFrame(c), "replace")
  }

  /** `send_command`: looks the battery up, encodes the configuration and addresses it. */
  method SendCommand(dir: Directory, appId: string, c: Config) returns (d: Downlink)
    requires Sendable(dir, c)
    ensures d == DownlinkFor(dir, appId, c)
  {
    var found := BatteryToDevice(dir, c.battery);
    var (device, index) := found.value;
    var raw := EncodeCommand(c);
    d := Downlink(device, appId + "/devices/" + device + "/down", 1 + index, false, raw, "replace");
  }

  /**
   * `process_data` up to the hand-over to the engine: drop other ports, look the
   * battery up by device and channel, decode the frame.  The result carries no
   * `id` and no `timestamp`, as the decoded dictionary does not.
   */
  function RouteUplink(dir: Directory, port: int, device: string, payload: seq<Byte>): (r: Result<Status, RouteError>)
    ensures UplinkIndex(port).None? ==> r == Err(UnknownPort(port))
    ensures r.Ok? <==> UplinkIndex(port).Some? && DeviceToBattery(dir, device, port - 1).Ok? && |payload| >= StatusLength
    ensures r.Ok? ==> && DeviceToBattery(dir, device, port - 1) == Ok(r.value.battery)
                      && DecodeStatus(payload) == Ok(r.value.reading)
                      && r.value.id == Missing && r.value.timestamp == Missing
  {
    match UplinkIndex(port)
    case None => Err(UnknownPort(port))
    case Some(index) =>
      match DeviceToBattery(dir, device, index)
      case Err(e) => Err(e)
      case Ok(battery) =>
        match DecodeStatus(payload)
        case Err(_) => Err(Malformed)
        case Ok(reading) => Ok(Status(Missing, Missing, battery, reading))
  }

  /**
   * A status frame arriving on the port and from the device a command for `c`
   * was sent to is attributed to `c`'s battery.
   */
  lemma UplinkOnDownlinkRouteReturns(dir: Directory, appId: string, c: Config, payload: seq<Byte>)
    requires Sendable(dir, c) && |payload| >= StatusLength
    requires FindBattery(dir, c.battery).value.1 < 2
    ensures RouteUplink(dir, DownlinkFor(dir, appId, c).port, DownlinkFor(dir, appId, c).device, payload).Ok?
    ensures RouteUplink(dir, DownlinkFor(dir, appId, c).port, DownlinkFor(dir, appId, c).device, payload).value.battery == c.battery
  {
    var d := DownlinkFor(dir, appId, c);
    assert d.port == DownlinkPort(FindBattery(dir, c.battery).value.1);
  }
}
