/**
 * webapp/app/core.py: the gateway's per-battery memory of the last status and
 * the last configuration, and its reconciliation between them.
 *
 * What the source does to the outside world (database inserts, MQTT
 * publications, log lines, websocket messages) is appended to an event log;
 * the current time is a parameter.  The behaviour is first written as
 * functions from the old entry to the new entry and the events (`Uplink`,
 * `Command`, `Hydrate`), the properties are lemmas about those functions, and
 * the class `Gateway` performs the same steps statement by statement and is
 * proved to follow them.
 */
module Engine {
  import opened Wrappers
  import opened Messages
  import opened Codec
  import opened Mqtt
  import opened Database

  /** `batteries[b]`: the last status received and the last configuration issued. */
  datatype Entry = Entry(status: Option<Status>, config: Option<Config>)

  /** An effect of the gateway, in the order the source performs them. */
  datatype Event =
    | PanicAlert(status: Status)                       // app.logger.error("Panic mode enabled")
    | StatusStored(statusRow: StatusRow)               // database.insert_from_dict("status", ...)
    | ConfigStored(configRow: ConfigRow)               // database.insert_from_dict("config", ...)
    | Publish(downlink: Downlink)                      // mqtt.send_command
    | DriftWarning(received: Status, expected: Config) // the three app.logger.warn lines
    | AckRecorded(config: Config)                      // storing the acknowledgement
    | StatusBroadcast(status: Status)                  // websocket.send_status
    | Reply(message: string)                           // websocket.reply_message

  const CommandReply: string := "Commando wordt zo snel mogelijk verstuurd"

  // ---------------------------------------------------------------------------
  // Selecting events of one kind

  function Select<T>(evs: seq<Event>, f: Event -> Option<T>): (r: seq<T>)
    ensures |r| <= |evs|
  {
    if evs == [] then [] else (if f(evs[0]).Some? then [f(evs[0]).value] else []) + Select(evs[1..], f)
  }

  lemma {:induction false} SelectConcat<T>(a: seq<Event>, b: seq<Event>, f: Event -> Option<T>)
    ensures Select(a + b, f) == Select(a, f) + Select(b, f)
  {
    if a == [] {
      assert a + b == b;
    } else {
      var head := if f(a[0]).Some? then [f(a[0]).value] else [];
      assert (a + b)[0] == a[0] && (a + b)[1..] == a[1..] + b;
      assert Select(a + b, f) == head + Select(a[1..] + b, f);
      SelectConcat(a[1..], b, f);
      assert Select(a, f) == head + Select(a[1..], f);
    }
  }

  lemma SelectOne<T>(e: Event, f: Event -> Option<T>)
    ensures Select([e], f) == if f(e).Some? then [f(e).value] else []
  {
    assert [e][1..] == [];
  }

  function AsAlert(e: Event): Option<Status> { if e.PanicAlert? then Some(e.status) else None }
  function AsStatusRow(e: Event): Option<StatusRow> { if e.StatusStored? then Some(e.statusRow) else None }
  function AsConfigRow(e: Event): Option<ConfigRow> { if e.ConfigStored? then Some(e.configRow) else None }
  function AsPublish(e: Event): Option<Downlink> { if e.Publish? then Some(e.downlink) else None }
  function AsWarning(e: Event): Option<Config> { if e.DriftWarning? then Some(e.expected) else None }
  function AsAck(e: Event): Option<Config> { if e.AckRecorded? then Some(e.config) else None }

  // ---------------------------------------------------------------------------
  // status_matches_config

  /** The settings a status echoes agree with the configuration; live readings are not compared. */
  predicate StatusMatchesConfig(s: Reading, c: Config) {
    s.pump == c.pump && s.targetFlow == c.targetFlow && s.targetLevel == c.targetLevel
    && s.minLevel == c.minLevel && s.maxLevel == c.maxLevel
  }

  /** The timeout, the panic flag and the measured flow and levels play no part in matching. */
  lemma MatchIgnoresLiveFields(s: Reading, c: Config, panic: bool, timeout: int, flow: Pair, level: Triple)
    ensures StatusMatchesConfig(s.(panic := panic, manualTimeout := timeout, currentFlow := flow, currentLevel := level), c)
        == StatusMatchesConfig(s, c)
  {}

  /**
   * On the wire, a status matches a configuration exactly when the uplink frame
   * repeats the setting bytes of the command frame: pumps (command bytes 2-5 at
   * status bytes 2-5), target flow (6 at 8) and levels (7-15 at 12-20).
   */
  lemma MatchIffSettingsEchoed(c: Config, raw: seq<Byte>)
    requires Encodable(c) && |raw| >= StatusLength
    ensures DecodeStatus(raw).Ok?
    ensures StatusMatchesConfig(DecodeStatus(raw).value, c) <==>
      raw[2..6] == CommandFrame(c)[2..6] && raw[8] == CommandFrame(c)[6] && raw[12..21] == CommandFrame(c)[7..16]
  {
    StatusFrameOfDecoded(raw);
    var rd := DecodeStatus(raw).value;
    var f := CommandFrame(c);
    assert raw[..StatusLength] == StatusFrame(rd);
    assert raw[2..6] == rd.pump && raw[8] == rd.targetFlow by {
      assert raw[2..6] == raw[..StatusLength][2..6];
    }
    assert raw[12..21] == rd.targetLevel + rd.minLevel + rd.maxLevel by {
      assert raw[12..21] == raw[..StatusLength][12..21];
    }
    assert f[2..6] == c.pump && f[6] == c.targetFlow && f[7..16] == c.targetLevel + c.minLevel + c.maxLevel;
    if raw[12..21] == f[7..16] {
      assert rd.targetLevel == raw[12..21][..3] == f[7..16][..3] == c.targetLevel;
      assert rd.minLevel == raw[12..21][3..6] == f[7..16][3..6] == c.minLevel;
      assert rd.maxLevel == raw[12..21][6..] == f[7..16][6..] == c.maxLevel;
    }
  }

  // ---------------------------------------------------------------------------
  // Rows written by the engine

  /** A panic status arriving after a status that was not in panic (the first status never alerts). */
  predicate PanicEdge(prev: Option<Status>, s: Status) {
    s.reading.panic && prev.Some? && !prev.value.reading.panic
  }

  /** The status row stored for an uplink: the status stamped with the time it was received. */
  function UplinkRow(s: Status, now: Time): (row: StatusRow)
    ensures StatusMessageToRow(s.(timestamp := Present(Some(now)))) == Ok(row)
  {
    ReadingRow(DateStamp(now), s.battery, s.reading)
  }

  /**
   * The row as core.py:31-32 computes it: `status_message_to_row` first, which
   * reads the `timestamp` key, and only then the new timestamp.
   */
  function UplinkRowAsWritten(s: Status, now: Time): (r: Result<StatusRow, DbError>)
    ensures s.timestamp.Missing? ==> r == Err(KeyError("timestamp"))
    ensures s.timestamp.Present? ==> r == Ok(UplinkRow(s, now))
  {
    var row :- StatusMessageToRow(s);
    Ok(row.(timestamp := DateStamp(now)))
  }

  /** Every status routed from an uplink lacks `timestamp`, so the row as written fails on it. */
  lemma RoutedUplinkRowFails(dir: Directory, port: int, device: string, payload: seq<Byte>, now: Time)
    requires RouteUplink(dir, port, device, payload).Ok?
    ensures UplinkRowAsWritten(RouteUplink(dir, port, device, payload).value, now) == Err(KeyError("timestamp"))
  {}

  /** `v = config_message_to_row(cmd); v.update(timestamp=now, ackTimestamp=None)`. */
  function CommandRow(cmd: Config, now: Time): (row: ConfigRow)
    ensures row.id.Missing? && row.timestamp == DateStamp(now) && row.ackTimestamp == NullStamp
  {
    ConfigMessageToRow(cmd).(timestamp := DateStamp(now), ackTimestamp := NullStamp)
  }

  /** The configuration installed by a command: the command as stored, unacknowledged and stamped now. */
  function InstalledConfig(cmd: Config, now: Time): (c: Config)
    ensures c.ackTimestamp.None? && c.timestamp == Some(now) && c.battery == cmd.battery
    ensures ConfigMessageToRow(c) == CommandRow(cmd, now)
    ensures Encodable(cmd) ==> Encodable(c) && CommandFrame(c) == CommandFrame(cmd)
  {
    cmd.(id := Missing, timestamp := Some(now), ackTimestamp := None)
  }

  /** The installed configuration is what reading the inserted row back yields, whatever id it gets. */
  lemma InstalledConfigIsStored(cmd: Config, now: Time, id: Value, strptime: string -> Option<Time>)
    ensures ConfigRowToMessage(CommandRow(cmd, now).(id := Present(id)), strptime)
         == Ok(InstalledConfig(cmd, now).(id := Present(id)))
  {
    ConfigMessageRoundTrip(InstalledConfig(cmd, now), id, strptime);
  }

  /** core.py:78 as written: the freshly built row has no `id`, so reading it back fails. */
  function InstalledConfigAsWritten(cmd: Config, now: Time, strptime: string -> Option<Time>): (r: Result<Config, DbError>)
    ensures r == Err(KeyError("id"))
  {
    ConfigRowToMessage(CommandRow(cmd, now), strptime)
  }

  // ---------------------------------------------------------------------------
  // process_uplink and process_command as functions

  /** A stored configuration the status does not match must be sendable (`send_command` fails otherwise). */
  predicate UplinkPre(dir: Directory, e: Entry, s: Status) {
    e.config.Some? && !StatusMatchesConfig(s.reading, e.config.value) ==> Sendable(dir, e.config.value)
  }

  /** The comparison with the stored configuration (core.py:46-62): the new configuration and the events. */
  function Reconcile(dir: Directory, appId: string, config: Option<Config>, s: Status, now: Time): (Option<Config>, seq<Event>)
    requires config.Some? && !StatusMatchesConfig(s.reading, config.value) ==> Sendable(dir, config.value)
  {
    match config
    case None => (None, [])
    case Some(c) =>
      if !StatusMatchesConfig(s.reading, c) then
        (config, [Publish(DownlinkFor(dir, appId, c))] + if c.ackTimestamp.Some? then [DriftWarning(s, c)] else [])
      else if c.ackTimestamp.None? then
        (Some(c.(ackTimestamp := Some(now))), [AckRecorded(c.(ackTimestamp := Some(now)))])
      else (config, [])
  }

  /** `process_uplink` for the battery's entry `e`: the new entry and the events, in order. */
  function Uplink(dir: Directory, appId: string, e: Entry, s: Status, now: Time): (r: (Entry, seq<Event>))
    requires UplinkPre(dir, e, s)
    ensures r.0.status == Some(s)
  {
    var alert := if PanicEdge(e.status, s) then [PanicAlert(s)] else [];
    var rec := Reconcile(dir, appId, e.config, s, now);
    (Entry(Some(s), rec.0), alert + [StatusStored(UplinkRow(s, now))] + rec.1 + [StatusBroadcast(s)])
  }

  /** `Uplink` as the two halves of `process_uplink` that `Gateway` performs in turn. */
  lemma UplinkParts(dir: Directory, appId: string, e: Entry, s: Status, now: Time)
    requires UplinkPre(dir, e, s)
    ensures var r := Uplink(dir, appId, e, s, now); var rec := Reconcile(dir, appId, e.config, s, now);
      && r.0 == e.(status := Some(s)).(config := rec.0)
      && r.1 == (if PanicEdge(e.status, s) then [PanicAlert(s)] else []) + [StatusStored(UplinkRow(s, now))] + rec.1 + [StatusBroadcast(s)]
  {}

  /** `process_command` for the entry `e` of `cmd.battery` (with the installed configuration as intended). */
  function Command(dir: Directory, appId: string, e: Entry, cmd: Config, now: Time): (r: (Entry, seq<Event>))
    requires Sendable(dir, cmd)
    ensures r.0.status == e.status
  {
    (e.(config := Some(InstalledConfig(cmd, now))),
     [ConfigStored(CommandRow(cmd, now)), Publish(DownlinkFor(dir, appId, cmd)), Reply(CommandReply)])
  }

  lemma {:induction false} SelectAround<T>(a: seq<Event>, x: Event, b: seq<Event>, y: Event, f: Event -> Option<T>)
    ensures Select(a + [x] + b + [y], f) == Select(a, f) + Select([x], f) + Select(b, f) + Select([y], f)
  {
    SelectConcat(a + [x] + b, [y], f);
    SelectConcat(a + [x], b, f);
    SelectConcat(a, [x], f);
  }

  /** The events of an uplink by kind. */
  lemma UplinkSelect<T>(dir: Directory, appId: string, e: Entry, s: Status, now: Time, f: Event -> Option<T>)
    requires UplinkPre(dir, e, s)
    ensures Select(Uplink(dir, appId, e, s, now).1, f)
      == Select(if PanicEdge(e.status, s) then [PanicAlert(s)] else [], f) + Select([StatusStored(UplinkRow(s, now))], f)
         + Select(Reconcile(dir, appId, e.config, s, now).1, f) + Select([StatusBroadcast(s)], f)
  {
    SelectAround(if PanicEdge(e.status, s) then [PanicAlert(s)] else [], StatusStored(UplinkRow(s, now)),
                 Reconcile(dir, appId, e.config, s, now).1, StatusBroadcast(s), f);
  }

  /** Reconciliation raises no alerts and stores no rows. */
  lemma ReconcileSelectNone<T>(dir: Directory, appId: string, config: Option<Config>, s: Status, now: Time, f: Event -> Option<T>)
    requires config.Some? && !StatusMatchesConfig(s.reading, config.value) ==> Sendable(dir, config.value)
    requires forall ev: Event :: f(ev).Some? ==> ev.PanicAlert? || ev.StatusStored?
    ensures Select(Reconcile(dir, appId, config, s, now).1, f) == []
  {
    if config.Some? {
      var c := config.value;
      if !StatusMatchesConfig(s.reading, c) {
        var p := Publish(DownlinkFor(dir, appId, c));
        var w: seq<Event> := if c.ackTimestamp.Some? then [DriftWarning(s, c)] else [];
        SelectConcat([p], w, f);
        SelectOne(p, f);
        if c.ackTimestamp.Some? { SelectOne(DriftWarning(s, c), f); }
      } else if c.ackTimestamp.None? {
        SelectOne(AckRecorded(c.(ackTimestamp := Some(now))), f);
      }
    }
  }

  /** An uplink leaves no alert, row, publication, warning or acknowledgement but the ones listed. */
  lemma UplinkFixed<T>(dir: Directory, appId: string, e: Entry, s: Status, now: Time, f: Event -> Option<T>)
    requires UplinkPre(dir, e, s)
    requires f(StatusBroadcast(s)).None?
    ensures Select(Uplink(dir, appId, e, s, now).1, f)
      == Select(if PanicEdge(e.status, s) then [PanicAlert(s)] else [], f) + Select([StatusStored(UplinkRow(s, now))], f)
         + Select(Reconcile(dir, appId, e.config, s, now).1, f)
  {
    UplinkSelect(dir, appId, e, s, now, f);
    SelectOne(StatusBroadcast(s), f);
  }

  /** The panic alert is raised exactly on the edge into panic, and at most once per uplink. */
  lemma UplinkAlertsOnEdge(dir: Directory, appId: string, e: Entry, s: Status, now: Time)
    requires UplinkPre(dir, e, s)
    ensures Select(Uplink(dir, appId, e, s, now).1, AsAlert) == if PanicEdge(e.status, s) then [s] else []
  {
    UplinkFixed(dir, appId, e, s, now, AsAlert);
    SelectOne(StatusStored(UplinkRow(s, now)), AsAlert);
    if PanicEdge(e.status, s) { SelectOne(PanicAlert(s), AsAlert); }
    ReconcileSelectNone(dir, appId, e.config, s, now, AsAlert);
  }

  /** Two panic uplinks in a row raise one alert at most: the second is never on an edge. */
  lemma RepeatedPanicAlertsOnce(dir: Directory, appId: string, e: Entry, s1: Status, s2: Status, t1: Time, t2: Time)
    requires UplinkPre(dir, e, s1) && s1.reading.panic
    requires UplinkPre(dir, Uplink(dir, appId, e, s1, t1).0, s2)
    ensures Select(Uplink(dir, appId, Uplink(dir, appId, e, s1, t1).0, s2, t2).1, AsAlert) == []
  {
    UplinkAlertsOnEdge(dir, appId, Uplink(dir, appId, e, s1, t1).0, s2, t2);
  }

  /**
   * Every uplink stores exactly one status row, the status stamped with the
   * time of receipt, through an insert with one placeholder per value; the
   * status becomes the battery's last status and is broadcast last.
   */
  lemma UplinkStoresOneRow(dir: Directory, appId: string, mysql: bool, e: Entry, s: Status, now: Time)
    requires UplinkPre(dir, e, s)
    ensures var r := Uplink(dir, appId, e, s, now);
      && Select(r.1, AsStatusRow) == [UplinkRow(s, now)]
      && r.0.status == Some(s)
      && r.1[|r.1| - 1] == StatusBroadcast(s)
    ensures var q := InsertFromDict("status", StatusItems(UplinkRow(s, now)), mysql);
      Count(Placeholder(mysql)[0], q.text) == |q.params|
  {
    UplinkFixed(dir, appId, e, s, now, AsStatusRow);
    SelectOne(StatusStored(UplinkRow(s, now)), AsStatusRow);
    if PanicEdge(e.status, s) { SelectOne(PanicAlert(s), AsStatusRow); }
    ReconcileSelectNone(dir, appId, e.config, s, now, AsStatusRow);
    StatusRowInsert(UplinkRow(s, now), mysql);
  }

  /** Alerts and status rows carry nothing another kind of selection picks up. */
  lemma PrefixSelectNone<T>(e: Entry, s: Status, now: Time, f: Event -> Option<T>)
    requires forall ev: Event :: f(ev).Some? ==> ev.Publish? || ev.AckRecorded? || ev.DriftWarning?
    ensures Select(if PanicEdge(e.status, s) then [PanicAlert(s)] else [], f) + Select([StatusStored(UplinkRow(s, now))], f) == []
  {
    SelectOne(StatusStored(UplinkRow(s, now)), f);
    if PanicEdge(e.status, s) { SelectOne(PanicAlert(s), f); }
  }

  /** Publications, warnings and acknowledgements of an uplink all come from reconciliation. */
  lemma UplinkReconcileOnly<T>(dir: Directory, appId: string, e: Entry, s: Status, now: Time, f: Event -> Option<T>)
    requires UplinkPre(dir, e, s)
    requires forall ev: Event :: f(ev).Some? ==> ev.Publish? || ev.AckRecorded? || ev.DriftWarning?
    ensures Select(Uplink(dir, appId, e, s, now).1, f) == Select(Reconcile(dir, appId, e.config, s, now).1, f)
  {
    UplinkFixed(dir, appId, e, s, now, f);
    PrefixSelectNone(e, s, now, f);
  }

  /** With no configuration on file an uplink sends nothing and leaves the configuration absent. */
  lemma UplinkWithoutConfig(dir: Directory, appId: string, e: Entry, s: Status, now: Time)
    requires e.config.None?
    ensures var r := Uplink(dir, appId, e, s, now);
      r.0 == Entry(Some(s), None) && Select(r.1, AsPublish) == [] && Select(r.1, AsAck) == []
  {
    UplinkReconcileOnly(dir, appId, e, s, now, AsPublish);
    UplinkReconcileOnly(dir, appId, e, s, now, AsAck);
  }

  /**
   * On a mismatch the stored configuration is sent exactly once and unchanged,
   * its acknowledgement is left alone, and the warning is logged exactly when
   * it had been acknowledged before.
   */
  lemma UplinkMismatchResends(dir: Directory, appId: string, e: Entry, s: Status, now: Time)
    requires e.config.Some? && !StatusMatchesConfig(s.reading, e.config.value) && Sendable(dir, e.config.value)
    ensures var r := Uplink(dir, appId, e, s, now); var c := e.config.value;
      && r.0 == Entry(Some(s), Some(c))
      && Select(r.1, AsPublish) == [DownlinkFor(dir, appId, c)]
      && Select(r.1, AsAck) == []
      && Select(r.1, AsWarning) == (if c.ackTimestamp.Some? then [c] else [])
  {
    var c := e.config.value;
    PublishThenWarn(DownlinkFor(dir, appId, c), s, c, c.ackTimestamp.Some?);
    UplinkReconcileOnly(dir, appId, e, s, now, AsPublish);
    UplinkReconcileOnly(dir, appId, e, s, now, AsAck);
    UplinkReconcileOnly(dir, appId, e, s, now, AsWarning);
  }

  /** The events of a mismatch, by kind: the publication, then the warning if there is one. */
  lemma PublishThenWarn(d: Downlink, s: Status, c: Config, warn: bool)
    ensures var evs := [Publish(d)] + (if warn then [DriftWarning(s, c)] else []);
      && Select(evs, AsPublish) == [d]
      && Select(evs, AsAck) == []
      && Select(evs, AsWarning) == (if warn then [c] else [])
  {
    var w: seq<Event> := if warn then [DriftWarning(s, c)] else [];
    SelectConcat([Publish(d)], w, AsPublish);
    SelectConcat([Publish(d)], w, AsAck);
    SelectConcat([Publish(d)], w, AsWarning);
    SelectOne(Publish(d), AsPublish);
    SelectOne(Publish(d), AsAck);
    SelectOne(Publish(d), AsWarning);
    if warn {
      SelectOne(DriftWarning(s, c), AsPublish);
      SelectOne(DriftWarning(s, c), AsAck);
      SelectOne(DriftWarning(s, c), AsWarning);
    }
  }

  /**
   * On a match nothing is sent, and the acknowledgement is set to the time of
   * receipt exactly when it was still unset.
   */
  lemma UplinkMatchAcks(dir: Directory, appId: string, e: Entry, s: Status, now: Time)
    requires e.config.Some? && StatusMatchesConfig(s.reading, e.config.value)
    ensures var r := Uplink(dir, appId, e, s, now); var c := e.config.value;
      var acked := if c.ackTimestamp.None? then c.(ackTimestamp := Some(now)) else c;
      && r.0 == Entry(Some(s), Some(acked))
      && Select(r.1, AsPublish) == []
      && Select(r.1, AsAck) == (if c.ackTimestamp.None? then [acked] else [])
  {
    var c := e.config.value;
    UplinkReconcileOnly(dir, appId, e, s, now, AsPublish);
    UplinkReconcileOnly(dir, appId, e, s, now, AsAck);
    if c.ackTimestamp.None? {
      SelectOne(AckRecorded(c.(ackTimestamp := Some(now))), AsPublish);
      SelectOne(AckRecorded(c.(ackTimestamp := Some(now))), AsAck);
    }
  }

  /** A second matching uplink leaves the configuration as the first one left it and records no acknowledgement. */
  lemma AckIdempotent(dir: Directory, appId: string, e: Entry, s1: Status, s2: Status, t1: Time, t2: Time)
    requires e.config.Some? && StatusMatchesConfig(s1.reading, e.config.value) && StatusMatchesConfig(s2.reading, e.config.value)
    ensures var e1 := Uplink(dir, appId, e, s1, t1).0;
      var r2 := Uplink(dir, appId, e1, s2, t2);
      && r2.0.config == e1.config
      && e1.config.value.ackTimestamp.Some?
      && Select(r2.1, AsAck) == []
      && Select(r2.1, AsPublish) == []
  {
    UplinkMatchAcks(dir, appId, e, s1, t1);
    var e1 := Uplink(dir, appId, e, s1, t1).0;
    UplinkMatchAcks(dir, appId, e1, s2, t2);
  }

  /**
   * `process_command` stores one configuration row (its insert has one
   * placeholder per value), sends the command once, and installs it
   * unacknowledged and stamped now.
   */
  lemma CommandInstalls(dir: Directory, appId: string, mysql: bool, e: Entry, cmd: Config, now: Time)
    requires Sendable(dir, cmd)
    ensures var r := Command(dir, appId, e, cmd, now);
      && r.0 == Entry(e.status, Some(InstalledConfig(cmd, now)))
      && r.0.config.value.ackTimestamp.None? && r.0.config.value.timestamp == Some(now)
      && Select(r.1, AsConfigRow) == [CommandRow(cmd, now)]
      && Select(r.1, AsPublish) == [DownlinkFor(dir, appId, cmd)]
      && DownlinkFor(dir, appId, cmd).payload == CommandFrame(cmd)
    ensures var q := InsertFromDict("config", ConfigItems(CommandRow(cmd, now)), mysql);
      Count(Placeholder(mysql)[0], q.text) == |q.params|
  {
    var i := ConfigStored(CommandRow(cmd, now));
    var p := Publish(DownlinkFor(dir, appId, cmd));
    SelectAround([], i, [p], Reply(CommandReply), AsConfigRow);
    SelectAround([], i, [p], Reply(CommandReply), AsPublish);
    assert [] + [i] + [p] + [Reply(CommandReply)] == Command(dir, appId, e, cmd, now).1;
    SelectOne(i, AsConfigRow);
    SelectOne(p, AsConfigRow);
    SelectOne(Reply(CommandReply), AsConfigRow);
    SelectOne(i, AsPublish);
    SelectOne(p, AsPublish);
    SelectOne(Reply(CommandReply), AsPublish);
    ConfigRowInsert(CommandRow(cmd, now), mysql);
  }

  /**
   * After a command, the first uplink whose frame repeats the command's
   * setting bytes acknowledges it at the time of that uplink, and nothing is
   * sent again.
   */
  lemma CommandThenEchoAcks(dir: Directory, appId: string, e: Entry, cmd: Config, t1: Time,
                            port: int, device: string, raw: seq<Byte>, t2: Time)
    requires Sendable(dir, cmd)
    requires RouteUplink(dir, port, device, raw).Ok?
    requires raw[2..6] == CommandFrame(cmd)[2..6] && raw[8] == CommandFrame(cmd)[6] && raw[12..21] == CommandFrame(cmd)[7..16]
    ensures var e1 := Command(dir, appId, e, cmd, t1).0;
      var s := RouteUplink(dir, port, device, raw).value;
      UplinkPre(dir, e1, s) &&
      var r := Uplink(dir, appId, e1, s, t2);
      r.0.config == Some(InstalledConfig(cmd, t1).(ackTimestamp := Some(t2))) && Select(r.1, AsPublish) == []
  {
    var s := RouteUplink(dir, port, device, raw).value;
    var e1 := Command(dir, appId, e, cmd, t1).0;
    MatchIffSettingsEchoed(cmd, raw);
    assert s.reading == DecodeStatus(raw).value;
    assert StatusMatchesConfig(s.reading, InstalledConfig(cmd, t1));
    UplinkMatchAcks(dir, appId, e1, s, t2);
  }

  // ---------------------------------------------------------------------------
  // setup as a function

  /** Every battery of the directory, device by device, in table order. */
  function Flatten(ds: DeviceTable): seq<string> {
    if ds == [] then [] else ds[0].1 + Flatten(ds[1..])
  }

  /** `Flatten` lists exactly the batteries of the devices. */
  lemma {:induction false} FlattenMembers(ds: DeviceTable)
    ensures forall b :: b in Flatten(ds) <==> exists m :: 0 <= m < |ds| && b in ds[m].1
  {
    if ds != [] {
      FlattenMembers(ds[1..]);
      assert forall m :: 1 <= m < |ds| ==> ds[1..][m - 1] == ds[m];
    }
  }

  /** The configuration `setup` installs for `b`: the most recent `config` row of `b`, if any, read as a message. */
  function StoredConfig(rows: map<string, ConfigRow>, b: string, strptime: string -> Option<Time>): (r: Result<Option<Config>, DbError>)
    ensures b !in rows ==> r == Ok(None)
    ensures b in rows ==> (r.Ok? <==> ConfigRowToMessage(rows[b], strptime).Ok?)
    ensures b in rows && r.Ok? ==> r.value == Some(ConfigRowToMessage(rows[b], strptime).value)
  {
    if b in rows then
      var c :- ConfigRowToMessage(rows[b], strptime);
      Ok(Some(c))
    else Ok(None)
  }

  /**
   * One battery of `setup` from the map `m`: an empty entry, then its stored
   * configuration; a configuration that fails to read is reported, the empty
   * entry staying in place.
   */
  function Install(b: string, m: map<string, Entry>, rows: map<string, ConfigRow>,
                   strptime: string -> Option<Time>): (r: (map<string, Entry>, Option<DbError>))
    ensures r.1.None? <==> StoredConfig(rows, b, strptime).Ok?
    ensures r.1.None? ==> r.0 == m[b := Entry(None, StoredConfig(rows, b, strptime).value)]
    ensures r.1.Some? ==> r.0 == m[b := Entry(None, None)] && StoredConfig(rows, b, strptime) == Err(r.1.value)
  {
    var m1 := m[b := Entry(None, None)];
    match StoredConfig(rows, b, strptime)
    case Err(e) => (m1, Some(e))
    case Ok(c) => (m1[b := Entry(None, c)], None)
  }

  /**
   * The batteries `bats` installed in turn from the map `m`; the first
   * configuration that fails to read stops the loop.  `rows` holds, per
   * battery, the row `get_most_recent` returns (absent: none).
   */
  function Hydrate(bats: seq<string>, m: map<string, Entry>, rows: map<string, ConfigRow>,
                   strptime: string -> Option<Time>): (map<string, Entry>, Option<DbError>)
    decreases |bats|
  {
    if bats == [] then (m, None)
    else
      var step := Install(bats[0], m, rows, strptime);
      if step.1.Some? then step else Hydrate(bats[1..], step.0, rows, strptime)
  }

  /**
   * `setup` succeeds exactly when every listed battery's stored configuration
   * reads; then every listed battery has no status and its stored
   * configuration, and every other entry is untouched.
   */
  lemma {:induction false} HydrateInstalls(bats: seq<string>, m: map<string, Entry>, rows: map<string, ConfigRow>,
                                           strptime: string -> Option<Time>)
    ensures var r := Hydrate(bats, m, rows, strptime);
      && (r.1.None? <==> forall b :: b in bats ==> StoredConfig(rows, b, strptime).Ok?)
      && (r.1.None? ==> forall b :: b in bats ==> b in r.0 && r.0[b] == Entry(None, StoredConfig(rows, b, strptime).value))
      && (r.1.None? ==> forall b :: b !in bats ==> (b in r.0 <==> b in m) && (b in m ==> r.0[b] == m[b]))
    decreases |bats|
  {
    if bats != [] {
      assert forall x :: x in bats <==> x == bats[0] || x in bats[1..];
      var step := Install(bats[0], m, rows, strptime);
      if step.1.None? {
        HydrateInstalls(bats[1..], step.0, rows, strptime);
      }
    }
  }

  /** Installing `a + b` is installing `a`, then, unless that failed, `b`. */
  lemma {:induction false} HydrateConcat(a: seq<string>, b: seq<string>, m: map<string, Entry>,
                                         rows: map<string, ConfigRow>, strptime: string -> Option<Time>)
    ensures Hydrate(a + b, m, rows, strptime)
         == var r := Hydrate(a, m, rows, strptime); if r.1.Some? then r else Hydrate(b, r.0, rows, strptime)
    decreases |a|
  {
    if a == [] {
      assert a + b == b;
    } else {
      assert (a + b)[0] == a[0] && (a + b)[1..] == a[1..] + b;
      var step := Install(a[0], m, rows, strptime);
      if step.1.None? {
        HydrateConcat(a[1..], b, step.0, rows, strptime);
      }
    }
  }

  // ---------------------------------------------------------------------------
  // The gateway

  class Gateway {
    const dir: Directory
    const appId: string
    /** `core.batteries`. */
    var batteries: map<string, Entry>
    /** Everything the gateway has done to the outside world, oldest first. */
    var log: seq<Event>

    constructor(dir: Directory, appId: string)
      ensures this.dir == dir && this.appId == appId
      ensures batteries == map[] && log == []
    {
      this.dir := dir;
      this.appId := appId;
      batteries := map[];
      log := [];
    }

    /** Every battery of the directory has an entry. */
    predicate Ready()
      reads this
    {
      forall b :: b in Flatten(dir) ==> b in batteries
    }

    /**
     * `setup`: for every battery of every device, reset its entry and install
     * its most recent stored configuration.  A configuration that cannot be
     * read stops the loop (the source raises) and is returned.
     */
    method Setup(rows: map<string, ConfigRow>, strptime: string -> Option<Time>) returns (failure: Option<DbError>)
      modifies this
      ensures (batteries, failure) == Hydrate(Flatten(dir), old(batteries), rows, strptime)
      ensures failure.None? ==> Ready()
      ensures log == old(log)
    {
      ghost var goal := Hydrate(Flatten(dir), batteries, rows, strptime);
      var k := 0;
      while k < |dir|
        invariant 0 <= k <= |dir|
        invariant goal == Hydrate(Flatten(dir[k..]), batteries, rows, strptime)
        invariant log == old(log)
      {
        assert Flatten(dir[k..]) == dir[k].1 + Flatten(dir[k + 1..]) by {
          assert dir[k..][0] == dir[k] && dir[k..][1..] == dir[k + 1..];
        }
        HydrateConcat(dir[k].1, Flatten(dir[k + 1..]), batteries, rows, strptime);
        failure := InstallDevice(dir[k].1, rows, strptime);
        if failure.Some? {
          return;
        }
        k := k + 1;
      }
      assert dir[k..] == [];
      failure := None;
      HydrateInstalls(Flatten(dir), old(batteries), rows, strptime);
    }

    /** The inner loop of `setup`: the batteries of one device in turn. */
    method InstallDevice(bats: seq<string>, rows: map<string, ConfigRow>, strptime: string -> Option<Time>) returns (failure: Option<DbError>)
      modifies this
      ensures (batteries, failure) == Hydrate(bats, old(batteries), rows, strptime)
      ensures log == old(log)
    {
      ghost var goal := Hydrate(bats, batteries, rows, strptime);
      var j := 0;
      while j < |bats|
        invariant 0 <= j <= |bats|
        invariant goal == Hydrate(bats[j..], batteries, rows, strptime)
        invariant log == old(log)
      {
        assert bats[j..][0] == bats[j] && bats[j..][1..] == bats[j + 1..];
        failure := InstallStored(bats[j], rows, strptime);
        if failure.Some? {
          return;
        }
        j := j + 1;
      }
      assert bats[j..] == [];
      failure := None;
    }

    /** The body of the loop in `setup`, for battery `b`. */
    method InstallStored(b: string, rows: map<string, ConfigRow>, strptime: string -> Option<Time>) returns (failure: Option<DbError>)
      modifies this
      ensures (batteries, failure) == Install(b, old(batteries), rows, strptime)
      ensures log == old(log)
    {
      batteries := batteries[b := Entry(None, None)];
      failure := None;
      if b in rows {
        var config := ConfigRowToMessage(rows[b], strptime);
        if config.Err? {
          failure := Some(config.error);
          return;
        }
        batteries := batteries[b := batteries[b].(config := Some(config.value))];
      }
    }

    /** `process_uplink`: only the entry of the status's battery changes. */
    method ProcessUplink(s: Status, now: Time)
      requires s.battery in batteries && UplinkPre(dir, batteries[s.battery], s)
      modifies this
      ensures var r := Uplink(dir, appId, old(batteries[s.battery]), s, now);
        batteries == old(batteries)[s.battery := r.0] && log == old(log) + r.1
    {
      UplinkParts(dir, appId, batteries[s.battery], s, now);
      RecordStatus(s, now);
      ReconcileConfig(s, now);
      log := log + [StatusBroadcast(s)];
    }

    /** The first half of `process_uplink` (core.py:31-42): alert on a new panic, store the row, keep the status. */
    method RecordStatus(s: Status, now: Time)
      requires s.battery in batteries
      modifies this
      ensures batteries == old(batteries)[s.battery := old(batteries[s.battery]).(status := Some(s))]
      ensures log == old(log) + (if PanicEdge(old(batteries[s.battery]).status, s) then [PanicAlert(s)] else [])
                              + [StatusStored(UplinkRow(s, now))]
    {
      var b := s.battery;
      var prev := batteries[b].status;
      if s.reading.panic && prev.Some? && !prev.value.reading.panic {
        log := log + [PanicAlert(s)];
      }
      var values := UplinkRow(s, now);
      log := log + [StatusStored(values)];
      batteries := batteries[b := batteries[b].(status := Some(s))];
    }

    /** The comparison of an uplink with the battery's configuration (core.py:46-62). */
    method ReconcileConfig(s: Status, now: Time)
      requires s.battery in batteries
      requires var c := batteries[s.battery].config; c.Some? && !StatusMatchesConfig(s.reading, c.value) ==> Sendable(dir, c.value)
      modifies this
      ensures var r := Reconcile(dir, appId, old(batteries[s.battery].config), s, now);
        batteries == old(batteries)[s.battery := old(batteries[s.battery]).(config := r.0)] && log == old(log) + r.1
    {
      var b := s.battery;
      var config := batteries[b].config;
      if config.Some? {
        var c := config.value;
        if !StatusMatchesConfig(s.reading, c) {
          var d := SendCommand(dir, appId, c);
          var warning := [];
          if c.ackTimestamp.Some? {
            warning := [DriftWarning(s, c)];
          }
          log := log + ([Publish(d)] + warning);
        } else if c.ackTimestamp.None? {
          var acked := c.(ackTimestamp := Some(now));
          log := log + [AckRecorded(acked)];
          batteries := batteries[b := batteries[b].(config := Some(acked))];
        }
      }
    }

    /** `process_command`: only the configuration of `cmd.battery` changes. */
    method ProcessCommand(cmd: Config, now: Time)
      requires cmd.battery in batteries && Sendable(dir, cmd)
      modifies this
      ensures var r := Command(dir, appId, old(batteries[cmd.battery]), cmd, now);
        batteries == old(batteries)[cmd.battery := r.0] && log == old(log) + r.1
    {
      var v := CommandRow(cmd, now);
      log := log + [ConfigStored(v)];
      batteries := batteries[cmd.battery := batteries[cmd.battery].(config := Some(InstalledConfig(cmd, now)))];
      var d := SendCommand(dir, appId, cmd);
      log := log + [Publish(d)];
      log := log + [Reply(CommandReply)];
    }

    /**
     * `process_data`: an uplink on port 1 or 2 from a known device, with a
     * complete frame, is processed as a status of the battery it routes to;
     * anything else changes nothing and reports why.
     */
    method ProcessData(port: int, device: string, payload: seq<Byte>, now: Time) returns (routed: Result<Status, RouteError>)
      requires var r := RouteUplink(dir, port, device, payload);
        r.Ok? ==> r.value.battery in batteries && UplinkPre(dir, batteries[r.value.battery], r.value)
      modifies this
      ensures routed == RouteUplink(dir, port, device, payload)
      ensures routed.Err? ==> batteries == old(batteries) && log == old(log)
      ensures routed.Ok? ==> var r := Uplink(dir, appId, old(batteries[routed.value.battery]), routed.value, now);
        batteries == old(batteries)[routed.value.battery := r.0] && log == old(log) + r.1
    {
      routed := RouteUplink(dir, port, device, payload);
      if routed.Ok? {
        ProcessUplink(routed.value, now);
      }
    }
  }
}
