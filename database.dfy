/**
 * webapp/app/database.py without the connections and cursors: the conversions
 * between status/config messages and flat numbered-column rows,
 * `parse_timestamp`, and the query text and parameter lists that
 * `insert_from_dict`, `update_from_dict` and `get_most_recent` hand to the
 * cursor.
 *
 * A row is a record with one field per column of its table (the cursor always
 * returns every column); `id` is a `Field` because the dictionaries built by
 * the `*_message_to_row` functions have no `id` key.  A dictionary handed to a
 * query builder is its list of items, in insertion order.
 */
module Database {
  import opened Wrappers
  import opened Messages

  // ---------------------------------------------------------------------------
  // Timestamps

  /** What a timestamp column holds: NULL, a datetime, or (under SQLite) its text form. */
  datatype Stamp = NullStamp | DateStamp(t: Time) | TextStamp(text: string)

  /** How a message's timestamp field is stored. */
  function StampOf(t: Option<Time>): (s: Stamp)
    ensures !s.TextStamp?
    ensures s.NullStamp? <==> t.None?
  {
    match t
    case None => NullStamp
    case Some(x) => DateStamp(x)
  }

  datatype DbError = KeyError(key: string) | ValueError(text: string)

  /**
   * `parse_timestamp`: `None` and datetimes pass through; text goes to
   * `strptime` with the driver's format (a parameter here), whose failure is a
   * value error.
   */
  function ParseTimestamp(s: Stamp, strptime: string -> Option<Time>): (r: Result<Option<Time>, DbError>)
    ensures !s.TextStamp? ==> r.Ok? && StampOf(r.value) == s
    ensures s.TextStamp? ==> (r.Ok? <==> strptime(s.text).Some?)
    ensures s.TextStamp? && r.Ok? ==> r.value == strptime(s.text)
  {
    match s
    case NullStamp => Ok(None)
    case DateStamp(t) => Ok(Some(t))
    case TextStamp(x) => if strptime(x).Some? then Ok(strptime(x)) else Err(ValueError(x))
  }

  /** `parse_timestamp` gives back any message timestamp as it was stored. */
  lemma ParseStoredTimestamp(t: Option<Time>, strptime: string -> Option<Time>)
    ensures ParseTimestamp(StampOf(t), strptime) == Ok(t)
  {}

  /** Stored timestamps that `parse_timestamp` accepts. */
  predicate Parses(s: Stamp, strptime: string -> Option<Time>) {
    !s.TextStamp? || strptime(s.text).Some?
  }

  /** The driver value of a timestamp column. */
  function StampValue(s: Stamp): Value {
    match s
    case NullStamp => VNull
    case DateStamp(t) => VTime(t)
    case TextStamp(x) => VStr(x)
  }

  // ---------------------------------------------------------------------------
  // Dictionaries as handed to the query builders

  type Items = seq<(string, Value)>

  /** `values.keys()`, in order. */
  function Keys(d: Items): (ks: seq<string>)
    ensures |ks| == |d| && forall i :: 0 <= i < |d| ==> ks[i] == d[i].0
  {
    seq(|d|, i requires 0 <= i < |d| => d[i].0)
  }

  /** `list(values.values())`, in order. */
  function Values(d: Items): (vs: seq<Value>)
    ensures |vs| == |d| && forall i :: 0 <= i < |d| ==> vs[i] == d[i].1
  {
    seq(|d|, i requires 0 <= i < |d| => d[i].1)
  }

  // ---------------------------------------------------------------------------
  // Config rows

  /** A row of the `config` table. */
  datatype ConfigRow = ConfigRow(
    id: Field<Value>,
    ackTimestamp: Stamp, username: Value, timestamp: Stamp, manualTimeout: int, battery: string,
    pump0: int, pump1: int, pump2: int, pump3: int, targetFlow: int,
    targetLevel1: int, targetLevel2: int, targetLevel3: int,
    minLevel1: int, minLevel2: int, minLevel3: int,
    maxLevel1: int, maxLevel2: int, maxLevel3: int)

  /** `config_message_to_row`: flattens the lists into numbered columns; `id` is not copied. */
  function ConfigMessageToRow(m: Config): (row: ConfigRow)
    ensures row.id.Missing?
    ensures [row.pump0, row.pump1, row.pump2, row.pump3] == m.pump
    ensures [row.targetLevel1, row.targetLevel2, row.targetLevel3] == m.targetLevel
    ensures [row.minLevel1, row.minLevel2, row.minLevel3] == m.minLevel
    ensures [row.maxLevel1, row.maxLevel2, row.maxLevel3] == m.maxLevel
  {
    ConfigRow(Missing, StampOf(m.ackTimestamp), m.username, StampOf(m.timestamp), m.manualTimeout, m.battery,
              m.pump[0], m.pump[1], m.pump[2], m.pump[3], m.targetFlow,
              m.targetLevel[0], m.targetLevel[1], m.targetLevel[2],
              m.minLevel[0], m.minLevel[1], m.minLevel[2],
              m.maxLevel[0], m.maxLevel[1], m.maxLevel[2])
  }

  /**
   * `config_row_to_message`: gathers the numbered columns back into lists and
   * parses both timestamps.  It reads `row['id']` first, so a dictionary
   * without `id` raises `KeyError`; then a timestamp that does not parse fails.
   */
  function ConfigRowToMessage(row: ConfigRow, strptime: string -> Option<Time>): (r: Result<Config, DbError>)
    ensures r.Ok? <==> row.id.Present? && Parses(row.timestamp, strptime) && Parses(row.ackTimestamp, strptime)
    ensures row.id.Missing? ==> r == Err(KeyError("id"))
    ensures r.Ok? ==> r.value.id == row.id && r.value.battery == row.battery && r.value.username == row.username
  {
    if row.id.Missing? then Err(KeyError("id"))
    else
      var timestamp :- ParseTimestamp(row.timestamp, strptime);
      var ackTimestamp :- ParseTimestamp(row.ackTimestamp, strptime);
      Ok(Config(row.id, row.username, timestamp, ackTimestamp, row.manualTimeout, row.battery,
                [row.pump0, row.pump1, row.pump2, row.pump3], row.targetFlow,
                [row.targetLevel1, row.targetLevel2, row.targetLevel3],
                [row.minLevel1, row.minLevel2, row.minLevel3],
                [row.maxLevel1, row.maxLevel2, row.maxLevel3]))
  }

  /** A configuration written out and read back (with the id the database assigns) is the same configuration. */
  lemma ConfigMessageRoundTrip(m: Config, id: Value, strptime: string -> Option<Time>)
    ensures ConfigRowToMessage(ConfigMessageToRow(m).(id := Present(id)), strptime) == Ok(m.(id := Present(id)))
  {
    ParseStoredTimestamp(m.timestamp, strptime);
    ParseStoredTimestamp(m.ackTimestamp, strptime);
  }

  /**
   * A stored row read as a message and written back is the row without its
   * `id`, with text timestamps replaced by the datetimes they parse to; the
   * lists come back in column order.
   */
  lemma ConfigRowRoundTrip(row: ConfigRow, strptime: string -> Option<Time>)
    requires ConfigRowToMessage(row, strptime).Ok?
    ensures var m := ConfigRowToMessage(row, strptime).value;
      ConfigMessageToRow(m) == row.(id := Missing, timestamp := StampOf(m.timestamp), ackTimestamp := StampOf(m.ackTimestamp))
    ensures !row.timestamp.TextStamp? && !row.ackTimestamp.TextStamp? ==>
      ConfigMessageToRow(ConfigRowToMessage(row, strptime).value) == row.(id := Missing)
  {}

  /** The keys of `config_message_to_row`, in its order. */
  const ConfigColumns: seq<string> := [
    "ackTimestamp", "username", "timestamp", "manualTimeout", "battery",
    "pump0", "pump1", "pump2", "pump3", "targetFlow"] + LevelColumns

  /** The setting-level columns both tables end with. */
  const LevelColumns: seq<string> := [
    "targetLevel1", "targetLevel2", "targetLevel3",
    "minLevel1", "minLevel2", "minLevel3",
    "maxLevel1", "maxLevel2", "maxLevel3"]

  /** The dictionary `config_message_to_row` builds, as items in its key order. */
  function ConfigItems(row: ConfigRow): (d: Items)
    ensures Keys(d) == ConfigColumns
  {
    [("ackTimestamp", StampValue(row.ackTimestamp)), ("username", row.username),
     ("timestamp", StampValue(row.timestamp)), ("manualTimeout", VInt(row.manualTimeout)),
     ("battery", VStr(row.battery)),
     ("pump0", VInt(row.pump0)), ("pump1", VInt(row.pump1)), ("pump2", VInt(row.pump2)), ("pump3", VInt(row.pump3)),
     ("targetFlow", VInt(row.targetFlow)),
     ("targetLevel1", VInt(row.targetLevel1)), ("targetLevel2", VInt(row.targetLevel2)),
     ("targetLevel3", VInt(row.targetLevel3)),
     ("minLevel1", VInt(row.minLevel1)), ("minLevel2", VInt(row.minLevel2)), ("minLevel3", VInt(row.minLevel3)),
     ("maxLevel1", VInt(row.maxLevel1)), ("maxLevel2", VInt(row.maxLevel2)), ("maxLevel3", VInt(row.maxLevel3))]
  }

  // ---------------------------------------------------------------------------
  // Status rows

  /** A row of the `status` table. */
  datatype StatusRow = StatusRow(
    id: Field<Value>,
    timestamp: Stamp, manualTimeout: int, battery: string, panic: bool,
    pump0: int, pump1: int, pump2: int, pump3: int, targetFlow: int, flowIn: int, flowOut: int,
    currentLevel1: int, currentLevel2: int, currentLevel3: int,
    targetLevel1: int, targetLevel2: int, targetLevel3: int,
    minLevel1: int, minLevel2: int, minLevel3: int,
    maxLevel1: int, maxLevel2: int, maxLevel3: int)

  /** The status row for a reading of `battery` taken at `t`; `id` is not set. */
  function ReadingRow(t: Stamp, battery: string, rd: Reading): (row: StatusRow)
    ensures row.id.Missing? && row.timestamp == t && row.battery == battery && row.panic == rd.panic
    ensures [row.pump0, row.pump1, row.pump2, row.pump3] == rd.pump
    ensures [row.flowIn, row.flowOut] == rd.currentFlow
    ensures [row.currentLevel1, row.currentLevel2, row.currentLevel3] == rd.currentLevel
    ensures [row.targetLevel1, row.targetLevel2, row.targetLevel3] == rd.targetLevel
    ensures [row.minLevel1, row.minLevel2, row.minLevel3] == rd.minLevel
    ensures [row.maxLevel1, row.maxLevel2, row.maxLevel3] == rd.maxLevel
  {
    StatusRow(Missing, t, rd.manualTimeout, battery, rd.panic,
              rd.pump[0], rd.pump[1], rd.pump[2], rd.pump[3], rd.targetFlow, rd.currentFlow[0], rd.currentFlow[1],
              rd.currentLevel[0], rd.currentLevel[1], rd.currentLevel[2],
              rd.targetLevel[0], rd.targetLevel[1], rd.targetLevel[2],
              rd.minLevel[0], rd.minLevel[1], rd.minLevel[2],
              rd.maxLevel[0], rd.maxLevel[1], rd.maxLevel[2])
  }

  /**
   * `status_message_to_row`: flattens lists to numbered columns and
   * `currentFlow` to `flowIn`/`flowOut`.  It reads `msg['timestamp']`, so a
   * status without a timestamp key raises `KeyError`.
   */
  function StatusMessageToRow(s: Status): (r: Result<StatusRow, DbError>)
    ensures r.Ok? <==> s.timestamp.Present?
    ensures r.Err? ==> r.error == KeyError("timestamp")
    ensures r.Ok? ==> r.value == ReadingRow(StampOf(s.timestamp.value), s.battery, s.reading)
  {
    match s.timestamp
    case Missing => Err(KeyError("timestamp"))
    case Present(t) => Ok(ReadingRow(StampOf(t), s.battery, s.reading))
  }

  /** `status_row_to_message`: `id` first, then the timestamp, then the columns gathered into lists. */
  function StatusRowToMessage(row: StatusRow, strptime: string -> Option<Time>): (r: Result<Status, DbError>)
    ensures r.Ok? <==> row.id.Present? && Parses(row.timestamp, strptime)
    ensures row.id.Missing? ==> r == Err(KeyError("id"))
    ensures r.Ok? ==> r.value.id == row.id && r.value.timestamp.Present? && r.value.battery == row.battery
    ensures r.Ok? ==> r.value.reading.panic == row.panic && r.value.reading.manualTimeout == row.manualTimeout
  {
    if row.id.Missing? then Err(KeyError("id"))
    else
      var timestamp :- ParseTimestamp(row.timestamp, strptime);
      Ok(Status(row.id, Present(timestamp), row.battery,
                Reading(row.panic, row.manualTimeout,
                        [row.pump0, row.pump1, row.pump2, row.pump3], [row.flowIn, row.flowOut], row.targetFlow,
                        [row.currentLevel1, row.currentLevel2, row.currentLevel3],
                        [row.targetLevel1, row.targetLevel2, row.targetLevel3],
                        [row.minLevel1, row.minLevel2, row.minLevel3],
                        [row.maxLevel1, row.maxLevel2, row.maxLevel3])))
  }

  /** A timestamped status written out and read back (with its new id) is the same status. */
  lemma StatusMessageRoundTrip(s: Status, id: Value, strptime: string -> Option<Time>)
    requires s.timestamp.Present?
    ensures StatusMessageToRow(s).Ok?
    ensures StatusRowToMessage(StatusMessageToRow(s).value.(id := Present(id)), strptime) == Ok(s.(id := Present(id)))
  {
    ParseStoredTimestamp(s.timestamp.value, strptime);
  }

  /**
   * A stored status row read as a message and written back is the row without
   * its `id` (a text timestamp replaced by its datetime): `flowIn`/`flowOut`
   * survive as `currentFlow` and `panic` is kept.
   */
  lemma StatusRowRoundTrip(row: StatusRow, strptime: string -> Option<Time>)
    requires StatusRowToMessage(row, strptime).Ok?
    ensures var s := StatusRowToMessage(row, strptime).value;
      StatusMessageToRow(s) == Ok(row.(id := Missing, timestamp := StampOf(s.timestamp.value)))
    ensures !row.timestamp.TextStamp? ==>
      StatusMessageToRow(StatusRowToMessage(row, strptime).value) == Ok(row.(id := Missing))
  {}

  /** The keys of `status_message_to_row`, in its order. */
  const StatusColumns: seq<string> := [
    "timestamp", "manualTimeout", "battery", "panic",
    "pump0", "pump1", "pump2", "pump3", "targetFlow", "flowIn", "flowOut",
    "currentLevel1", "currentLevel2", "currentLevel3"] + LevelColumns

  /** The dictionary `status_message_to_row` builds, as items in its key order. */
  function StatusItems(row: StatusRow): (d: Items)
    ensures Keys(d) == StatusColumns
  {
    [("timestamp", StampValue(row.timestamp)), ("manualTimeout", VInt(row.manualTimeout)),
     ("battery", VStr(row.battery)), ("panic", VBool(row.panic)),
     ("pump0", VInt(row.pump0)), ("pump1", VInt(row.pump1)), ("pump2", VInt(row.pump2)), ("pump3", VInt(row.pump3)),
     ("targetFlow", VInt(row.targetFlow)), ("flowIn", VInt(row.flowIn)), ("flowOut", VInt(row.flowOut)),
     ("currentLevel1", VInt(row.currentLevel1)), ("currentLevel2", VInt(row.currentLevel2)),
     ("currentLevel3", VInt(row.currentLevel3)),
     ("targetLevel1", VInt(row.targetLevel1)), ("targetLevel2", VInt(row.targetLevel2)),
     ("targetLevel3", VInt(row.targetLevel3)),
     ("minLevel1", VInt(row.minLevel1)), ("minLevel2", VInt(row.minLevel2)), ("minLevel3", VInt(row.minLevel3)),
     ("maxLevel1", VInt(row.maxLevel1)), ("maxLevel2", VInt(row.maxLevel2)), ("maxLevel3", VInt(row.maxLevel3))]
  }

  // ---------------------------------------------------------------------------
  // Query text

  /** The parameter placeholder of the configured driver: `%s` for MySQL, `?` for SQLite. */
  function Placeholder(mysql: bool): (p: string)
    ensures |p| >= 1 && p[0] == (if mysql then '%' else '?')
  {
    if mysql then "%s" else "?"
  }

  /** A placeholder holds its own marker character exactly once. */
  lemma PlaceholderCount(mysql: bool)
    ensures var p := Placeholder(mysql); Count(p[0], p) == 1
  {
    var p := Placeholder(mysql);
    if mysql {
      assert p[1..] == "s" && "s"[1..] == [];
      assert Count(p[0], "s") == 0;
    } else {
      assert p[1..] == [];
    }
  }

  /** The number of occurrences of `c` in `s`. */
  function Count(c: char, s: string): nat {
    if s == [] then 0 else (if s[0] == c then 1 else 0) + Count(c, s[1..])
  }

  lemma {:induction false} CountConcat(c: char, a: string, b: string)
    ensures Count(c, a + b) == Count(c, a) + Count(c, b)
  {
    if a == [] {
      assert a + b == b;
    } else {
      assert (a + b)[1..] == a[1..] + b;
      CountConcat(c, a[1..], b);
    }
  }

  lemma {:induction false} CountAbsent(c: char, s: string)
    requires c !in s
    ensures Count(c, s) == 0
  {
    if s != [] {
      assert c !in s[1..];
      CountAbsent(c, s[1..]);
    }
  }

  /** Text around a part adds no occurrences of a character it does not hold. */
  lemma CountSandwich(c: char, head: string, mid: string, tail: string)
    requires c !in head && c !in tail
    ensures Count(c, head + mid + tail) == Count(c, mid)
  {
    CountAbsent(c, head);
    CountAbsent(c, tail);
    CountConcat(c, head, mid);
    CountConcat(c, head + mid, tail);
  }

  /** Two parts separated by text without `c` hold all the occurrences of `c`. */
  lemma CountJoined(c: char, a: string, x: string, b: string, y: string)
    requires c !in a && c !in b
    ensures Count(c, a + x + b + y) == Count(c, x) + Count(c, y)
  {
    CountSandwich(c, a, x, b);
    CountConcat(c, a + x + b, y);
  }

  /** Names that cannot contain a placeholder of either driver. */
  predicate Unmarked(s: string) {
    '%' !in s && '?' !in s
  }

  /** `sep.join(xs)`. */
  function Join(xs: seq<string>, sep: string): string
    decreases |xs|
  {
    if |xs| == 0 then "" else if |xs| == 1 then xs[0] else xs[0] + sep + Join(xs[1..], sep)
  }

  /** The occurrences of `c` over all of `xs`. */
  function CountAll(c: char, xs: seq<string>): nat
    decreases |xs|
  {
    if xs == [] then 0 else Count(c, xs[0]) + CountAll(c, xs[1..])
  }

  /** A separator without `c` adds no occurrences of `c` to the joined string. */
  lemma {:induction false} JoinCount(c: char, xs: seq<string>, sep: string)
    requires c !in sep
    ensures Count(c, Join(xs, sep)) == CountAll(c, xs)
    decreases |xs|
  {
    if |xs| == 1 {
      assert xs[1..] == [];
    } else if |xs| > 1 {
      CountAbsent(c, sep);
      CountConcat(c, xs[0], sep);
      CountConcat(c, xs[0] + sep, Join(xs[1..], sep));
      JoinCount(c, xs[1..], sep);
    }
  }

  /** `['{}={}'.format(f, placeholder) for f in names]`. */
  function Assignments(names: seq<string>, ph: string): (r: seq<string>)
    ensures |r| == |names| && forall i :: 0 <= i < |names| ==> r[i] == names[i] + "=" + ph
  {
    seq(|names|, i requires 0 <= i < |names| => names[i] + "=" + ph)
  }

  /** Every assignment holds exactly one placeholder. */
  lemma {:induction false} AssignmentsCount(names: seq<string>, mysql: bool)
    requires forall i :: 0 <= i < |names| ==> Unmarked(names[i])
    ensures var ph := Placeholder(mysql); CountAll(ph[0], Assignments(names, ph)) == |names|
    decreases |names|
  {
    var ph := Placeholder(mysql);
    if names != [] {
      CountAbsent(ph[0], names[0]);
      CountAbsent(ph[0], "=");
      CountConcat(ph[0], names[0], "=");
      CountConcat(ph[0], names[0] + "=", ph);
      PlaceholderCount(mysql);
      AssignmentsCount(names[1..], mysql);
      assert Assignments(names, ph)[1..] == Assignments(names[1..], ph);
    }
  }

  /** `[placeholder] * n`. */
  function Repeat(ph: string, n: nat): (r: seq<string>)
    ensures |r| == n && forall i :: 0 <= i < n ==> r[i] == ph
  {
    seq(n, _ => ph)
  }

  lemma {:induction false} RepeatCount(mysql: bool, n: nat)
    ensures var ph := Placeholder(mysql); CountAll(ph[0], Repeat(ph, n)) == n
  {
    var ph := Placeholder(mysql);
    if n > 0 {
      PlaceholderCount(mysql);
      RepeatCount(mysql, n - 1);
      assert Repeat(ph, n)[1..] == Repeat(ph, n - 1);
    }
  }

  /** A statement and the parameter list the cursor binds to its placeholders. */
  datatype Query = Query(text: string, params: seq<Value>)

  /** A table name and the column names of `values` that cannot hold a placeholder. */
  predicate Plain(table: string, values: Items) {
    Unmarked(table) && forall i :: 0 <= i < |values| ==> Unmarked(values[i].0)
  }

  /** `insert_from_dict`: one placeholder per value, the values in key order. */
  function InsertFromDict(table: string, values: Items, mysql: bool): (q: Query)
    ensures q.params == Values(values)
  {
    Query("insert into " + table + "(" + Join(Keys(values), ", ") + ") values ("
            + Join(Repeat(Placeholder(mysql), |values|), ", ") + ")",
          Values(values))
  }

  /** `update_from_dict`: the `set` values are bound first, then the `where` values. */
  function UpdateFromDict(table: string, where: Items, values: Items, mysql: bool): (q: Query)
    ensures q.params == Values(values) + Values(where)
  {
    var ph := Placeholder(mysql);
    Query("update " + table + " set " + Join(Assignments(Keys(values), ph), ", ")
            + " where " + Join(Assignments(Keys(where), ph), " and "),
          Values(values) + Values(where))
  }

  /** `get_most_recent`: the newest row by `timestamp` among those matching `values`. */
  function GetMostRecent(table: string, values: Items, mysql: bool): (q: Query)
    ensures q.params == Values(values)
    ensures |values| == 0 <==> q.text == "select * from " + table + "  order by timestamp desc limit 1"
    ensures var order := " order by timestamp desc limit 1";
      |order| <= |q.text| && q.text[|q.text| - |order|..] == order
  {
    var text := "select * from " + table + " " + WhereClause(values, mysql) + " order by timestamp desc limit 1";
    assert |values| != 0 ==> text[|"select * from " + table + " "|] == 'w';
    Query(text, Values(values))
  }

  /** The `where` part of `get_most_recent`: empty when there is nothing to match. */
  function WhereClause(values: Items, mysql: bool): (w: string)
    ensures |values| == 0 <==> w == ""
  {
    if |values| == 0 then "" else "where " + Join(Assignments(Keys(values), Placeholder(mysql)), " and ")
  }

  lemma WhereClauseCount(values: Items, mysql: bool)
    requires forall i :: 0 <= i < |values| ==> Unmarked(values[i].0)
    ensures Count(Placeholder(mysql)[0], WhereClause(values, mysql)) == |values|
  {
    var ph := Placeholder(mysql);
    var c := ph[0];
    if |values| != 0 {
      JoinCount(c, Assignments(Keys(values), ph), " and ");
      AssignmentsCount(Keys(values), mysql);
      CountAbsent(c, "where ");
      CountConcat(c, "where ", Join(Assignments(Keys(values), ph), " and "));
    }
  }

  /** The insert text carries as many placeholders as the parameters bound to it. */
  lemma InsertPlaceholders(table: string, values: Items, mysql: bool)
    requires Plain(table, values)
    ensures var q := InsertFromDict(table, values, mysql); Count(Placeholder(mysql)[0], q.text) == |q.params|
  {
    var ph := Placeholder(mysql);
    var c := ph[0];
    var names := Join(Keys(values), ", ");
    var marks := Join(Repeat(ph, |values|), ", ");
    // no name holds the marker
    assert Count(c, names) == 0 by {
      JoinCount(c, Keys(values), ", ");
      NamesCount(c, Keys(values));
    }
    assert Count(c, marks) == |values| by {
      JoinCount(c, Repeat(ph, |values|), ", ");
      RepeatCount(mysql, |values|);
    }
    CountJoined(c, "insert into " + table + "(", names, ") values (", marks);
    CountAbsent(c, ")");
    CountConcat(c, "insert into " + table + "(" + names + ") values (" + marks, ")");
  }

  /** Plain names hold no placeholder marker. */
  lemma {:induction false} NamesCount(c: char, names: seq<string>)
    requires c == '%' || c == '?'
    requires forall i :: 0 <= i < |names| ==> Unmarked(names[i])
    ensures CountAll(c, names) == 0
    decreases |names|
  {
    if names != [] {
      CountAbsent(c, names[0]);
      NamesCount(c, names[1..]);
    }
  }

  /** The update text carries one placeholder per `set` value and one per `where` value. */
  lemma UpdatePlaceholders(table: string, where: Items, values: Items, mysql: bool)
    requires Plain(table, values) && Plain(table, where)
    ensures var q := UpdateFromDict(table, where, values, mysql); Count(Placeholder(mysql)[0], q.text) == |q.params|
  {
    var ph := Placeholder(mysql);
    var c := ph[0];
    var sets := Join(Assignments(Keys(values), ph), ", ");
    var conds := Join(Assignments(Keys(where), ph), " and ");
    assert Count(c, sets) == |values| by {
      JoinCount(c, Assignments(Keys(values), ph), ", ");
      AssignmentsCount(Keys(values), mysql);
    }
    assert Count(c, conds) == |where| by {
      JoinCount(c, Assignments(Keys(where), ph), " and ");
      AssignmentsCount(Keys(where), mysql);
    }
    CountJoined(c, "update " + table + " set ", sets, " where ", conds);
  }

  /** The select text carries one placeholder per matched value. */
  lemma GetMostRecentPlaceholders(table: string, values: Items, mysql: bool)
    requires Plain(table, values)
    ensures var q := GetMostRecent(table, values, mysql); Count(Placeholder(mysql)[0], q.text) == |q.params|
  {
    var ph := Placeholder(mysql);
    var c := ph[0];
    var cond := WhereClause(values, mysql);
    WhereClauseCount(values, mysql);
    CountSandwich(c, "select * from " + table + " ", cond, " order by timestamp desc limit 1");
  }

  /** No column name of either table can be taken for a placeholder. */
  lemma LevelColumnsUnmarked()
    ensures forall name :: name in LevelColumns ==> Unmarked(name)
  {}

  lemma ConfigColumnsUnmarked()
    ensures forall name :: name in ConfigColumns ==> Unmarked(name)
  {
    LevelColumnsUnmarked();
  }

  lemma StatusColumnsUnmarked()
    ensures forall name :: name in StatusColumns ==> Unmarked(name)
  {
    LevelColumnsUnmarked();
  }

  /** A configuration row is a plain dictionary, so its insert has one placeholder per value. */
  lemma ConfigRowInsert(c: ConfigRow, mysql: bool)
    ensures Plain("config", ConfigItems(c))
    ensures var q := InsertFromDict("config", ConfigItems(c), mysql); Count(Placeholder(mysql)[0], q.text) == |q.params|
  {
    ConfigColumnsUnmarked();
    var cs := ConfigItems(c);
    forall i | 0 <= i < |cs| ensures Unmarked(cs[i].0) {
      assert cs[i].0 == Keys(cs)[i];
      assert Keys(cs)[i] in ConfigColumns;
    }
    InsertPlaceholders("config", cs, mysql);
  }

  /** A status row is a plain dictionary, so its insert has one placeholder per value. */
  lemma StatusRowInsert(s: StatusRow, mysql: bool)
    ensures Plain("status", StatusItems(s))
    ensures var q := InsertFromDict("status", StatusItems(s), mysql); Count(Placeholder(mysql)[0], q.text) == |q.params|
  {
    StatusColumnsUnmarked();
    var ss := StatusItems(s);
    forall i | 0 <= i < |ss| ensures Unmarked(ss[i].0) {
      assert ss[i].0 == Keys(ss)[i];
      assert Keys(ss)[i] in StatusColumns;
    }
    InsertPlaceholders("status", ss, mysql);
  }
}
