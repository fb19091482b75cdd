/**
 * The records the gateway passes around: the decoded uplink reading, the
 * per-battery status and the issued configuration.  The source keeps these as
 * loosely-typed dictionaries; here each is a tagged record, and a dictionary
 * key that can be absent is a `Field`.
 */
module Messages {
  import opened Wrappers

  /** One octet of a wire frame. */
  type Byte = x: int | 0 <= x < 256

  /** A point in time (a `datetime`), as an integer count of clock ticks. */
  type Time = int

  /** A list of exactly four, three or two values (pump flags, level and flow channels). */
  type Quad = s: seq<int> | |s| == 4 witness [0, 0, 0, 0]
  type Triple = s: seq<int> | |s| == 3 witness [0, 0, 0]
  type Pair = s: seq<int> | |s| == 2 witness [0, 0]

  /** A dictionary key that may be absent, as opposed to present with a `None` value. */
  datatype Field<+T> = Missing | Present(value: T)

  /** A column value as the database driver hands it over (or accepts it). */
  datatype Value = VNull | VBool(b: bool) | VInt(i: int) | VStr(s: string) | VTime(t: Time)

  /** The fields decoded from a 21-byte uplink frame. */
  datatype Reading = Reading(
    panic: bool,
    manualTimeout: int,
    pump: Quad,
    currentFlow: Pair,
    targetFlow: int,
    currentLevel: Triple,
    targetLevel: Triple,
    minLevel: Triple,
    maxLevel: Triple)

  /**
   * A status message: a reading attributed to a battery.  `id` and `timestamp`
   * are present only on statuses read back from the database; a freshly
   * decoded uplink carries neither key.
   */
  datatype Status = Status(
    id: Field<Value>,
    timestamp: Field<Option<Time>>,
    battery: string,
    reading: Reading)

  /**
   * A configuration issued to a battery.  `id` is present only on a
   * configuration read back from the database; `ackTimestamp` is `None` until a
   * status that matches it has been seen.
   */
  datatype Config = Config(
    id: Field<Value>,
    username: Value,
    timestamp: Option<Time>,
    ackTimestamp: Option<Time>,
    manualTimeout: int,
    battery: string,
    pump: Quad,
    targetFlow: int,
    targetLevel: Triple,
    minLevel: Triple,
    maxLevel: Triple)

  predicate IsByte(x: int) { 0 <= x < 256 }

  predicate AllBytes(s: seq<int>) { forall i :: 0 <= i < |s| ==> IsByte(s[i]) }

  /**
   * The configurations the command encoder can store into its byte array: the
   * timeout fits 16 bits and every other field fits one byte.
   */
  predicate Encodable(c: Config) {
    && 0 <= c.manualTimeout <= 0xFFFF
    && AllBytes(c.pump)
    && IsByte(c.targetFlow)
    && AllBytes(c.targetLevel)
    && AllBytes(c.minLevel)
    && AllBytes(c.maxLevel)
  }
}
