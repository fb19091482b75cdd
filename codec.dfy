/**
 * The binary downlink and uplink frames of webapp/app/mqtt.py:
 * `encode_command` packs a configuration into 16 bytes and `decode_status`
 * unpacks a 21-byte status frame.
 */
module Codec {
  import opened Wrappers
  import opened Messages

  /** Value of bytes 0-1 of an uplink frame that means "panic". */
  const PanicSentinel: int := 0xFFFF

  const CommandLength: nat := 16
  const StatusLength: nat := 21

  datatype DecodeError = MalformedFrame

  /** The big-endian 16-bit value of two bytes (`hi << 8 | lo`). */
  function Word(hi: Byte, lo: Byte): (w: int)
    ensures 0 <= w <= 0xFFFF
  {
    hi as int * 256 + lo as int
  }

  /** The 16-byte command frame of a configuration (the function the encoder is proved against). */
  function CommandFrame(c: Config): (frame: seq<Byte>)
    requires Encodable(c)
  {
    [c.manualTimeout / 256, c.manualTimeout % 256]
      + c.pump + [c.targetFlow] + c.targetLevel + c.minLevel + c.maxLevel
  }

  /**
   * `encode_command`: fills a zeroed 16-byte array index by index.  Bytes 0-1
   * are the timeout big-endian (`>> 8` and `& 0xff`), then the four pump
   * flags, the target flow and the target, minimum and maximum levels.
   */
  method EncodeCommand(c: Config) returns (frame: seq<Byte>)
    requires Encodable(c)
    ensures frame == CommandFrame(c)
  {
    var raw := new Byte[CommandLength];
    raw[0] := c.manualTimeout / 256;
    raw[1] := c.manualTimeout % 256;
    raw[2] := c.pump[0];
    raw[3] := c.pump[1];
    raw[4] := c.pump[2];
    raw[5] := c.pump[3];
    raw[6] := c.targetFlow;
    raw[7] := c.targetLevel[0];
    raw[8] := c.targetLevel[1];
    raw[9] := c.targetLevel[2];
    raw[10] := c.minLevel[0];
    raw[11] := c.minLevel[1];
    raw[12] := c.minLevel[2];
    raw[13] := c.maxLevel[0];
    raw[14] := c.maxLevel[1];
    raw[15] := c.maxLevel[2];
    frame := raw[..];
    // the stored bytes, read back one by one
    assert frame[0] == c.manualTimeout / 256;
    assert frame[1] == c.manualTimeout % 256;
    assert frame[2] == c.pump[0];
    assert frame[3] == c.pump[1];
    assert frame[4] == c.pump[2];
    assert frame[5] == c.pump[3];
    assert frame[6] == c.targetFlow;
    assert frame[7] == c.targetLevel[0];
    assert frame[8] == c.targetLevel[1];
    assert frame[9] == c.targetLevel[2];
    assert frame[10] == c.minLevel[0];
    assert frame[11] == c.minLevel[1];
    assert frame[12] == c.minLevel[2];
    assert frame[13] == c.maxLevel[0];
    assert frame[14] == c.maxLevel[1];
    assert frame[15] == c.maxLevel[2];
    CommandFrameBytes(c);
  }

  /** The command frame byte by byte. */
  lemma CommandFrameBytes(c: Config)
    requires Encodable(c)
    ensures CommandFrame(c) == [c.manualTimeout / 256, c.manualTimeout % 256, c.pump[0], c.pump[1], c.pump[2], c.pump[3],
      c.targetFlow, c.targetLevel[0], c.targetLevel[1], c.targetLevel[2], c.minLevel[0], c.minLevel[1], c.minLevel[2],
      c.maxLevel[0], c.maxLevel[1], c.maxLevel[2]]
  {
    assert c.pump == [c.pump[0], c.pump[1], c.pump[2], c.pump[3]];
    assert c.targetLevel == [c.targetLevel[0], c.targetLevel[1], c.targetLevel[2]];
    assert c.minLevel == [c.minLevel[0], c.minLevel[1], c.minLevel[2]];
    assert c.maxLevel == [c.maxLevel[0], c.maxLevel[1], c.maxLevel[2]];
  }

  /** The command frame is 16 bytes: the timeout big-endian, then the settings in order. */
  lemma CommandFrameLayout(c: Config)
    requires Encodable(c)
    ensures var frame := CommandFrame(c);
      && |frame| == CommandLength
      && Word(frame[0], frame[1]) == c.manualTimeout
      && frame[2..6] == c.pump && frame[6] == c.targetFlow
      && frame[7..10] == c.targetLevel && frame[10..13] == c.minLevel && frame[13..16] == c.maxLevel
  {
    var frame := CommandFrame(c);
    assert frame[2..6] == c.pump;
    assert frame[7..10] == c.targetLevel;
    assert frame[10..13] == c.minLevel;
    assert frame[13..16] == c.maxLevel;
  }

  /**
   * `decode_status`: reads bytes 0-20 and nothing else.  Bytes 0-1 big-endian
   * are the remaining manual timeout unless both are 0xFF, the panic sentinel,
   * which decodes as `panic` with a zero timeout.  A frame shorter than 21 bytes
   * fails (the source's index error).
   */
  function DecodeStatus(raw: seq<Byte>): (r: Result<Reading, DecodeError>)
    ensures r.Ok? <==> |raw| >= StatusLength
    ensures r.Ok? ==> (r.value.panic <==> raw[0] == 0xFF && raw[1] == 0xFF)
    ensures r.Ok? && r.value.panic ==> r.value.manualTimeout == 0
    ensures r.Ok? && !r.value.panic ==> r.value.manualTimeout == Word(raw[0], raw[1]) < PanicSentinel
  {
    if |raw| < StatusLength then Err(MalformedFrame)
    else
      var timeout := Word(raw[0], raw[1]);
      Ok(Reading(
        panic := timeout == PanicSentinel,
        manualTimeout := if timeout == PanicSentinel then 0 else timeout,
        pump := raw[2..6],
        currentFlow := raw[6..8],
        targetFlow := raw[8],
        currentLevel := raw[9..12],
        targetLevel := raw[12..15],
        minLevel := raw[15..18],
        maxLevel := raw[18..21]))
  }

  /** Where each decoded field sits in the frame. */
  lemma DecodedLayout(raw: seq<Byte>)
    requires |raw| >= StatusLength
    ensures var rd := DecodeStatus(raw).value;
      && rd.pump == raw[2..6] && rd.currentFlow == raw[6..8] && rd.targetFlow == raw[8]
      && rd.currentLevel == raw[9..12] && rd.targetLevel == raw[12..15]
      && rd.minLevel == raw[15..18] && rd.maxLevel == raw[18..21]
  {}

  /** The readings a 21-byte frame can carry: byte-sized fields and a timeout that is not the sentinel. */
  predicate Representable(rd: Reading) {
    && (if rd.panic then rd.manualTimeout == 0 else 0 <= rd.manualTimeout < PanicSentinel)
    && AllBytes(rd.pump) && AllBytes(rd.currentFlow) && IsByte(rd.targetFlow)
    && AllBytes(rd.currentLevel) && AllBytes(rd.targetLevel)
    && AllBytes(rd.minLevel) && AllBytes(rd.maxLevel)
  }

  /**
   * The uplink frame a device sends for a reading: the reference encoder that
   * `DecodeStatus` inverts.
   */
  function StatusFrame(rd: Reading): (frame: seq<Byte>)
    requires Representable(rd)
  {
    var timeout := if rd.panic then PanicSentinel else rd.manualTimeout;
    [timeout / 256, timeout % 256] + rd.pump + rd.currentFlow + [rd.targetFlow]
      + rd.currentLevel + rd.targetLevel + rd.minLevel + rd.maxLevel
  }

  /** Decoding the frame of a representable reading gives the reading back. */
  lemma DecodeStatusFrame(rd: Reading)
    requires Representable(rd)
    ensures |StatusFrame(rd)| == StatusLength
    ensures DecodeStatus(StatusFrame(rd)) == Ok(rd)
  {
    var f := StatusFrame(rd);
    assert f[2..6] == rd.pump;
    assert f[6..8] == rd.currentFlow;
    assert f[9..12] == rd.currentLevel;
    assert f[12..15] == rd.targetLevel;
    assert f[15..18] == rd.minLevel;
    assert f[18..21] == rd.maxLevel;
  }

  /**
   * Every decodable frame is the frame of a representable reading, up to the
   * bytes past index 20, which decoding ignores.
   */
  lemma StatusFrameOfDecoded(raw: seq<Byte>)
    requires |raw| >= StatusLength
    ensures DecodeStatus(raw).Ok? && Representable(DecodeStatus(raw).value)
    ensures StatusFrame(DecodeStatus(raw).value) == raw[..StatusLength]
    ensures DecodeStatus(raw) == DecodeStatus(raw[..StatusLength])
  {
    var rd := DecodeStatus(raw).value;
    var f := StatusFrame(rd);
    assert |f| == StatusLength;
    forall i | 0 <= i < StatusLength ensures f[i] == raw[i] {
      if i == 0 || i == 1 {
        assert (if rd.panic then PanicSentinel else rd.manualTimeout) == Word(raw[0], raw[1]);
      }
    }
    DecodeStatusFrame(rd);
  }

  /**
   * The status and command frames share their first six bytes (timeout and
   * pumps).  A status frame that starts like the command frame of `c` decodes
   * to `c`'s timeout and pumps, unless the timeout is the sentinel value, which
   * reads back as panic.
   */
  lemma SharedPrefixRoundTrip(c: Config, raw: seq<Byte>)
    requires Encodable(c)
    requires |raw| >= StatusLength && raw[..6] == CommandFrame(c)[..6]
    ensures DecodeStatus(raw).Ok?
    ensures DecodeStatus(raw).value.pump == c.pump
    ensures c.manualTimeout != PanicSentinel ==>
              !DecodeStatus(raw).value.panic && DecodeStatus(raw).value.manualTimeout == c.manualTimeout
    ensures c.manualTimeout == PanicSentinel ==>
              DecodeStatus(raw).value.panic && DecodeStatus(raw).value.manualTimeout == 0
  {
    var f := CommandFrame(c);
    assert raw[0] == f[0] && raw[1] == f[1];
    assert raw[2..6] == raw[..6][2..6] == f[..6][2..6] == c.pump;
  }
}
