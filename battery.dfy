/**
 * controller-sketch/battery.h: the device side of one battery.  `Battery`
 * counts its manual-mode timeout down in milliseconds and latches panic;
 * `FlowController` counts the pulses of its flow sensor.  The pump, PID and
 * floating-point flow and level arithmetic are not part of this model; the
 * results of the level controllers' cycles are a parameter.
 */
module Controller {

  /** `unsigned long` on the controller: 32 bits. */
  const Modulus: int := 0x1_0000_0000
  type U32 = x: int | 0 <= x < 0x1_0000_0000

  /** `int` and `unsigned int` on the controller: 16 bits (five minutes in ms overflows an `int`). */
  const Modulus16: int := 0x1_0000
  type U16 = x: int | 0 <= x < 0x1_0000

  /** One minute in milliseconds, the unit of `setManualTimeout`. */
  const MillisPerMinute: int := 60000

  /** The longest manual timeout `setManualTimeout` can be given, in milliseconds. */
  const MaxMillis: int := 0xFFFF * 60000

  /** `digitalRead` high. */
  const High: int := 1

  // ---------------------------------------------------------------------------
  // Timer arithmetic on unsigned longs and unsigned ints

  /** `now - lastCycle` on unsigned longs: the time since `lastCycle`, across a wrap of the clock. */
  function Elapsed(lastCycle: U32, now: U32): (d: U32)
    ensures (lastCycle + d) % Modulus == now
    ensures lastCycle <= now ==> d == now - lastCycle
    ensures now < lastCycle ==> d == Modulus - lastCycle + now
  {
    (now - lastCycle) % Modulus
  }

  /** `manualTimeout -= min(manualTimeout, elapsed)`: saturating subtraction. */
  function Countdown(timeout: U32, elapsed: U32): (t: U32)
    ensures t <= timeout
    ensures t == 0 <==> elapsed >= timeout
    ensures t > 0 ==> t == timeout - elapsed
  {
    timeout - if timeout < elapsed then timeout else elapsed
  }

  /** Counting down twice is counting down once by the sum, as long as the sum fits. */
  lemma CountdownTwice(timeout: U32, a: U32, b: U32)
    requires a + b < Modulus
    ensures Countdown(Countdown(timeout, a), b) == Countdown(timeout, a + b)
  {}

  /**
   * `timeout*60000`: the 16-bit timeout times the `long` constant, stored into
   * the `unsigned long`.  Every product fits 32 bits.
   */
  function MinutesToMillis(minutes: U16): (ms: U32)
    ensures ms == minutes * MillisPerMinute && ms <= MaxMillis
  {
    minutes * MillisPerMinute
  }

  /** `manualTimeout / 60000` returned as an `unsigned int`: whole minutes, truncated to 16 bits. */
  function MillisToMinutes(ms: U32): (minutes: U16)
    ensures ms <= MaxMillis ==> minutes * MillisPerMinute <= ms < (minutes + 1) * MillisPerMinute
  {
    (ms / MillisPerMinute) % Modulus16
  }

  /** Reading back a timeout gives the minutes that were set. */
  lemma MinutesRoundTrip(minutes: U16)
    ensures MillisToMinutes(MinutesToMillis(minutes)) == minutes
  {
    assert MinutesToMillis(minutes) / MillisPerMinute == minutes;
  }

  /** Counting down keeps the remaining time readable in whole minutes. */
  lemma CountdownReadable(timeout: U32, elapsed: U32)
    requires timeout <= MaxMillis
    ensures Countdown(timeout, elapsed) <= MaxMillis
    ensures MillisToMinutes(Countdown(timeout, elapsed)) <= MillisToMinutes(timeout)
  {
    var t := Countdown(timeout, elapsed);
    assert t / MillisPerMinute <= timeout / MillisPerMinute;
    assert timeout / MillisPerMinute < Modulus16;
  }

  // ---------------------------------------------------------------------------
  // Pulse counting

  /** The rising edges of a sequence of sensor readings, starting from the reading `last`. */
  function Edges(last: int, readings: seq<int>): (n: nat)
    ensures n <= |readings|
    decreases |readings|
  {
    if readings == [] then 0
    else (if readings[0] == High && last != High then 1 else 0) + Edges(readings[0], readings[1..])
  }

  /** No two consecutive readings are both rising edges, so at most every other reading counts. */
  lemma {:induction false} EdgesBound(last: int, readings: seq<int>)
    ensures Edges(last, readings) <= (|readings| + (if last == High then 0 else 1)) / 2
    decreases |readings|
  {
    if readings != [] {
      EdgesBound(readings[0], readings[1..]);
    }
  }

  /** A steady reading counts nothing. */
  lemma {:induction false} SteadyCountsNothing(last: int, readings: seq<int>)
    requires forall i :: 0 <= i < |readings| ==> readings[i] == last
    ensures Edges(last, readings) == 0
    decreases |readings|
  {
    if readings != [] {
      SteadyCountsNothing(readings[0], readings[1..]);
    }
  }

  /** Edges of consecutive stretches of readings add up. */
  lemma {:induction false} EdgesConcat(last: int, a: seq<int>, b: seq<int>)
    requires a != []
    ensures Edges(last, a + b) == Edges(last, a) + Edges(a[|a| - 1], b)
    decreases |a|
  {
    assert (a + b)[0] == a[0] && (a + b)[1..] == a[1..] + b;
    if |a| > 1 {
      EdgesConcat(a[0], a[1..], b);
      assert a[1..][|a[1..]| - 1] == a[|a| - 1];
    } else {
      assert a[1..] == [] && a[1..] + b == b;
    }
  }

  class FlowController {
    const sensorPin: int
    const pumpPin: int
    var lastSensorState: int
    var flowCounter: int

    /** The initial `lastSensorState` is left unset by the source; here the caller gives it. */
    constructor(sensorPin: int, pumpPin: int, initialSensorState: int)
      ensures this.sensorPin == sensorPin && this.pumpPin == pumpPin
      ensures flowCounter == 0 && lastSensorState == initialSensorState
    {
      this.sensorPin := sensorPin;
      this.pumpPin := pumpPin;
      lastSensorState := initialSensorState;
      flowCounter := 0;
    }

    /** `doLoop` for the reading `sensorState`: count a rising edge, remember the reading. */
    method DoLoop(sensorState: int)
      modifies this
      ensures flowCounter == old(flowCounter) + Edges(old(lastSensorState), [sensorState])
      ensures lastSensorState == sensorState
    {
      if sensorState != lastSensorState {
        if sensorState == High {
          flowCounter := flowCounter + 1;
        }
        lastSensorState := sensorState;
      }
    }

    /** The counting part of `doCycle`: the pulses of the cycle are cleared; it never reports panic. */
    method DoCycle(manual: bool) returns (alarm: bool)
      modifies this
      ensures flowCounter == 0 && lastSensorState == old(lastSensorState) && !alarm
    {
      flowCounter := 0;
      alarm := false;
    }
  }

  class Battery {
    /** `flow[2]`: the flow controllers, attached after construction. */
    const flow: array<FlowController?>
    /** Remaining manual-mode time in milliseconds. */
    var manualTimeout: U32
    /** Latched once any sub-controller reports an out-of-range cycle. */
    var panic: bool

    constructor()
      ensures manualTimeout == 0 && !panic
      ensures flow.Length == 2 && fresh(flow) && flow[0] == null && flow[1] == null
    {
      manualTimeout := 0;
      panic := false;
      flow := new FlowController?[2](_ => null);
    }

    /** `attachFlowController`: a new controller in slot `i`. */
    method AttachFlowController(i: int, sensorPin: int, pumpPin: int, initialSensorState: int)
      requires 0 <= i < flow.Length
      modifies flow
      ensures flow[i] != null && fresh(flow[i]) && flow[i].flowCounter == 0 && flow[i].lastSensorState == initialSensorState
      ensures forall j :: 0 <= j < flow.Length && j != i ==> flow[j] == old(flow[j])
    {
      flow[i] := new FlowController(sensorPin, pumpPin, initialSensorState);
    }

    /** `setManualTimeout`: a positive timeout in minutes replaces the remaining time; zero is ignored. */
    method SetManualTimeout(timeout: U16)
      modifies this
      ensures timeout > 0 ==> manualTimeout == MinutesToMillis(timeout)
      ensures timeout == 0 ==> manualTimeout == old(manualTimeout)
      ensures panic == old(panic)
    {
      if timeout > 0 {
        manualTimeout := MinutesToMillis(timeout);
      }
    }

    /** `getManualTimeout`: the remaining time in whole minutes. */
    method GetManualTimeout() returns (minutes: U16)
      ensures minutes == MillisToMinutes(manualTimeout)
    {
      minutes := (manualTimeout / MillisPerMinute) % Modulus16;
    }

    predicate Attached()
      reads this, flow
    {
      flow.Length == 2 && flow[0] != null && flow[1] != null
    }

    /**
     * `doCycle`: count the manual timeout down by the time since `lastCycle`,
     * run every sub-controller's cycle with `manual` set exactly when time is
     * left, and latch panic if any of them reports it.  `levelAlarm(i, manual)`
     * is the result of level controller `i`'s cycle.
     */
    method DoCycle(lastCycle: U32, now: U32, levelAlarm: (int, bool) -> bool) returns (result: bool)
      requires Attached()
      modifies this, flow[0], flow[1]
      ensures manualTimeout == Countdown(old(manualTimeout), Elapsed(lastCycle, now))
      ensures var manual := manualTimeout > 0;
        panic == (old(panic) || levelAlarm(0, manual) || levelAlarm(1, manual) || levelAlarm(2, manual))
      ensures result == panic
      ensures flow[0].flowCounter == 0 && flow[1].flowCounter == 0
      ensures flow[0].lastSensorState == old(flow[0].lastSensorState) && flow[1].lastSensorState == old(flow[1].lastSensorState)
    {
      var elapsed := Elapsed(lastCycle, now);
      manualTimeout := manualTimeout - (if manualTimeout < elapsed then manualTimeout else elapsed);
      var manual := manualTimeout > 0;
      var i := 0;
      while i < 2
        invariant 0 <= i <= 2
        invariant panic == old(panic) && manualTimeout == Countdown(old(manualTimeout), elapsed)
        invariant forall j :: 0 <= j < i ==> flow[j].flowCounter == 0
        invariant forall j :: 0 <= j < 2 ==> flow[j].lastSensorState == old(flow[j].lastSensorState)
      {
        var alarm := flow[i].DoCycle(manual);
        panic := panic || alarm;
        i := i + 1;
      }
      i := 0;
      while i < 3
        invariant 0 <= i <= 3
        invariant panic == (old(panic) || exists j :: 0 <= j < i && levelAlarm(j, manual))
        invariant manualTimeout == Countdown(old(manualTimeout), elapsed)
        invariant forall j :: 0 <= j < 2 ==> flow[j].flowCounter == 0
        invariant forall j :: 0 <= j < 2 ==> flow[j].lastSensorState == old(flow[j].lastSensorState)
      {
        panic := panic || levelAlarm(i, manual);
        i := i + 1;
      }
      assert (exists j :: 0 <= j < 3 && levelAlarm(j, manual)) <==> levelAlarm(0, manual) || levelAlarm(1, manual) || levelAlarm(2, manual);
      result := panic;
    }

    /**
     * `doLoop` for the flow sensors' readings: each flow controller counts a
     * rising edge of its own sensor.  (The `manual` flag computed here only
     * drives the pumps, which are not modelled.)
     */
    method DoLoop(readings: seq<int>)
      requires Attached() && |readings| == 2 && flow[0] != flow[1]
      modifies flow[0], flow[1]
      ensures forall j :: 0 <= j < 2 ==>
        flow[j].flowCounter == old(flow[j].flowCounter) + Edges(old(flow[j].lastSensorState), [readings[j]])
        && flow[j].lastSensorState == readings[j]
    {
      flow[0].DoLoop(readings[0]);
      flow[1].DoLoop(readings[1]);
    }
  }
}
