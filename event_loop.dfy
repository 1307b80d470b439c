/** One pass of the firmware's cooperative event loop (main.c:62-168), as a
    specification function over the loop's state and as a class whose `Step`
    method updates that state in place. */
module EventLoop {
  import opened CTypes
  import opened Wrappers
  import opened Conversions
  import opened Payload

  /** `pending_interrupt`, one bit per interrupt source. The mask values sit in
      a header that is not part of this model; these are four distinct single
      bits, and nothing below depends on which. */
  type Mask = bv8
  const RTC: Mask := 0x01
  const BUTTON: Mask := 0x02
  const REED_SWITCH: Mask := 0x04
  const FXOS8700: Mask := 0x08
  const ALL_SOURCES: Mask := RTC | BUTTON | REED_SWITCH | FXOS8700

  /** The value of `BUTTON_handler()`. Only two gestures have an effect; every
      other value falls through both tests at main.c:110 and main.c:115. */
  datatype Gesture = TwoPresses | FourPresses | OtherGesture

  /** The outcome of `HTS221_measure(&t, &h)`. */
  datatype Measurement = Measured(t: s16, h: u16) | SensorFailed

  /** Whether `RADIO_API_send_message` returned `RADIO_ERR_NONE`. */
  datatype RadioStatus = RadioOk | RadioFailed

  /** What the outside world supplies to one pass: the interrupt bits set by
      the interrupt routines since the previous pass, and the results the
      driver calls return in this pass (each used only if that call is made). */
  datatype Inputs = Inputs(arrived: Mask, battery: u16, measurement: Measurement,
                           gesture: Gesture, radio: RadioStatus)

  /** The arguments of one `RADIO_API_send_message` call. */
  datatype Transmission = Transmission(bytes: seq<u8>, length: nat, ackRequested: bool)

  /** What one pass does to the outside world. */
  datatype Outcome = Outcome(sent: Option<Transmission>, reset: bool, slept: bool)

  /** The loop's variables: the interrupt mask, the locals of `main` that
      survive from pass to pass, and the contents of the `payload` buffer. */
  datatype LoopState = LoopState(pending: Mask, send: bool, count: u8,
                                 temperature: s8, humidity: u8, battery: u8,
                                 payload: seq<u8>)

  datatype PassResult = PassResult(state: LoopState, outcome: Outcome)

  /** The test `(pending_interrupt & MASK) == MASK`. */
  predicate IsSet(p: Mask, m: Mask)
  {
    p & m == m
  }

  /** `pending_interrupt &= ~MASK`: the bits of m are clear afterwards and
      every other bit is as it was. */
  function ClearFlag(p: Mask, m: Mask): (r: Mask)
    ensures r & m == 0
    ensures r & !m == p & !m
  {
    p & !m
  }

  /** The state right after initialisation (main.c:34-39, main.c:58). */
  function Initial(): (s: LoopState)
    ensures s.pending == 0 && !s.send && s.count == 0
  {
    LoopState(0, false, 0, 0, 0, 0, [0, 0, 0, 0, 0])
  }

  /** The pending mask at the start of a pass. */
  function Snapshot(s: LoopState, inp: Inputs): Mask
  {
    s.pending | inp.arrived
  }

  /** Whether the `s8` cast at main.c:87 is defined in this pass: it is only
      reached when the RTC handler runs and the measurement succeeds. */
  predicate Defined(s: LoopState, inp: Inputs)
  {
    IsSet(Snapshot(s, inp), RTC) && inp.measurement.Measured? ==> TemperatureFits(inp.measurement.t)
  }

  /** The RTC alarm handler, main.c:67-96. */
  function RtcHandler(s: LoopState, m: Measurement, b: u16): (r: LoopState)
    requires m.Measured? ==> TemperatureFits(m.t)
    ensures r.pending & RTC == 0 && r.pending & !RTC == s.pending & !RTC
    ensures r.count == s.count && r.payload == s.payload
    ensures m.SensorFailed? ==> r.temperature == 0 && r.humidity == 0 && r.battery == 0 && r.send == s.send
    ensures m.Measured? ==> && r.temperature == Temperature(m.t) && r.humidity == Humidity(m.h)
                            && r.battery == Battery(b) && r.send
  {
    var cleared := s.(pending := ClearFlag(s.pending, RTC));
    match m
    case SensorFailed =>
      cleared.(temperature := 0, humidity := 0, battery := 0)
    case Measured(t, h) =>
      cleared.(temperature := Temperature(t), humidity := Humidity(h), battery := Battery(b), send := true)
  }

  /** The button handler, main.c:99-123, for a gesture other than four
      presses (that one resets the device and does not return). */
  function ButtonHandler(s: LoopState, g: Gesture): (r: LoopState)
    requires g != FourPresses
    ensures r == s.(pending := r.pending)
    ensures r.pending & BUTTON == 0
    ensures IsSet(r.pending, RTC) <==> IsSet(s.pending, RTC) || g == TwoPresses
    ensures r.pending & !(BUTTON | RTC) == s.pending & !(BUTTON | RTC)
  {
    var p := if g == TwoPresses then s.pending | RTC else s.pending;
    s.(pending := ClearFlag(p, BUTTON))
  }

  /** The report, main.c:140-160: the message is built from the counter's
      value before the send, and the counter moves only on success. */
  function SendReport(s: LoopState, radio: RadioStatus): (r: PassResult)
    ensures r.outcome.sent.Some? && !r.outcome.reset && !r.state.send
    ensures var tx := r.outcome.sent.value;
      && tx.length == PAYLOAD_SIZE && !tx.ackRequested && tx.bytes == r.state.payload
      && Decode(tx.bytes) == Some(Payload.Report(s.count, s.temperature, s.humidity, s.battery))
    ensures r.state.count == if radio == RadioOk then (s.count + 1) % 256 else s.count
    ensures r.state.(payload := s.payload, count := s.count, send := s.send) == s
  {
    var report := Payload.Report(s.count, s.temperature, s.humidity, s.battery);
    var bytes := Encode(report);
    DecodeEncode(report);
    var count := if radio == RadioOk then ToU8(s.count + 1) else s.count;
    PassResult(s.(payload := bytes, count := count, send := false),
               Outcome(Some(Transmission(bytes, PAYLOAD_SIZE, false)), false, false))
  }

  /** A reserved handler (main.c:126-137): it only clears its own flag. */
  function ReservedHandler(s: LoopState, m: Mask): (r: LoopState)
    ensures r == s.(pending := r.pending)
    ensures r.pending & !m == s.pending & !m
    ensures IsSet(s.pending, m) ==> r.pending & m == 0
    ensures !IsSet(s.pending, m) ==> r == s
  {
    if IsSet(s.pending, m) then s.(pending := ClearFlag(s.pending, m)) else s
  }

  /** The report decision and the sleep test, main.c:140-167. */
  function Finish(s: LoopState, radio: RadioStatus): (f: PassResult)
    ensures f.outcome.sent.Some? <==> s.send
    ensures !f.outcome.reset && !f.state.send && f.state.pending == s.pending
    ensures f.outcome.slept <==> s.pending == 0
    ensures !s.send ==> f.state == s
  {
    var r := if s.send then SendReport(s, radio) else PassResult(s, Outcome(None, false, false));
    PassResult(r.state, r.outcome.(slept := r.state.pending == 0))
  }

  /** One whole pass: the handlers in their fixed order, then the report and
      the sleep test. */
  function Pass(s: LoopState, inp: Inputs): (r: PassResult)
    requires Defined(s, inp)
    ensures r.outcome.reset ==> r.outcome.sent == None && !r.outcome.slept
    ensures !r.outcome.reset ==> !r.state.send && (r.outcome.slept <==> r.state.pending == 0)
    ensures r.outcome.sent.Some? ==> r.outcome.sent.value.bytes == r.state.payload
  {
    var s0 := s.(pending := Snapshot(s, inp));
    var s1 := if IsSet(s0.pending, RTC) then RtcHandler(s0, inp.measurement, inp.battery) else s0;
    if IsSet(s1.pending, BUTTON) && inp.gesture == FourPresses then
      PassResult(s1, Outcome(None, true, false))
    else
      var s2 := if IsSet(s1.pending, BUTTON) then ButtonHandler(s1, inp.gesture) else s1;
      Finish(ReservedHandler(ReservedHandler(s2, REED_SWITCH), FXOS8700), inp.radio)
  }

  /** The loop state of `main`, updated in place by each pass. */
  class SensorNode {
    var pending: Mask
    var send: bool
    var count: u8
    var temperature: s8
    var humidity: u8
    var battery: u8
    const payload: array<u8>

    /** Between passes `send` is always false (main.c:34, main.c:159). */
    ghost predicate Valid()
      reads this
    {
      payload.Length == PAYLOAD_SIZE && !send
    }

    function State(): LoopState
      reads this, payload
    {
      LoopState(pending, send, count, temperature, humidity, battery, payload[..])
    }

    /** main.c:34-39 and main.c:58. */
    constructor ()
      ensures Valid() && fresh(payload)
      ensures State() == Initial()
    {
      pending, send, count := 0, false, 0;
      temperature, humidity, battery := 0, 0, 0;
      payload := new u8[PAYLOAD_SIZE](_ => 0);
      new;
      assert payload[..] == [0, 0, 0, 0, 0];
    }

    /** The RTC alarm handler, main.c:67-96. */
    method ServiceRtc(m: Measurement, b: u16)
      requires Valid() && IsSet(pending, RTC)
      requires m.Measured? ==> TemperatureFits(m.t)
      modifies this
      ensures payload.Length == PAYLOAD_SIZE
      ensures State() == RtcHandler(old(State()), m, b)
    {
      match m {
        case SensorFailed =>
          temperature := 0;
          humidity := 0;
          battery := 0;
        case Measured(t, h) =>
          temperature := Temperature(t);
          humidity := Humidity(h);
          battery := Battery(b);
          send := true;
      }
      pending := pending & !RTC;
    }

    /** The button handler, main.c:99-123, up to the reset. */
    method ServiceButton(g: Gesture)
      requires payload.Length == PAYLOAD_SIZE && IsSet(pending, BUTTON) && g != FourPresses
      modifies this
      ensures payload.Length == PAYLOAD_SIZE
      ensures State() == ButtonHandler(old(State()), g)
    {
      if g == TwoPresses {
        // force an RTC alarm to take a new measurement
        pending := pending | RTC;
      }
      pending := pending & !BUTTON;
    }

    /** The reed switch and accelerometer handlers, main.c:126-137. */
    method ServiceReserved()
      requires payload.Length == PAYLOAD_SIZE
      modifies this
      ensures payload.Length == PAYLOAD_SIZE
      ensures State() == ReservedHandler(ReservedHandler(old(State()), REED_SWITCH), FXOS8700)
    {
      if pending & REED_SWITCH == REED_SWITCH {
        pending := pending & !REED_SWITCH;
      }
      ghost var s := State();
      if pending & FXOS8700 == FXOS8700 {
        pending := pending & !FXOS8700;
      }
      assert State() == ReservedHandler(s, FXOS8700);
    }

    /** The report decision and the sleep test, main.c:140-167. */
    method SendAndSleep(radio: RadioStatus) returns (out: Outcome)
      requires payload.Length == PAYLOAD_SIZE
      modifies this, payload
      ensures Finish(old(State()), radio) == PassResult(State(), out)
    {
      var sent := None;
      if send {
        payload[0] := MARKER;
        payload[1] := count;
        payload[2] := SignedToByte(temperature);
        payload[3] := humidity;
        payload[4] := battery;
        assert payload[..] == Encode(Payload.Report(count, temperature, humidity, battery));
        // the radio is handed the buffer, its length 5 and no acknowledgement request
        sent := Some(Transmission(payload[..], PAYLOAD_SIZE, false));
        if radio == RadioOk {
          count := ToU8(count + 1);
        }
        send := false;
      }
      out := Outcome(sent, false, pending == 0);
    }

    /** One pass of `while (TRUE)`, main.c:62-168. */
    method Step(inp: Inputs) returns (out: Outcome)
      requires Valid()
      requires Defined(State(), inp)
      modifies this, payload
      ensures Pass(old(State()), inp) == PassResult(State(), out)
      ensures !out.reset ==> Valid()
    {
      // interrupts raised since the previous pass
      pending := pending | inp.arrived;
      if pending & RTC == RTC {
        ServiceRtc(inp.measurement, inp.battery);
      }
      if pending & BUTTON == BUTTON {
        if inp.gesture == FourPresses {
          // SENSIT_API_reset() does not return
          return Outcome(None, true, false);
        }
        ServiceButton(inp.gesture);
      }
      ServiceReserved();
      out := SendAndSleep(inp.radio);
    }
  }
}
