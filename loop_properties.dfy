/** What one pass, and a run of passes, of the event loop guarantees. */
module LoopProperties {
  import opened CTypes
  import opened Wrappers
  import opened Conversions
  import opened Payload
  import opened EventLoop

  /** Whether the handler of source m runs in pass p: its bit is set when the
      loop reaches it. */
  predicate Serviced(s: LoopState, inp: Inputs, m: Mask)
  {
    IsSet(Snapshot(s, inp), m)
  }

  /** main.c:78-92. A successful measurement is converted and, unless the same
      pass resets the device, reported. */
  lemma MeasurementReported(s: LoopState, inp: Inputs)
    requires Defined(s, inp)
    requires Serviced(s, inp, RTC) && inp.measurement.Measured?
    ensures var r := Pass(s, inp);
      && r.state.temperature == Temperature(inp.measurement.t)
      && r.state.humidity == Humidity(inp.measurement.h)
      && r.state.battery == Battery(inp.battery)
      && (r.outcome.sent.Some? <==> !r.outcome.reset)
  {
  }

  /** main.c:78-84, main.c:140. A failed measurement zeroes the sample and
      produces silence: no message, and the counter stays where it was. */
  lemma FailedMeasurementIsSilent(s: LoopState, inp: Inputs)
    requires !s.send && Defined(s, inp)
    requires Serviced(s, inp, RTC) && inp.measurement == SensorFailed
    ensures var r := Pass(s, inp);
      && r.state.temperature == 0 && r.state.humidity == 0 && r.state.battery == 0
      && r.outcome.sent == None && r.state.count == s.count && !r.state.send
  {
  }

  /** Without an RTC alarm in this pass nothing is measured or sent. */
  lemma NoAlarmNoReport(s: LoopState, inp: Inputs)
    requires !s.send && Defined(s, inp)
    requires !Serviced(s, inp, RTC)
    ensures var r := Pass(s, inp);
      && r.outcome.sent == None && r.state.count == s.count && r.state.payload == s.payload
      && r.state.temperature == s.temperature && r.state.humidity == s.humidity
      && r.state.battery == s.battery
  {
  }

  /** main.c:143-150, main.c:22. What goes on the wire: five bytes, marker,
      the counter before this send, the sample; no acknowledgement asked. */
  lemma WireFormat(s: LoopState, inp: Inputs)
    requires Defined(s, inp)
    ensures var r := Pass(s, inp);
      r.outcome.sent.Some? ==>
        var tx := r.outcome.sent.value;
        && tx.length == PAYLOAD_SIZE && !tx.ackRequested
        && tx.bytes == r.state.payload
        && tx.bytes == [0xAA, s.count, SignedToByte(r.state.temperature), r.state.humidity, r.state.battery]
        && Decode(tx.bytes) == Some(Payload.Report(s.count, r.state.temperature, r.state.humidity, r.state.battery))
  {
    var r := Pass(s, inp);
    if r.outcome.sent.Some? {
      DecodeEncode(Payload.Report(s.count, r.state.temperature, r.state.humidity, r.state.battery));
    }
  }

  /** main.c:151-154. The counter advances by one modulo 256 exactly when a
      message was sent and the radio returned success; nothing else moves it. */
  lemma CounterRule(s: LoopState, inp: Inputs)
    requires Defined(s, inp)
    ensures var r := Pass(s, inp);
      && r.state.count == (if r.outcome.sent.Some? && inp.radio == RadioOk then (s.count + 1) % 256 else s.count)
      && (r.state.count != s.count <==> r.outcome.sent.Some? && inp.radio == RadioOk)
  {
  }

  /** main.c:34, main.c:159. Every pass that does not reset ends with `send`
      clear, so with `send` clear at start-up each pass sends at most one
      message. */
  lemma SendClearedEveryPass(s: LoopState, inp: Inputs)
    requires Defined(s, inp)
    ensures var r := Pass(s, inp); !r.outcome.reset ==> !r.state.send
  {
  }

  /** The pending mask a pass that does not reset leaves behind: the bits of
      the snapshot outside the four sources, plus the RTC bit when two presses
      forced a new alarm. */
  function Remaining(p: Mask, forced: bool): Mask
  {
    (p & !ALL_SOURCES) | (if forced then RTC else 0)
  }

  /** The mask operations of the four handlers, in their order, on plain bits. */
  lemma MaskFlow(p0: Mask, forced: bool)
    ensures var p1 := if IsSet(p0, RTC) then ClearFlag(p0, RTC) else p0;
      IsSet(p1, BUTTON) == IsSet(p0, BUTTON)
      && var p2 := if IsSet(p1, BUTTON)
                   then ClearFlag(if forced then p1 | RTC else p1, BUTTON) else p1;
         var p3 := if IsSet(p2, REED_SWITCH) then ClearFlag(p2, REED_SWITCH) else p2;
         var p4 := if IsSet(p3, FXOS8700) then ClearFlag(p3, FXOS8700) else p3;
         p4 == Remaining(p0, forced && IsSet(p0, BUTTON))
  {
  }

  lemma RemainingBits(p: Mask, forced: bool)
    ensures Remaining(p, forced) & (BUTTON | REED_SWITCH | FXOS8700) == 0
    ensures IsSet(Remaining(p, forced), RTC) <==> forced
    ensures Remaining(p, forced) & !ALL_SOURCES == p & !ALL_SOURCES
  {
  }

  lemma PendingAfterPass(s: LoopState, inp: Inputs)
    requires Defined(s, inp)
    ensures var r := Pass(s, inp);
      !r.outcome.reset ==>
        r.state.pending == Remaining(Snapshot(s, inp), Serviced(s, inp, BUTTON) && inp.gesture == TwoPresses)
  {
    var p0 := Snapshot(s, inp);
    MaskFlow(p0, inp.gesture == TwoPresses);
  }

  /** main.c:95, 110-114, 122, 129, 136. After a pass that did not reset, the
      button, reed switch and accelerometer bits are clear, the RTC bit is set
      exactly when the button handler saw two presses, and every bit outside
      the four sources is as the snapshot had it. */
  lemma FlagsAfterPass(s: LoopState, inp: Inputs)
    requires Defined(s, inp)
    ensures var r := Pass(s, inp);
      !r.outcome.reset ==>
        && r.state.pending & (BUTTON | REED_SWITCH | FXOS8700) == 0
        && (IsSet(r.state.pending, RTC) <==> Serviced(s, inp, BUTTON) && inp.gesture == TwoPresses)
        && r.state.pending & !ALL_SOURCES == Snapshot(s, inp) & !ALL_SOURCES
  {
    PendingAfterPass(s, inp);
    RemainingBits(Snapshot(s, inp), Serviced(s, inp, BUTTON) && inp.gesture == TwoPresses);
  }

  /** main.c:115-119. The device resets exactly when the button handler sees
      four presses; that pass sends nothing, does not sleep, leaves the counter
      alone and never clears the button bit. */
  lemma ResetRule(s: LoopState, inp: Inputs)
    requires Defined(s, inp)
    ensures var r := Pass(s, inp);
      && (r.outcome.reset <==> Serviced(s, inp, BUTTON) && inp.gesture == FourPresses)
      && (r.outcome.reset ==>
            r.outcome.sent == None && !r.outcome.slept && r.state.count == s.count
            && IsSet(r.state.pending, BUTTON))
  {
  }

  /** main.c:163-166. The node sleeps exactly when the pass did not reset and
      left no bit pending; a pass that saw two presses never sleeps. */
  lemma SleepRule(s: LoopState, inp: Inputs)
    requires Defined(s, inp)
    ensures var r := Pass(s, inp);
      && (r.outcome.slept <==> !r.outcome.reset && r.state.pending == 0)
      && (Serviced(s, inp, BUTTON) && inp.gesture == TwoPresses ==> !r.outcome.slept)
  {
    FlagsAfterPass(s, inp);
  }

  /** main.c:67-160. The handlers run in a fixed order, so an RTC alarm forced
      by two presses is not serviced in that pass: nothing is measured or sent
      then, and the next pass measures and reports exactly once. */
  lemma TwoPressesReportNextPass(s: LoopState, in1: Inputs, in2: Inputs)
    requires !s.send && Defined(s, in1)
    requires !Serviced(s, in1, RTC) && Serviced(s, in1, BUTTON) && in1.gesture == TwoPresses
    requires in2.measurement.Measured? && TemperatureFits(in2.measurement.t)
    requires in2.gesture != FourPresses
    ensures var r1 := Pass(s, in1);
      && r1.outcome.sent == None && !r1.outcome.slept && !r1.outcome.reset
      && r1.state.temperature == s.temperature && IsSet(r1.state.pending, RTC)
      && var r2 := Pass(r1.state, in2);
         && Serviced(r1.state, in2, RTC)
         && r2.outcome.sent.Some?
         && r2.outcome.sent.value.bytes
            == Encode(Payload.Report(s.count, Temperature(in2.measurement.t),
                                     Humidity(in2.measurement.h), Battery(in2.battery)))
  {
    FlagsAfterPass(s, in1);
    var r1 := Pass(s, in1);
    assert IsSet(Snapshot(r1.state, in2), RTC);
  }

  /** Every measurement of a run can be converted to `s8`. */
  predicate AllFit(ins: seq<Inputs>)
  {
    forall i :: 0 <= i < |ins| && ins[i].measurement.Measured? ==> TemperatureFits(ins[i].measurement.t)
  }

  /** Whether a pass delivered a message: it sent one and the radio said so. */
  predicate Delivered(r: PassResult, inp: Inputs)
  {
    r.outcome.sent.Some? && inp.radio == RadioOk
  }

  /** A run of passes fed with the given inputs, stopping at a reset: the final
      state and the number of messages delivered. */
  function Run(s: LoopState, ins: seq<Inputs>): (r: (LoopState, nat))
    requires AllFit(ins)
    ensures r.1 <= |ins|
    decreases |ins|
  {
    if ins == [] then (s, 0)
    else
      var r := Pass(s, ins[0]);
      var d := if Delivered(r, ins[0]) then 1 else 0;
      if r.outcome.reset then (r.state, d)
      else
        AllFitTail(ins);
        var (f, n) := Run(r.state, ins[1..]);
        (f, n + d)
  }

  /** The counter is a sequence number of delivered messages: after any run it
      equals its start value plus the number of successful sends, modulo 256,
      whatever failed in between. */
  lemma {:induction false} CounterCountsDeliveries(s: LoopState, ins: seq<Inputs>)
    requires AllFit(ins)
    ensures Run(s, ins).0.count == (s.count + Run(s, ins).1) % 256
    decreases |ins|
  {
    if ins != [] {
      var r := Pass(s, ins[0]);
      var d := if Delivered(r, ins[0]) then 1 else 0;
      CounterStep(s, ins[0]);
      if !r.outcome.reset {
        AllFitTail(ins);
        CounterCountsDeliveries(r.state, ins[1..]);
        ModAddAssoc(s.count + d, Run(r.state, ins[1..]).1);
      }
    }
  }

  /** CounterRule in the terms of `Delivered`. */
  lemma CounterStep(s: LoopState, inp: Inputs)
    requires Defined(s, inp)
    ensures Pass(s, inp).state.count == (s.count + if Delivered(Pass(s, inp), inp) then 1 else 0) % 256
  {
    CounterRule(s, inp);
  }

  lemma AllFitTail(ins: seq<Inputs>)
    requires AllFit(ins) && ins != []
    ensures AllFit(ins[1..])
  {
    forall i | 0 <= i < |ins[1..]| && ins[1..][i].measurement.Measured?
      ensures TemperatureFits(ins[1..][i].measurement.t)
    {
      assert ins[1..][i] == ins[i + 1];
    }
  }

  lemma ModAddAssoc(a: nat, n: nat)
    ensures (a % 256 + n) % 256 == (a + n) % 256
  {
    var q := a / 256;
    assert a == 256 * q + a % 256;
    assert a + n == (a % 256 + n) + 256 * q;
  }

  /** A worked pass: after start-up an RTC alarm with raw readings t = 12,
      h = 50 and b = 3700 sends [0xAA, 0, 2, 25, 37]; on success the counter
      becomes 1 and, with nothing left pending, the node sleeps. */
  lemma FirstReport()
    ensures var r := Pass(Initial(), Inputs(RTC, 3700, Measured(12, 50), OtherGesture, RadioOk));
      && r.outcome == Outcome(Some(Transmission([0xAA, 0, 2, 25, 37], 5, false)), false, true)
      && r.state.count == 1
  {
  }

  /** A worked pass: an RTC alarm whose measurement fails sends nothing and
      leaves the counter at 0. */
  lemma FirstMeasurementFails()
    ensures var r := Pass(Initial(), Inputs(RTC, 3700, SensorFailed, OtherGesture, RadioOk));
      && r.outcome == Outcome(None, false, true)
      && r.state.count == 0 && r.state.temperature == 0 && r.state.humidity == 0 && r.state.battery == 0
  {
  }
}
