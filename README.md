# Sens'it temperature firmware: the event loop

This project models the main loop of the Sens'it "temperature" discovery
firmware (`main.c`). After initialisation, `main` runs `while (TRUE)` forever.
Each pass handles the pending hardware interrupts in a fixed order:

1. An RTC alarm reads the battery and the HTS221 temperature/humidity sensor,
   then converts the readings.
2. A button interrupt reads a press gesture. Two presses re-arm the RTC flag;
   four presses reset the device.
3. The reed-switch and accelerometer flags are cleared.
4. If a measurement succeeded, a 5-byte message goes out over Sigfox. The
   8-bit sequence counter moves only when the radio reports success.
5. The node sleeps only when no interrupt bit is left pending.

The model has these parts:

- `CTypes` holds the C integer types (`u8`, `s8`, `u16`, `s16`) and the
  conversions between them.
- `Conversions` holds the three conversions of raw readings (main.c:87-89), in
  exact integer arithmetic.
- `Payload` holds the message layout (main.c:143-147), with a decoder as its
  inverse.
- `EventLoop` holds the pass itself.
  - `Pass` is a function from the loop state and the pass's inputs to the new
    state and what the pass did: the message sent, if any; whether it reset;
    whether it slept.
  - `SensorNode` is a class holding the loop's variables. Its `Step` method does
    one pass in place: it clears and sets mask bits and writes the `payload`
    buffer element by element. `Step` is proved to agree with `Pass`. Each
    section of the loop body is a helper method of its own.
- `LoopProperties` holds lemmas about `Pass`, and about `Run`, a sequence of
  passes that stops at a reset.

Each pass gets the results of the driver calls as inputs:

- the interrupt bits raised since the previous pass;
- the battery reading;
- the sensor result;
- the gesture;
- the radio status.

An input is used only if the source would make that call in that pass.

The mask values `INTERRUPT_MASK_RTC`, `_BUTTON`, `_REED_SWITCH` and `_FXOS8700`
are defined in a header that is not part of this model. The model uses 0x01,
0x02, 0x04 and 0x08 on an 8-bit mask. The proofs only use the fact that these
are four distinct single bits.

Temperature conversion:

- The code computes `(s8)((float)t / 8.0F + 0.5F)`. This float expression is
  exact for every `s16`, and the cast truncates toward zero.
- Adding `+ 0.5F` before the cast reads as rounding half up. Because the cast
  truncates toward zero, the result is not always that.
- For t >= -4 the result is t/8 rounded half up.
- For t < -4 the result is one more than rounding half up, unless t + 4 is a
  multiple of 8. Raw -8 (exactly -1.0 degrees) is reported as 0; raw -12 gives
  -1 either way.
- `Conversions.TemperatureVersusRounding` states exactly where the two differ.

## Model

| member | source | states |
|---|---|---|
| CTypes.ToU8 | main.c:88 | conversion to `u8` keeps the value modulo 256 and is the identity on 0..255 |
| CTypes.SignedToByte | main.c:145 | an `s8` stored in a `u8` slot becomes its two's-complement byte; the byte's top bit is set exactly for negative values |
| CTypes.SignedByteRoundTrip | main.c:145 | reading the byte back as `s8` gives the original value, and the reverse |
| Conversions.TruncDiv | main.c:87 | the quotient rounds toward zero: bounded by d·q on either side according to the sign of the dividend |
| Conversions.Temperature | main.c:87 | the result is within half a degree of t/8, rounding half up, when t >= -4; below that, it is t/8 + 1/2 truncated toward zero |
| Conversions.TemperatureFitsRange | main.c:87 | the `s8` cast is defined exactly for raw readings -1035..1019 |
| Conversions.TemperatureVersusRounding | main.c:87 | the code agrees with rounding half up exactly when t >= -4 or t + 4 is a multiple of 8; otherwise it reports one more |
| Conversions.Humidity | main.c:88 | the result is the byte r with h - 2r congruent to h mod 2, modulo 512: h/2 reduced to a byte |
| Conversions.HumidityExact | main.c:88 | for h < 512 the result is h/2 rounded down, with nothing lost to the byte cast |
| Conversions.Battery | main.c:89 | the result is the byte r with b - 100r congruent to b mod 100, modulo 25600: b/100 reduced to a byte |
| Conversions.BatteryExact | main.c:89 | for b < 25600 the result is b/100 rounded down |
| Payload.Encode | main.c:143-147 | five bytes: 0xAA, the sequence number, the temperature as a two's-complement byte, the humidity, the battery |
| Payload.Decode | main.c:143-147 | accepts exactly the five-byte sequences that start with the marker |
| Payload.DecodeEncode | main.c:143-147 | decoding an encoded report gives the report back |
| Payload.EncodeDecode | main.c:143-147 | every accepted byte sequence is the encoding of what it decodes to |
| EventLoop.ClearFlag | main.c:95 | `&= ~mask` clears the mask's bits and leaves all other bits unchanged |
| EventLoop.Initial | main.c:34-58 | the loop starts with no pending bit, `send` false and the counter at 0 |
| EventLoop.SensorNode.constructor | main.c:34-58 | the fresh loop state is the initial state, with a zeroed 5-byte payload buffer and `send` false |
| EventLoop.SensorNode.ServiceRtc | main.c:67-96 | updates the fields exactly as the RTC handler of `Pass` does |
| EventLoop.SensorNode.ServiceButton | main.c:99-123 | updates the mask exactly as the button handler does, for a gesture other than four presses |
| EventLoop.SensorNode.ServiceReserved | main.c:126-137 | clears the reed-switch bit and then the accelerometer bit, and nothing else |
| EventLoop.SensorNode.SendAndSleep | main.c:140-167 | writes the payload buffer, returns the transmission, and updates counter, `send` and the sleep decision as `Pass` does |
| EventLoop.SensorNode.Step | main.c:62-168 | one pass in place: its new state and outcome are those of `Pass`; a pass that does not reset ends with `send` false |
| EventLoop.RtcHandler | main.c:67-96 | clears only the RTC bit; on success the sample is the three conversions and `send` is set; on failure the sample is zero and `send` is untouched; counter and payload unchanged |
| EventLoop.ButtonHandler | main.c:99-123 | changes only the mask: the button bit is clear, RTC is set exactly if it was or the gesture was two presses, other bits kept |
| EventLoop.ReservedHandler | main.c:126-137 | changes only the mask: the handled bit is cleared if set, other bits kept, and an unset flag leaves the state unchanged |
| EventLoop.SendReport | main.c:140-160 | sends one message of length 5, no acknowledgement, equal to the new payload buffer and decoding to [counter before the send, sample]; counter +1 mod 256 exactly on radio success; `send` cleared; nothing else changes |
| EventLoop.Finish | main.c:140-167 | a message is sent exactly when `send` is set; `send` ends clear, the mask is untouched, and the node sleeps exactly when the mask is 0 |
| EventLoop.Pass | main.c:62-168 | one whole pass: a reset sends nothing and does not sleep; any other pass ends with `send` clear and sleeps exactly when the mask is 0; a sent message is the payload buffer |
| LoopProperties.Run | main.c:62-168 | a run of passes up to a reset delivers at most one message per pass |
| LoopProperties.MeasurementReported | main.c:85-92 | on sensor success the sample is the three conversions of t, h and b, and a message is sent unless the pass resets |
| LoopProperties.FailedMeasurementIsSilent | main.c:78-84 | on sensor failure the sample is all zero, no message is sent and the counter is unchanged |
| LoopProperties.NoAlarmNoReport | main.c:140 | a pass without an RTC alarm sends nothing and leaves counter, sample and payload unchanged |
| LoopProperties.WireFormat | main.c:143-150 | a sent message is [0xAA, counter before the send, temperature byte, humidity, battery], length 5, no acknowledgement, and it decodes to that report |
| LoopProperties.CounterRule | main.c:151-154 | the counter becomes (count+1) mod 256 exactly when a message was sent and the radio returned success; otherwise it is unchanged |
| LoopProperties.SendClearedEveryPass | main.c:159 | every pass that does not reset ends with `send` false, whatever it started with |
| LoopProperties.MaskFlow | main.c:95-137 | the four handlers' mask operations, in order, leave the bits outside the four sources plus RTC exactly when two presses were handled |
| LoopProperties.RemainingBits | main.c:95-137 | the remaining mask has the button, reed and accelerometer bits clear, RTC set exactly when forced, and all other bits as before |
| LoopProperties.PendingAfterPass | main.c:62-137 | the mask after a pass that does not reset is the snapshot without the four sources, plus RTC when two presses were handled |
| LoopProperties.FlagsAfterPass | main.c:110-136 | after a pass that does not reset: button, reed and accelerometer bits clear; RTC set exactly after two presses; other bits unchanged |
| LoopProperties.ResetRule | main.c:115-119 | a reset happens exactly when the button handler sees four presses; that pass sends nothing, does not sleep, keeps the counter and leaves the button bit set |
| LoopProperties.SleepRule | main.c:163-166 | the node sleeps exactly when it did not reset and no bit is pending; never after two presses |
| LoopProperties.TwoPressesReportNextPass | main.c:67-160 | two presses without a pending alarm: nothing is measured or sent in that pass, and the next pass measures and sends exactly the report of its readings |
| LoopProperties.CounterCountsDeliveries | main.c:151-154 | over any run of passes, the final counter equals the start counter plus the number of messages the radio accepted, modulo 256 |
| LoopProperties.FirstReport | main.c:62-168 | after start-up, an alarm with raw t=12, h=50, b=3700 sends [0xAA, 0, 2, 25, 37]; on success the counter becomes 1 and the node sleeps |
| LoopProperties.FirstMeasurementFails | main.c:78-84 | after start-up, an alarm with a failed measurement sends nothing, the counter stays 0 and the node sleeps |

## Left out

- Driver calls are inputs of a pass, not modelled code. A call's result is an input, and a call with no result is omitted. This covers `RADIO_API_init`, `RADIO_API_send_message`, `HTS221_init`, `HTS221_measure`, `BATTERY_handler`, `BUTTON_handler`, `SENSIT_API_sleep`, `SENSIT_API_reset` and `SENSIT_API_set_rtc_alarm`.
- Specific error codes are not modelled, because the source only compares them with `*_ERR_NONE`. The sensor and the radio each report success or failure.
- `ERROR_parser` is not modelled. Its code is not part of this model. The model assumes it returns.
- The gesture type keeps only `TwoPresses`, `FourPresses` and `OtherGesture`. The values of `button_e` are in a header that is not part of this model. Every other value has no effect at main.c:110-119.
- Interrupt routines are not modelled. They run concurrently and set bits of `pending_interrupt` at any time. The model ORs the bits that arrived since the previous pass into the mask at the start of each pass. Bits arriving in the middle of a pass are not modelled.
- The float arithmetic of main.c:87 is not modelled. It is replaced by the exact integer formula it computes for every `s16`.
- The undefined `s8` cast is not modelled. A pass whose measured temperature falls outside -128..127 is excluded by a precondition (`EventLoop.Defined`).
- The LED calls at main.c:102 and main.c:108 and the LED colour passed to `RADIO_API_send_message` are left out. They only affect what can be observed.
- The initialisation sequence at main.c:44-55 is left out. It is a straight list of driver calls: the button edge mode, radio init, sensor init and an 1800-second RTC alarm. Only the initial values of the variables (main.c:34-39, main.c:58) are modelled.
- `firmware_version` (main.c:25) is left out. No logic reads it.
- What happens after a reset is not modelled. `SENSIT_API_reset` does not return, so `Step` reports the reset and stops the pass. The state it leaves behind is the state at the reset call.
