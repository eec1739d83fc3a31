# Ganymede amplifier protection: a Dafny model

This project models the control logic of the `amp_protect` sketch. The
sketch is the protection controller of the Ganymede LDMOS amplifier and runs
on an ATmega4809, where `int` is 16 bits wide. The model covers four parts:

- **Protection** (`protect.dfy`, module `Protect`). Class `Protection` holds
  the sequencer's globals and the amplifier-enable, PSU-enable and fan lines.
  It has:
  - the three interrupt handlers, which latch a trip cause and drop both enables;
  - the temperature and forward-power checks, with their hysteresis bands;
  - the reset request;
  - the 10 ms sequencer tick.

  Pin reads are parameters. Calls out of the protection code are appended to
  an event log: the CAT trip message, the page change, the reset-button
  activation and the current-zero re-read. The tick is specified by the pure
  function `Tick` on a `Sequencer` value. Its properties are lemmas: state
  transitions, the start-up counter, when the amplifier is switched on, reset
  gating, the calls made, and the safety invariant `Safe`. `Protection.Valid`
  holds `Safe` together with two more facts: the PSU is on exactly when no
  cause is latched, and the reset button is activated at most once per trip
  episode.
- **CAT codes and dispatch** (`catcodes.dfy`, `cathandler.dfy`). These cover:
  - the trip-cause bit code and its inverse;
  - parameter clipping;
  - the version number 301005 of the ZZZS reply;
  - the dispatch of received ZZZA and ZZZS commands. Only a ZZZA with
    parameter 32 resets a trip.
- **Display** (`display.dfy`, `decimal.dfy`).
  - `MySprintf` is the sketch's loop-based decimal formatter. It is proved
    equal to the reference text `Decimal.Text`, and `Decimal.ParseText`
    reads that text back, so the round trip holds for every 16-bit value.
  - Class `DisplayState` models the page, update-throttle and round-robin
    readout counters of the display tick, and the label highlighted on the
    tripped page.
- **On-time clock** (`ontime.dfy`). Class `Clock` is the seconds / minutes /
  hours carry counter, and `ClockText` is its `H:MM:SS` text. The pure
  partner `Advance` states the carry.

Behaviour of the sketch worth noting, which the model reproduces:

- **Cause latching.** Each interrupt handler overwrites the latched cause
  unconditionally (protect.cpp:60, 69, 77). Only `CheckTemperature` keeps
  the first fault: it latches its cause only when none is latched
  (protect.cpp:174).
- **Forward-power trip.** It is commented out in this revision
  (protect.cpp:148-158). Only the re-enable flag is kept, and it is only
  ever set.
- **Reset outside `eTripped`.** `GResettable` is written only in the
  tripped case of the tick, so it stays true after the amplifier is back in
  RX or TX. A later reset request there (a ZZZA 32 from the PC) is still
  accepted: it goes through `eTripResetPressed` again and re-reads the
  current zero with the PSU on (`Protection.ResetPressEffect` depends only
  on `resettable`). So a cause that an interrupt latches in RX or TX can be
  cleared by a ZZZA 32 before any tick sees it. The next tick then goes from
  `eTripResetPressed` to RX, switches the amplifier back on and reports only
  the all-clear code 0, whatever the fault lines read (protect.cpp:282-286).

## Model

| member | source | states |
|---|---|---|
| Types.ToInt16 | sketch/amp_protect/display.cpp:333-378 | an `unsigned int` reading (current, forward and reverse power at lines 333, 337, 341, 370, 374, 378) passed as the `int` parameter of mysprintf is reinterpreted modulo 2^16 |
| Decimal.Digits | sketch/amp_protect/display.cpp:125-137 | the digits, most significant first, with no leading zero; "0" for 0 |
| Decimal.DigitsValueOfDigits | sketch/amp_protect/display.cpp:125-137 | reading the digits of n back gives n |
| Decimal.DigitsOfNumeral | sketch/amp_protect/display.cpp:125-137 | every canonical numeral is the digits of its own value |
| Decimal.NumeralValuePositive | sketch/amp_protect/display.cpp:128-129 | a numeral not starting with '0' has a non-zero value |
| Decimal.DigitsIsNumeral | sketch/amp_protect/display.cpp:125-137 | the digits of n form a canonical numeral |
| Decimal.UnsignedValue | sketch/amp_protect/display.cpp:142-153 | the unsigned text, with or without the point, reads back as the magnitude and has the canonical shape |
| Decimal.Text | sketch/amp_protect/display.cpp:107-160 | reference text of mysprintf's output (no ensures): '-' for a negative value, then UnsignedText of the magnitude; specified by TextRoundTrip, TextOfParse, TextInjective and TextLength, and tied to the loop by MySprintf |
| Decimal.UnsignedText | sketch/amp_protect/display.cpp:125-153 | reference text of a magnitude (no ensures): its digits, with '.' before the last one when dp is set; specified by UnsignedValue and UnsignedTextOfValue |
| Decimal.TextRoundTrip | sketch/amp_protect/display.cpp:107-160 | ParseText(Text(v, dp)) == v, and the text has the canonical shape |
| Decimal.SignedText | sketch/amp_protect/display.cpp:116-121 | '-' before a non-zero unsigned text reads back as its negation |
| Decimal.UnsignedTextOfValue | sketch/amp_protect/display.cpp:142-153 | a canonical unsigned text is the text of its own value |
| Decimal.TextOfParse | sketch/amp_protect/display.cpp:107-160 | every canonical text is Text of its parsed value: the other half of the round trip |
| Decimal.TextInjective | sketch/amp_protect/display.cpp:107-160 | different values have different texts |
| Decimal.DigitsLength | sketch/amp_protect/display.cpp:112 | a value below 10^k has at most k digits |
| Decimal.TextLength | sketch/amp_protect/display.cpp:112 | every magnitude below 100000 has a text of at most 7 characters |
| CatCodes.TripCode | sketch/amp_protect/cathandler.cpp:60-78 | code 0 exactly for no trip; every other cause has a power of two up to 16 |
| CatCodes.CauseOfTripCode | sketch/amp_protect/cathandler.cpp:58 | exactly the codes 0, 1, 2, 4, 8 and 16 name a cause |
| CatCodes.TripCodeRoundTrip | sketch/amp_protect/cathandler.cpp:60-78 | decoding the code of a cause gives the cause back |
| CatCodes.CauseOfTripCodeRoundTrip | sketch/amp_protect/cathandler.cpp:60-78 | encoding a decoded cause gives the code back |
| CatCodes.TripCodeInjective | sketch/amp_protect/cathandler.cpp:60-78 | distinct causes have distinct codes |
| CatCodes.AmplifierTripMessage | sketch/amp_protect/cathandler.cpp:60-81 | a ZZZA message whose parameter decodes to the cause |
| CatCodes.ClipParameter | sketch/amp_protect/cathandler.cpp:22-35 | max above the range, min below it, param inside it; within [min, max] when the range is not empty; max wins when it is |
| CatCodes.ClipParameterIdempotent | sketch/amp_protect/cathandler.cpp:22-35 | clipping twice is clipping once |
| CatCodes.ClipParameterNearest | sketch/amp_protect/cathandler.cpp:22-35 | the clipped value is the point of the range nearest to param |
| CatCodes.VersionNumber | sketch/amp_protect/cathandler.cpp:46 | the product ID is the value divided by 100000 |
| CatCodes.VersionFields | sketch/amp_protect/cathandler.cpp:43-50 | product, hardware and software fields come back by division and remainder while hw < 100 and sw < 1000 |
| CatCodes.SoftwareVersionMessage | sketch/amp_protect/cathandler.cpp:43-50 | the ZZZS reply carries 301005, whose fields are PRODUCTID, HWVERSION and SWVERSION |
| CatHandler.HandleAmplifierTripMessage | sketch/amp_protect/cathandler.cpp:91-95 | parameter 32 has the effect of a reset press; any other parameter changes nothing |
| CatHandler.HandleCatCommandNumParam | sketch/amp_protect/cathandler.cpp:104-116 | only ZZZA with 32 has an effect, and that effect is a reset press |
| CatHandler.HandleCatCommandNoParam | sketch/amp_protect/cathandler.cpp:122-133 | ZZZS replies 301005, ZZZA replies the code of the latched cause, any other command gets no reply |
| Protect.CountActivationsAppend | sketch/amp_protect/protect.cpp:275-279 | activations in a concatenated log add up |
| Protect.CountActivationStep | sketch/amp_protect/protect.cpp:275-279 | an ActivateResetButton call adds one activation to every suffix of the log |
| Protect.TripOpeningCount | sketch/amp_protect/protect.cpp:212-214 | the trip message and tripped page that open an episode are not activations |
| Protect.InitialCause | sketch/amp_protect/protect.cpp:101-106 | no trip exactly when the current and voltage comparators are low and the SR output is high; otherwise a later check overrides an earlier one: reverse power over PSU voltage over current |
| Protect.ResetAllowed | sketch/amp_protect/protect.cpp:257-271 | the six reset conditions as one conjunction (no ensures); EvaluateReset proves the six sequential tests compute it, and TickReset states how it sets resettable |
| Protect.TripChecked | sketch/amp_protect/protect.cpp:210-216 | the trip check as a function (no ensures); specified by TickTransitions, TickEventsEnteringTrip and TickActivations, and tied to the code by Protection.TripCheck |
| Protect.SequencerStep | sketch/amp_protect/protect.cpp:220-288 | the state switch as a function (no ensures); specified through Tick by TickTransitions, TickCounter, TickAmplifier, TickReset and the TickEvents lemmas, and tied to the code by Protection.Sequence and Protection.EvaluateReset |
| Protect.Tick | sketch/amp_protect/protect.cpp:200-289 | one 10 ms tick: SequencerStep after TripChecked (no ensures); specified by TickTransitions, TickCounter, TickAmplifier, TickReset, TickEventsEnteringTrip, TickEventsTripped, TickEventsRunning, TickSafe, TickActivations and StartUpDelay, and tied to the code by Protection.ProtectTick |
| Protect.TickTransitions | sketch/amp_protect/protect.cpp:210-287 | a latched cause always ends the tick in Tripped; without one, start-up moves to RX only at count 0 without PTT, RX and TX follow PTT, reset-pressed goes to RX and Tripped stays |
| Protect.TickCounter | sketch/amp_protect/protect.cpp:222-224 | the start-up counter drops by one per start-up tick while non-zero and never changes otherwise |
| Protect.TickAmplifier | sketch/amp_protect/protect.cpp:226-287 | the amplifier is switched on exactly when start-up reaches RX or a reset completes, with no cause latched; a tick never switches it off |
| Protect.TickReset | sketch/amp_protect/protect.cpp:250-280 | a tick that ends tripped sets resettable to the conjunction of the six conditions; the reset button is activated the first time they hold in the episode |
| Protect.TickEventsEnteringTrip | sketch/amp_protect/protect.cpp:210-216 | entering the trip makes exactly one trip message and one tripped-page call, then possibly the activation |
| Protect.TickEventsTripped | sketch/amp_protect/protect.cpp:250-280 | a tick that starts tripped sends no trip message and no page, only a first activation |
| Protect.TickEventsRunning | sketch/amp_protect/protect.cpp:222-287 | without a trip, the calls are the all-clear trip message after a reset and one page per RX / TX change |
| Protect.TickSafe | sketch/amp_protect/protect.cpp:200-289 | a tick keeps `Safe`: amplifier on only with no cause and after start-up, Tripped only with a cause, counter in [0, 550] |
| Protect.TickActivations | sketch/amp_protect/protect.cpp:275-279 | the reset button is activated at most once per trip episode |
| Protect.StartUpDelay | sketch/amp_protect/protect.cpp:222-231 | with no trip and PTT released, start-up takes exactly as many ticks as the counter holds, then the sequencer is in RX with the amplifier on |
| Protect.Protection.ProtectInit | sketch/amp_protect/protect.cpp:89-123 | state NotInitialised, counter 550, cause from the comparator reads (rev power over voltage over current), PSU on iff no read shows a trip, current zero read |
| Protect.Protection.CurrentComparatorHandler | sketch/amp_protect/protect.cpp:58-64 | cause := current trip whatever it was; both enables low; nothing else changes |
| Protect.Protection.VoltageComparatorHandler | sketch/amp_protect/protect.cpp:67-73 | cause := PSU voltage trip whatever it was; both enables low; nothing else changes |
| Protect.Protection.SRFlipFlopTripHandler | sketch/amp_protect/protect.cpp:75-81 | cause := reverse power trip whatever it was; both enables low; nothing else changes |
| Protect.Protection.DisplayResetPressed | sketch/amp_protect/protect.cpp:129-138 | nothing when not resettable; otherwise re-read the zero, clear the cause, go to reset-pressed and switch the PSU on |
| Protect.Protection.CheckFwdPower | sketch/amp_protect/protect.cpp:146-161 | below 40 W sets power-resettable, never clears it, and changes nothing else |
| Protect.Protection.CheckTemperature | sketch/amp_protect/protect.cpp:170-188 | above 900 latches a temperature trip only when none is latched, drops both enables and clears temp-resettable; below 500 sets it; fan on above 400, off below 300, unchanged between |
| Protect.Protection.ProtectTick | sketch/amp_protect/protect.cpp:200-289 | the new sequencer state is Tick of the old one; Valid is kept; entering a trip starts a new episode; cause, PSU, fan and hysteresis flags unchanged |
| Protect.Protection.TripCheck | sketch/amp_protect/protect.cpp:210-216 | the state after the trip check is TripChecked of the old one |
| Protect.Protection.Sequence | sketch/amp_protect/protect.cpp:220-288 | the state after the switch is SequencerStep of the old one |
| Protect.Protection.EvaluateReset | sketch/amp_protect/protect.cpp:250-280 | the six tests give ResetAllowed; the button is activated only if not yet activated |
| Display.DigitStep | sketch/amp_protect/display.cpp:127-136 | one divisor step takes the next decimal digit of the magnitude and leaves the rest below the divisor |
| Display.LeadingDigitsStep | sketch/amp_protect/display.cpp:128-134 | appending the next digit after the first non-zero one extends the digits of the prefix |
| Display.LoopStep | sketch/amp_protect/display.cpp:125-137 | one pass of the digit loop keeps its invariant |
| Display.FinalUnsigned | sketch/amp_protect/display.cpp:142-153 | the loop output, the optional "0." or "." and the last digit form the unsigned text |
| Display.FinalDigits | sketch/amp_protect/display.cpp:138-153 | the same with the sign: the signed text, at most 7 characters |
| Display.MySprintf | sketch/amp_protect/display.cpp:107-160 | writes Text(value, AddDP) and a 0 terminator; the returned count is the characters before it; at most 8 characters in all |
| Display.ConvertDigits | sketch/amp_protect/display.cpp:125-137 | the loop appends the digits above the last one without leading zeros, leaves the last digit as remainder and reports whether any digit was written |
| Display.ReadoutValue | sketch/amp_protect/display.cpp:322-386 | the value shown in readout slot 0..4: temperature / 10, PSU voltage / 10, current, forward and reverse power, each as the `int` mysprintf receives (no ensures); used by DisplayTick and RefreshReadout |
| Display.ReadoutObject | sketch/amp_protect/display.cpp:322-386 | the display object of readout slot 0..4 on the TX page (p2t16..p2t20) and the tripped page (p3t13..p3t17) (no ensures); used by DisplayTick and RefreshReadout |
| Display.TrippedLabel | sketch/amp_protect/display.cpp:206-230 | a label for every cause but no trip |
| Display.TrippedLabelInjective | sketch/amp_protect/display.cpp:206-230 | each cause highlights a label of its own |
| Display.HighlightCommands | sketch/amp_protect/display.cpp:202-231 | no commands for no trip; otherwise paint the cause's label red and refresh it |
| Display.DisplayState.constructor | sketch/amp_protect/display.cpp:36-38 | the power-on state is the splash page with both counters 0 |
| Display.DisplayState.SetDisplayPage | sketch/amp_protect/display.cpp:417-421 | the page is set, the throttle reloads to 50 and the readout index to 0 |
| Display.DisplayState.DisplayTick | sketch/amp_protect/display.cpp:290-400 | RX refreshes the temperature at throttle 0 and reloads 50; TX and tripped refresh one readout at throttle 0, reload 10 and cycle the index 0..4; otherwise the throttle counts down; splash and about change nothing |
| Display.DisplayState.RefreshReadout | sketch/amp_protect/display.cpp:319-390 | the TX and tripped pages' case, with the readout object and text |
| Display.DisplayState.PagePushed | sketch/amp_protect/display.cpp:173-243 | the page is recorded; the tripped page highlights the cause's label; the about page shows "5" |
| Display.DisplayState.OnTimeUpdate | sketch/amp_protect/display.cpp:407-411 | the on-time text is sent to the on-time object p1t5 exactly when the RX page is up |
| OnTime.TwoDigits | sketch/amp_protect/ontime.cpp:63-67 | two digits whose value is n, leading zero kept |
| OnTime.ClockText | sketch/amp_protect/ontime.cpp:59-68 | the hours text, then ':' and two digits twice; digits(hours) + 6 characters |
| OnTime.ClockFieldsRoundTrip | sketch/amp_protect/ontime.cpp:62-67 | minutes and seconds read back from the last five characters |
| OnTime.ClockTextInjective | sketch/amp_protect/ontime.cpp:59-68 | distinct times give distinct texts |
| OnTime.ClockTextChars | sketch/amp_protect/ontime.cpp:59-68 | the text equals the characters written one at a time |
| OnTime.IncrementHours | sketch/amp_protect/ontime.cpp:53 | GHours++ on a 16-bit int: +1, and 32767 wraps to -32768. Signed overflow is undefined in C++; the wrap is what the two's-complement code of the AVR compiler computes |
| OnTime.Advance | sketch/amp_protect/ontime.cpp:45-55 | seconds and minutes stay in [0, 59]; minutes change exactly when seconds wrap to 0, hours exactly when both wrap |
| OnTime.AdvanceAddsOneSecond | sketch/amp_protect/ontime.cpp:45-55 | one tick adds exactly one second to hours·3600 + minutes·60 + seconds |
| OnTime.Clock.OnTimeInit | sketch/amp_protect/ontime.cpp:30-35 | the clock starts at 0:00:00 |
| OnTime.Clock.TimeSecondTick | sketch/amp_protect/ontime.cpp:41-70 | the clock advances by Advance, and the text sent is ClockText of the new time with a terminator |

## Left out

- Sensor input (`analogueio.cpp`): it scales with float factors and
  computes power as V²/R; there is no interpolation table, peak-hold
  register or zero-offset arithmetic in it. The ADC reads and the PWM
  thresholds are left out too. Temperature and forward power reach the
  checks as integers, and the display's readings as `unsigned int` values.
- EEPROM persistence (`configdata.cpp`): a thin wrapper over the EEPROM library.
- Nextion and serial I/O: `nexInit`, `nexLoop`, `show`, `setText`,
  `sendCommand` and `Serial.println`. Text sent to a display object is
  returned as a `TextUpdate`, and raw commands as strings. The `show()` of
  each page in `SetDisplayPage` is not modelled.
- Interrupt concurrency: each handler is one atomic method call, and a
  handler cannot preempt a tick half-way.
- `delay(500)` and the SR flip-flop reset pulse: the SR output is an input
  read after the pulse.
- `MakeCATMessageNumeric`, the `GCATCommands` table and the CAT parser are
  not part of this model. The matched command, the parsed parameter and the
  table's min / max arrive as arguments. Outgoing messages are values in the
  protection log or function results.
- The writing through `dest` in `mysprintf` and `Str` in `TimeSecondTick`:
  both produce a `seq<char>` ending in the 0 terminator.
- `itoa` in `TimeSecondTick`: modelled as `Decimal.Text` without a point,
  which is the decimal text `itoa` produces in base 10.
- `SetZeroCurrent`: logged as the `ZeroCurrentSet` event.
- Declaration mismatches between headers and definitions are not
  behaviour: `ActivateResetButton(bool)`, the `int` / `unsigned int` return
  of `GetTemperature`, the undefined `EnforceProtection`, and the missing
  return type at cathandler.cpp:91. The model follows the definitions.
- MySprintf: for -32768, `Value = -Value` overflows in 16 bits. That is
  undefined behaviour in C++; the AVR compiler's two's-complement code
  leaves -32768, and the division by the `unsigned int` divisor converts it
  to 32768, so the digits come out right. The model computes the magnitude
  as an unbounded integer and does not model that conversion.
- Display.ConvertDigits: requires a magnitude below 100000. That is the
  range the starting divisor 10000 covers, and it includes every 16-bit
  value.
- OnTime.AdvanceAddsOneSecond: does not cover the hours wrap from 32767 to
  -32768. There the total goes down instead of up by one; `Advance` and
  `IncrementHours` state the wrap itself.
- Pin set-up in `setup()` is not part of this model: the amplifier-enable,
  PSU-enable and fan lines are taken as low at power-on. ProtectInit never
  writes the amplifier or fan line and writes the PSU line only high, so the
  `Protection.ProtectInit` constructor's `!ampEnable`, `!fan` and
  `psuEnable` (on only when no trip is read) rest on that assumption.
