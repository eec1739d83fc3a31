// Amplifier protection logic (protect.cpp): the protection sequencer, the
// temperature and forward-power threshold checks, the three hardware
// interrupt handlers and the reset request.
//
// Digital reads become parameters (true = pin HIGH); digital writes to the
// amplifier-enable, PSU-enable and fan lines become fields; calls out to the
// CAT and display code are appended to `events`.
module Protect {
  import opened Types
  import CatCodes

  const InitCount := 550                  // 5.5 s of 10 ms ticks before leaving start-up
  const TripTempThreshold := 900          // 90.0 C: trip
  const TempReenable := 500               // 50.0 C: temperature allows a reset
  const FanOnThreshold := 400             // 40.0 C: fan on
  const FanOffThreshold := 300            // 30.0 C: fan off
  const PowerReenable := 40               // watts: forward power allows a reset

  /** Sequencer states (EProtectionState). */
  datatype ProtectionState =
    | NotInitialised                      // after power up
    | RX                                  // "normal" receive
    | TX                                  // "normal" transmit
    | Tripped                             // tripped, not yet reset
    | TripResetPressed                    // reset accepted, leaving the trip

  /** A call out of the protection code. */
  datatype Event =
    | CatSent(msg: CatMessage)            // MakeAmplifierTripMessage sends a CAT message
    | PageSet(page: DisplayPage)          // SetDisplayPage
    | ResetButtonActivated                // ActivateResetButton
    | ZeroCurrentSet                      // SetZeroCurrent re-reads the current zero offset

  /** Number of ActivateResetButton calls in a log. */
  function CountActivations(es: seq<Event>): nat
    decreases |es|
  {
    if es == [] then 0
    else CountActivations(es[..|es| - 1]) + (if es[|es| - 1] == ResetButtonActivated then 1 else 0)
  }

  lemma {:induction false} CountActivationsAppend(a: seq<Event>, b: seq<Event>)
    ensures CountActivations(a + b) == CountActivations(a) + CountActivations(b)
    decreases |b|
  {
    if b == [] {
      assert a + b == a;
    } else {
      var b' := b[..|b| - 1];
      CountActivationsAppend(a, b');
      assert (a + b)[..|a + b| - 1] == a + b';
    }
  }

  /** Activating the reset button adds one activation to every suffix of the log. */
  lemma CountActivationStep(es: seq<Event>, start: nat)
    requires start <= |es|
    ensures CountActivations((es + [ResetButtonActivated])[start..]) == CountActivations(es[start..]) + 1
  {
    CountActivationsAppend(es[start..], [ResetButtonActivated]);
    assert [ResetButtonActivated][..0] == [];
    assert es[start..] + [ResetButtonActivated] == (es + [ResetButtonActivated])[start..];
  }

  /** Start-up trip cause: a later comparator check overrides an earlier one. */
  function InitialCause(currentComp: bool, voltageComp: bool, srOutput: bool): (c: TripCause)
    ensures c == NoTrip <==> !currentComp && !voltageComp && srOutput
    ensures c in {NoTrip, TripCurrent, TripPSUVoltage, TripRevPower}
    ensures c == TripCurrent <==> currentComp && !voltageComp && srOutput
    ensures !srOutput ==> c == TripRevPower
    ensures srOutput && voltageComp ==> c == TripPSUVoltage
  {
    if !srOutput then TripRevPower
    else if voltageComp then TripPSUVoltage
    else if currentComp then TripCurrent
    else NoTrip
  }

  /** The conditions, all of which must hold while tripped for a reset to be offered. */
  predicate ResetAllowed(tempResettable: bool, powerResettable: bool,
                         currentComp: bool, voltageComp: bool, srOutput: bool, ptt: bool)
  {
    tempResettable && powerResettable && !currentComp && !voltageComp && srOutput && !ptt
  }

  /**
   * The variables the sequencer tick writes, as one value. The latched
   * cause and the two hysteresis flags, which the tick only reads, are
   * passed to it separately.
   */
  datatype Sequencer = Sequencer(
    state: ProtectionState, initCounter: int, resettable: bool, resetActivated: bool,
    ampEnable: bool, events: seq<Event>)

  /**
   * The safety invariant of the sequencer: the amplifier is enabled only
   * when no trip is latched and after start-up, and the tripped state
   * always has a cause.
   */
  predicate Safe(s: Sequencer, cause: TripCause) {
    && 0 <= s.initCounter <= InitCount
    && (s.ampEnable ==> cause == NoTrip && s.state != NotInitialised)
    && (s.state == Tripped ==> cause != NoTrip)
  }

  /** Whether the trip check of a tick moves s to the tripped state. */
  predicate EntersTrip(s: Sequencer, cause: TripCause) {
    cause != NoTrip && s.state != Tripped
  }

  /** The trip check: a latched cause moves any other state to Tripped. */
  function TripChecked(s: Sequencer, cause: TripCause): Sequencer {
    if EntersTrip(s, cause) then
      s.(state := Tripped, resetActivated := false,
         events := s.events + [CatSent(CatCodes.AmplifierTripMessage(cause)), PageSet(TrippedPage)])
    else s
  }

  /** The sequencer's case for the current state. */
  function SequencerStep(s: Sequencer, cause: TripCause, tempResettable: bool, powerResettable: bool,
           ptt: bool, currentComp: bool, voltageComp: bool, srOutput: bool): Sequencer
  {
    match s.state
    case NotInitialised =>
      var count := if s.initCounter != 0 then s.initCounter - 1 else s.initCounter;
      if count == 0 && !ptt then
        s.(initCounter := count, state := RX, ampEnable := true, events := s.events + [PageSet(RXPage)])
      else
        s.(initCounter := count)
    case RX =>
      if ptt then s.(state := TX, events := s.events + [PageSet(TXPage)]) else s
    case TX =>
      if !ptt then s.(state := RX, events := s.events + [PageSet(RXPage)]) else s
    case Tripped =>
      var allowed := ResetAllowed(tempResettable, powerResettable, currentComp, voltageComp, srOutput, ptt);
      if allowed && !s.resetActivated then
        s.(resettable := true, resetActivated := true, events := s.events + [ResetButtonActivated])
      else
        s.(resettable := allowed)
    case TripResetPressed =>
      s.(state := RX, ampEnable := true,
         events := s.events + [CatSent(CatCodes.AmplifierTripMessage(cause)), PageSet(RXPage)])
  }

  /**
   * One 10 ms tick of the sequencer: the trip check, then the case of the
   * resulting state.
   */
  function Tick(s: Sequencer, cause: TripCause, tempResettable: bool, powerResettable: bool,
                ptt: bool, currentComp: bool, voltageComp: bool, srOutput: bool): Sequencer
  {
    SequencerStep(TripChecked(s, cause), cause, tempResettable, powerResettable, ptt, currentComp, voltageComp, srOutput)
  }

  /** State transitions of a tick: the trip check comes before the sequencer. */
  lemma TickTransitions(s: Sequencer, cause: TripCause, tempResettable: bool, powerResettable: bool,
      ptt: bool, currentComp: bool, voltageComp: bool, srOutput: bool)
    ensures var t := Tick(s, cause, tempResettable, powerResettable, ptt, currentComp, voltageComp, srOutput);
            && (cause != NoTrip ==> t.state == Tripped)
            && (cause == NoTrip && s.state == NotInitialised ==>
                  t.state == (if t.initCounter == 0 && !ptt then RX else NotInitialised))
            && (cause == NoTrip && s.state in {RX, TX} ==> t.state == (if ptt then TX else RX))
            && (cause == NoTrip && s.state == TripResetPressed ==> t.state == RX)
            && (cause == NoTrip && s.state == Tripped ==> t.state == Tripped)
  {
  }

  /** The start-up counter counts down to 0, and only in NotInitialised. */
  lemma TickCounter(s: Sequencer, cause: TripCause, tempResettable: bool, powerResettable: bool,
      ptt: bool, currentComp: bool, voltageComp: bool, srOutput: bool)
    ensures var t := Tick(s, cause, tempResettable, powerResettable, ptt, currentComp, voltageComp, srOutput);
            t.initCounter == (if s.state == NotInitialised && cause == NoTrip && s.initCounter != 0
                              then s.initCounter - 1 else s.initCounter)
  {
  }

  /**
   * The amplifier is switched on only when RX is entered from start-up or
   * from a reset, and a tick never switches it off.
   */
  lemma TickAmplifier(s: Sequencer, cause: TripCause, tempResettable: bool, powerResettable: bool,
      ptt: bool, currentComp: bool, voltageComp: bool, srOutput: bool)
    ensures var t := Tick(s, cause, tempResettable, powerResettable, ptt, currentComp, voltageComp, srOutput);
            t.ampEnable == (|| s.ampEnable
                            || (&& cause == NoTrip
                                && (s.state == TripResetPressed || (s.state == NotInitialised && t.state == RX))))
  {
  }

  /**
   * The reset conditions are evaluated in every tick that ends tripped, and
   * the reset button is activated the first time they hold.
   */
  lemma TickReset(s: Sequencer, cause: TripCause, tempResettable: bool, powerResettable: bool,
      ptt: bool, currentComp: bool, voltageComp: bool, srOutput: bool)
    ensures var t := Tick(s, cause, tempResettable, powerResettable, ptt, currentComp, voltageComp, srOutput);
            && t.resettable == (if t.state == Tripped
                                then ResetAllowed(tempResettable, powerResettable, currentComp, voltageComp, srOutput, ptt)
                                else s.resettable)
            && t.resetActivated == (if t.state != Tripped then s.resetActivated
                                    else if s.state == Tripped then s.resetActivated || t.resettable
                                    else t.resettable)
  {
  }

  /**
   * Entering the trip sends the trip message and shows the tripped page; the
   * reset button may be activated in the same tick.
   */
  lemma TickEventsEnteringTrip(s: Sequencer, cause: TripCause, tempResettable: bool, powerResettable: bool,
      ptt: bool, currentComp: bool, voltageComp: bool, srOutput: bool)
    requires EntersTrip(s, cause)
    ensures var t := Tick(s, cause, tempResettable, powerResettable, ptt, currentComp, voltageComp, srOutput);
            t.events == s.events
                        + [CatSent(CatCodes.AmplifierTripMessage(cause)), PageSet(TrippedPage)]
                        + (if t.resettable then [ResetButtonActivated] else [])
  {
  }

  /** While tripped, the only call is the reset button activation, made once. */
  lemma TickEventsTripped(s: Sequencer, cause: TripCause, tempResettable: bool, powerResettable: bool,
      ptt: bool, currentComp: bool, voltageComp: bool, srOutput: bool)
    requires s.state == Tripped
    ensures var t := Tick(s, cause, tempResettable, powerResettable, ptt, currentComp, voltageComp, srOutput);
            t.events == s.events + (if t.resettable && !s.resetActivated then [ResetButtonActivated] else [])
  {
  }

  /**
   * Without a trip, the calls are the all-clear trip message after a reset
   * and the page of each RX / TX transition.
   */
  lemma TickEventsRunning(s: Sequencer, cause: TripCause, tempResettable: bool, powerResettable: bool,
      ptt: bool, currentComp: bool, voltageComp: bool, srOutput: bool)
    requires cause == NoTrip && s.state != Tripped
    ensures var t := Tick(s, cause, tempResettable, powerResettable, ptt, currentComp, voltageComp, srOutput);
            t.events == s.events
                        + (if s.state == TripResetPressed then [CatSent(CatCodes.AmplifierTripMessage(NoTrip))] else [])
                        + (if t.state == s.state then [] else [PageSet(if t.state == RX then RXPage else TXPage)])
  {
  }


  /** A tick keeps the safety invariant. */
  lemma TickSafe(s: Sequencer, cause: TripCause, tempResettable: bool, powerResettable: bool,
                 ptt: bool, currentComp: bool, voltageComp: bool, srOutput: bool)
    requires Safe(s, cause)
    ensures Safe(Tick(s, cause, tempResettable, powerResettable, ptt, currentComp, voltageComp, srOutput), cause)
  {
  }

  /**
   * The reset button is activated at most once per trip episode: counted
   * from the start of the episode (which moves to the end of the log when a
   * tick enters the trip), the log holds one activation exactly when the
   * button has been activated.
   */
  lemma TickActivations(s: Sequencer, start: nat, cause: TripCause, tempResettable: bool, powerResettable: bool,
          ptt: bool, currentComp: bool, voltageComp: bool, srOutput: bool)
    requires start <= |s.events|
    requires s.state == Tripped ==> CountActivations(s.events[start..]) == if s.resetActivated then 1 else 0
    ensures var t := Tick(s, cause, tempResettable, powerResettable, ptt, currentComp, voltageComp, srOutput);
            var start' := if EntersTrip(s, cause) then |s.events| else start;
            && start' <= |t.events|
            && (t.state == Tripped ==> CountActivations(t.events[start'..]) == if t.resetActivated then 1 else 0)
  {
    var t := Tick(s, cause, tempResettable, powerResettable, ptt, currentComp, voltageComp, srOutput);
    if EntersTrip(s, cause) {
      var u := TripChecked(s, cause);
      var opening := [CatSent(CatCodes.AmplifierTripMessage(cause)), PageSet(TrippedPage)];
      assert u.events[|s.events|..] == opening;
      TripOpeningCount(opening);
      if t.resetActivated {
        CountActivationStep(u.events, |s.events|);
      }
    } else if s.state == Tripped && t.resetActivated && !s.resetActivated {
      CountActivationStep(s.events, start);
    }
  }

  /** The two calls that open a trip episode do not activate the reset button. */
  lemma TripOpeningCount(opening: seq<Event>)
    requires |opening| == 2 && opening[0].CatSent? && opening[1].PageSet?
    ensures CountActivations(opening) == 0
  {
    assert opening[..1][..0] == [];
    assert CountActivations(opening[..1]) == 0;
  }

  /**
   * n ticks with no trip latched and PTT released. The other inputs only
   * matter in the tripped state, which these ticks never reach from start-up.
   */
  function IdleTicks(s: Sequencer, n: nat): Sequencer
    decreases n
  {
    if n == 0 then s else IdleTicks(Tick(s, NoTrip, true, true, false, false, false, true), n - 1)
  }

  /** Start-up lasts as many ticks as the counter holds: it ends in RX with the amplifier on. */
  lemma {:induction false} StartUpDelay(s: Sequencer, n: nat)
    requires s.state == NotInitialised && 1 <= s.initCounter && n <= s.initCounter
    ensures var t := IdleTicks(s, n);
            && (n < s.initCounter ==> t.state == NotInitialised && t.initCounter == s.initCounter - n
                                      && t.ampEnable == s.ampEnable)
            && (n == s.initCounter ==> t.state == RX && t.initCounter == 0 && t.ampEnable)
    decreases n
  {
    if n > 0 {
      var u := Tick(s, NoTrip, true, true, false, false, false, true);
      TickTransitions(s, NoTrip, true, true, false, false, false, true);
      TickCounter(s, NoTrip, true, true, false, false, false, true);
      TickAmplifier(s, NoTrip, true, true, false, false, false, true);
      if s.initCounter == 1 {
        assert u.state == RX && u.initCounter == 0 && u.ampEnable;
        assert IdleTicks(s, 1) == u;
      } else {
        StartUpDelay(u, n - 1);
        assert IdleTicks(s, n) == IdleTicks(u, n - 1);
      }
    }
  }

  class Protection {
    var state: ProtectionState            // GProtectionState
    var initCounter: int                  // GInitialiseCounter
    var tripCause: TripCause              // GTripCause
    var tempResettable: bool              // GTempResettable
    var powerResettable: bool             // GPowerResettable
    var resettable: bool                  // GResettable
    var resetActivated: bool              // GResetActivated
    var ampEnable: bool                   // amplifier enable (PTT and bias) line
    var psuEnable: bool                   // PSU enable line
    var fan: bool                         // fan line
    var events: seq<Event>                // calls made so far
    ghost var episodeStart: nat           // index in events where the current trip began

    /**
     * The safety invariant of the sequencer, and the reset button activated
     * at most once in the current trip episode.
     */
    ghost predicate Valid()
      reads this
    {
      && Safe(Snapshot(), tripCause)
      && (psuEnable <==> tripCause == NoTrip)
      && episodeStart <= |events|
      && (state == Tripped ==>
            CountActivations(events[episodeStart..]) == if resetActivated then 1 else 0)
    }

    /** Nothing the sequencer itself keeps has changed. */
    twostate predicate SequencerUnchanged()
      reads this
    {
      && state == old(state)
      && initCounter == old(initCounter)
      && resettable == old(resettable)
      && resetActivated == old(resetActivated)
      && events == old(events)
      && episodeStart == old(episodeStart)
    }

    /** The tick never touches the latched cause, the PSU, the fan or the hysteresis flags. */
    twostate predicate OutsideTickUnchanged()
      reads this
    {
      && tripCause == old(tripCause) && psuEnable == old(psuEnable) && fan == old(fan)
      && tempResettable == old(tempResettable) && powerResettable == old(powerResettable)
    }

    /** What an interrupt handler does: latch its cause and drop both enables. */
    twostate predicate HardwareTripped(cause: TripCause)
      reads this
    {
      && tripCause == cause
      && !ampEnable && !psuEnable
      && fan == old(fan)
      && tempResettable == old(tempResettable) && powerResettable == old(powerResettable)
      && SequencerUnchanged()
    }

    /** What a reset request does: nothing unless resettable; else leave the trip. */
    twostate predicate ResetPressEffect()
      reads this
    {
      if old(resettable) then
        && tripCause == NoTrip
        && state == TripResetPressed
        && psuEnable
        && events == old(events) + [ZeroCurrentSet]
        && ampEnable == old(ampEnable) && fan == old(fan)
        && tempResettable == old(tempResettable) && powerResettable == old(powerResettable)
        && initCounter == old(initCounter)
        && resettable && resetActivated == old(resetActivated)
        && episodeStart == old(episodeStart)
      else
        unchanged(this)
    }

    /**
     * ProtectInit, applied to the power-on state (all globals zero, all
     * output lines low). The comparator reads are taken after the SR
     * flip-flop has been pulsed; the PSU is switched on only when none of
     * them shows a trip.
     */
    constructor ProtectInit(currentComp: bool, voltageComp: bool, srOutput: bool)
      ensures Valid()
      ensures state == NotInitialised && initCounter == InitCount
      ensures tripCause == InitialCause(currentComp, voltageComp, srOutput)
      ensures psuEnable == (!currentComp && !voltageComp && srOutput)
      ensures !ampEnable && !fan
      ensures !tempResettable && !powerResettable && !resettable && !resetActivated
      ensures events == [ZeroCurrentSet]
    {
      var cause := NoTrip;
      if currentComp {
        cause := TripCurrent;
      }
      if voltageComp {
        cause := TripPSUVoltage;
      }
      if !srOutput {
        cause := TripRevPower;
      }
      state := NotInitialised;
      initCounter := InitCount;
      tripCause := cause;
      tempResettable, powerResettable := false, false;
      resettable, resetActivated := false, false;
      ampEnable, fan := false, false;
      events := [ZeroCurrentSet];
      episodeStart := 0;
      psuEnable := cause == NoTrip;
    }

    /** Interrupt on the rising edge of the drain-current comparator. */
    method CurrentComparatorHandler()
      requires Valid()
      modifies this
      ensures Valid() && HardwareTripped(TripCurrent)
    {
      tripCause := TripCurrent;
      ampEnable := false;
      psuEnable := false;
    }

    /** Interrupt on the rising edge of the PSU-voltage comparator. */
    method VoltageComparatorHandler()
      requires Valid()
      modifies this
      ensures Valid() && HardwareTripped(TripPSUVoltage)
    {
      tripCause := TripPSUVoltage;
      ampEnable := false;
      psuEnable := false;
    }

    /** Interrupt on the falling edge of the reverse-power SR flip-flop. */
    method SRFlipFlopTripHandler()
      requires Valid()
      modifies this
      ensures Valid() && HardwareTripped(TripRevPower)
    {
      tripCause := TripRevPower;
      ampEnable := false;
      psuEnable := false;
    }

    /** The display's (or a CAT) reset request. */
    method DisplayResetPressed()
      requires Valid()
      modifies this
      ensures Valid() && ResetPressEffect()
    {
      if resettable {
        events := events + [ZeroCurrentSet];
        tripCause := NoTrip;
        state := TripResetPressed;
        psuEnable := true;
      }
    }

    /**
     * Forward-power check, in watts. The forward-power trip itself is
     * disabled in this revision; only the re-enable flag is kept, and it is
     * only ever set.
     */
    method CheckFwdPower(power: int)
      requires Valid()
      modifies this
      ensures Valid()
      ensures powerResettable == (old(powerResettable) || power < PowerReenable)
      ensures tripCause == old(tripCause) && tempResettable == old(tempResettable)
      ensures ampEnable == old(ampEnable) && psuEnable == old(psuEnable) && fan == old(fan)
      ensures SequencerUnchanged()
    {
      if power < PowerReenable {
        powerResettable := true;
      }
    }

    /**
     * Temperature check, in tenths of a degree. Over the trip threshold the
     * cause is latched only if none is latched yet (first fault wins) and
     * both enables are dropped; the reset flag and the fan each have their
     * own hysteresis band.
     */
    method CheckTemperature(temperature: int)
      requires Valid()
      modifies this
      ensures Valid()
      ensures temperature > TripTempThreshold ==>
                && tripCause == (if old(tripCause) == NoTrip then TripTemperature else old(tripCause))
                && !ampEnable && !psuEnable
      ensures temperature <= TripTempThreshold ==>
                tripCause == old(tripCause) && ampEnable == old(ampEnable) && psuEnable == old(psuEnable)
      ensures tempResettable == (if temperature > TripTempThreshold then false
                                 else if temperature < TempReenable then true
                                 else old(tempResettable))
      ensures fan == (if temperature > FanOnThreshold then true
                      else if temperature < FanOffThreshold then false
                      else old(fan))
      ensures powerResettable == old(powerResettable)
      ensures SequencerUnchanged()
    {
      if temperature > TripTempThreshold {
        if tripCause == NoTrip {
          tripCause := TripTemperature;
        }
        ampEnable := false;
        psuEnable := false;
        tempResettable := false;
      } else if temperature < TempReenable {
        tempResettable := true;
      }
      if temperature > FanOnThreshold {
        fan := true;
      } else if temperature < FanOffThreshold {
        fan := false;
      }
    }

    /** The fields the sequencer tick writes, as a value. */
    function Snapshot(): Sequencer
      reads this
    {
      Sequencer(state, initCounter, resettable, resetActivated, ampEnable, events)
    }

    /** The fields the sequencer tick writes hold the values of t. */
    ghost predicate Holds(t: Sequencer)
      reads this
    {
      && state == t.state && initCounter == t.initCounter
      && resettable == t.resettable && resetActivated == t.resetActivated
      && ampEnable == t.ampEnable && events == t.events
    }

    /**
     * The 10 ms sequencer tick: the new state is Tick of the old one. A trip
     * entered in this tick starts a new trip episode of the log.
     */
    method ProtectTick(ptt: bool, currentComp: bool, voltageComp: bool, srOutput: bool)
      requires Valid()
      modifies this
      ensures Valid()
      ensures Holds(Tick(old(Snapshot()), tripCause, tempResettable, powerResettable,
                         ptt, currentComp, voltageComp, srOutput))
      ensures episodeStart == if EntersTrip(old(Snapshot()), tripCause) then |old(events)| else old(episodeStart)
      ensures OutsideTickUnchanged()
    {
      TickActivations(Snapshot(), episodeStart, tripCause, tempResettable, powerResettable,
                      ptt, currentComp, voltageComp, srOutput);
      TickSafe(Snapshot(), tripCause, tempResettable, powerResettable, ptt, currentComp, voltageComp, srOutput);
      TripCheck();
      Sequence(ptt, currentComp, voltageComp, srOutput);
    }

    /** The sequencer's switch on the state, after the trip check. */
    method Sequence(ptt: bool, currentComp: bool, voltageComp: bool, srOutput: bool)
      modifies this
      ensures Holds(SequencerStep(old(Snapshot()), tripCause, tempResettable, powerResettable,
                                  ptt, currentComp, voltageComp, srOutput))
      ensures episodeStart == old(episodeStart)
      ensures OutsideTickUnchanged()
    {
      match state {
        case NotInitialised =>
          if initCounter != 0 {
            initCounter := initCounter - 1;
          }
          if initCounter == 0 && !ptt {
            state := RX;
            ampEnable := true;
            events := events + [PageSet(RXPage)];
          }
        case RX =>
          if ptt {
            state := TX;
            events := events + [PageSet(TXPage)];
          }
        case TX =>
          if !ptt {
            state := RX;
            events := events + [PageSet(RXPage)];
          }
        case Tripped =>
          EvaluateReset(ptt, currentComp, voltageComp, srOutput);
        case TripResetPressed =>
          state := RX;
          events := events + [CatSent(CatCodes.AmplifierTripMessage(tripCause))];
          ampEnable := true;
          events := events + [PageSet(RXPage)];
      }
    }

    /** The trip check that opens every tick. */
    method TripCheck()
      modifies this
      ensures Holds(TripChecked(old(Snapshot()), tripCause))
      ensures episodeStart == if EntersTrip(old(Snapshot()), tripCause) then |old(events)| else old(episodeStart)
      ensures OutsideTickUnchanged()
    {
      if tripCause != NoTrip && state != Tripped {
        state := Tripped;
        episodeStart := |events|;
        events := events + [CatSent(CatCodes.AmplifierTripMessage(tripCause)), PageSet(TrippedPage)];
        resetActivated := false;
      }
    }

    /**
     * The Tripped case of the tick: evaluate whether a reset may be offered
     * (the SR flip-flop is pulsed before its output is read) and activate the
     * reset button the first time it may.
     */
    method EvaluateReset(ptt: bool, currentComp: bool, voltageComp: bool, srOutput: bool)
      requires state == Tripped
      modifies this
      ensures Holds(SequencerStep(old(Snapshot()), tripCause, tempResettable, powerResettable,
                                  ptt, currentComp, voltageComp, srOutput))
      ensures episodeStart == old(episodeStart)
      ensures OutsideTickUnchanged()
    {
      var allowed := true;
      if !tempResettable {
        allowed := false;
      }
      if !powerResettable {
        allowed := false;
      }
      if currentComp {
        allowed := false;
      }
      if voltageComp {
        allowed := false;
      }
      if !srOutput {
        allowed := false;
      }
      if ptt {
        allowed := false;
      }
      assert allowed == ResetAllowed(tempResettable, powerResettable, currentComp, voltageComp, srOutput, ptt);
      resettable := allowed;
      if allowed && !resetActivated {
        resetActivated := true;
        events := events + [ResetButtonActivated];
      }
    }
  }
}
