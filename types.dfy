// Shared enumerations of the amplifier protection sketch and the
// fixed-width integer types of its 8-bit target (an ATmega4809, where
// `int` and `unsigned int` are 16 bits wide and `byte` is 8 bits).
module Types {

  /** Signed 16-bit integer (`int` on the target). */
  type int16 = x: int | -0x8000 <= x < 0x8000

  /** Unsigned 16-bit integer (`unsigned int` on the target). */
  type uint16 = x: int | 0 <= x < 0x1_0000

  /** Two's-complement reinterpretation of an `unsigned int` as an `int`. */
  function ToInt16(u: uint16): (r: int16)
    ensures 0 <= r ==> r == u
    ensures r < 0 ==> r == u - 0x1_0000
    ensures (r + 0x1_0000) % 0x1_0000 == u
  {
    if u < 0x8000 then u else u - 0x1_0000
  }

  datatype Option<+T> = None | Some(value: T)

  /** Reason for an amplifier trip (ETripCause). */
  datatype TripCause =
    | NoTrip              // not tripped
    | TripCurrent         // excess drain current
    | TripPSUVoltage      // input PSU over threshold
    | TripTemperature     // heatsink temperature outside limits
    | TripFwdPower        // excessive forward power
    | TripRevPower        // excessive reverse power

  /** Pages of the touch display (EDisplayPage). */
  datatype DisplayPage =
    | SplashPage
    | RXPage              // "normal" receive page
    | TXPage              // "normal" transmit page
    | TrippedPage         // shown while tripped
    | AboutPage
    | EngineeringPage

  /**
   * CAT commands. Only the two that the core dispatches on are named; the
   * rest of the command table belongs to the CAT parser.
   */
  datatype CatCommand = ZZZA | ZZZS | OtherCommand(index: nat)

  /** An outgoing CAT message with a numeric parameter. */
  datatype CatMessage = Numeric(cmd: CatCommand, value: int)
}
