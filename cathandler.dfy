// Dispatch of received CAT commands (cathandler.cpp). The parser that
// matches a command and its parameter is not part of this model: the
// matched command and the parsed parameter arrive as arguments.
module CatHandler {
  import opened Types
  import CatCodes
  import Protect

  /** The only trip message recognised from the PC: parameter 32 resets the trip. */
  const ResetTripParam := 32

  /** A ZZZA message from the PC: 32 is a reset request, anything else is ignored. */
  method HandleAmplifierTripMessage(p: Protect.Protection, param: int)
    requires p.Valid()
    modifies p
    ensures p.Valid()
    ensures param == ResetTripParam ==> p.ResetPressEffect()
    ensures param != ResetTripParam ==> unchanged(p)
  {
    if param == ResetTripParam {
      p.DisplayResetPressed();
    }
  }

  /** A received command with a numeric parameter: only ZZZA has an effect. */
  method HandleCatCommandNumParam(p: Protect.Protection, cmd: CatCommand, param: int)
    requires p.Valid()
    modifies p
    ensures p.Valid()
    ensures cmd == ZZZA && param == ResetTripParam ==> p.ResetPressEffect()
    ensures !(cmd == ZZZA && param == ResetTripParam) ==> unchanged(p)
  {
    match cmd {
      case ZZZA => HandleAmplifierTripMessage(p, param);
      case _ =>
    }
  }

  /**
   * A received command without parameter, with the reply it makes: ZZZS
   * asks for the software version, ZZZA for the latched trip cause.
   */
  function HandleCatCommandNoParam(p: Protect.Protection, cmd: CatCommand): (reply: Option<CatMessage>)
    reads p
    ensures cmd == ZZZS ==> reply == Some(Numeric(ZZZS, 301005))
    ensures cmd == ZZZA ==>
              reply.Some? && reply.value.cmd == ZZZA
              && CatCodes.CauseOfTripCode(reply.value.value) == Some(p.tripCause)
    ensures cmd.OtherCommand? ==> reply == None
  {
    match cmd
    case ZZZS => Some(CatCodes.SoftwareVersionMessage())
    case ZZZA => Some(CatCodes.AmplifierTripMessage(p.tripCause))
    case OtherCommand(_) => None
  }
}
