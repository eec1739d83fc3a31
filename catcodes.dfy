// The pure part of the CAT handler (cathandler.cpp): the trip-cause bit
// code of the ZZZA message, parameter clipping and the software version
// number of the ZZZS message.
module CatCodes {
  import opened Types

  // version constants (globalinclude.h)
  const SWVERSION := 5
  const HWVERSION := 1
  const PRODUCTID := 3              // Ganymede

  predicate IsPowerOfTwo(n: int)
    decreases if n < 0 then 0 else n
  {
    n == 1 || (n > 1 && n % 2 == 0 && IsPowerOfTwo(n / 2))
  }

  /**
   * Bit code reported for a trip cause: 0 no trip, 1 reverse power, 2 drain
   * current, 4 PSU voltage, 8 heatsink temperature, 16 forward power.
   */
  function TripCode(c: TripCause): (r: nat)
    ensures r == 0 <==> c == NoTrip
    ensures c != NoTrip ==> IsPowerOfTwo(r) && r <= 16
  {
    match c
    case NoTrip => 0
    case TripCurrent => 2
    case TripPSUVoltage => 4
    case TripTemperature => 8
    case TripFwdPower => 16
    case TripRevPower => 1
  }

  /** The cause a receiver reads back from a trip code. */
  function CauseOfTripCode(code: int): (c: Option<TripCause>)
    ensures c.Some? <==> code in {0, 1, 2, 4, 8, 16}
  {
    if code == 0 then Some(NoTrip)
    else if code == 1 then Some(TripRevPower)
    else if code == 2 then Some(TripCurrent)
    else if code == 4 then Some(TripPSUVoltage)
    else if code == 8 then Some(TripTemperature)
    else if code == 16 then Some(TripFwdPower)
    else None
  }

  lemma TripCodeRoundTrip(c: TripCause)
    ensures CauseOfTripCode(TripCode(c)) == Some(c)
  {
  }

  lemma CauseOfTripCodeRoundTrip(code: int)
    requires CauseOfTripCode(code).Some?
    ensures TripCode(CauseOfTripCode(code).value) == code
  {
  }

  /** Distinct causes have distinct codes. */
  lemma TripCodeInjective(a: TripCause, b: TripCause)
    requires TripCode(a) == TripCode(b)
    ensures a == b
  {
    TripCodeRoundTrip(a);
    TripCodeRoundTrip(b);
  }

  /** MakeAmplifierTripMessage: the ZZZA message reporting a trip cause. */
  function AmplifierTripMessage(c: TripCause): (m: CatMessage)
    ensures m.cmd == ZZZA
    ensures CauseOfTripCode(m.value) == Some(c)
  {
    Numeric(ZZZA, TripCode(c))
  }

  /**
   * ClipParameter: limits a parameter to [min, max] of its command. The
   * upper limit is tested first, so it wins when the range is empty.
   */
  function ClipParameter(param: int, min: int, max: int): (r: int)
    ensures param > max ==> r == max
    ensures param <= max && param < min ==> r == min
    ensures min <= param <= max ==> r == param
    ensures min <= max ==> min <= r <= max
  {
    if param > max then max
    else if param < min then min
    else param
  }

  lemma ClipParameterIdempotent(param: int, min: int, max: int)
    requires min <= max
    ensures ClipParameter(ClipParameter(param, min, max), min, max) == ClipParameter(param, min, max)
  {
  }

  /** With a non-empty range, the clipped value is the point of the range nearest to param. */
  lemma ClipParameterNearest(param: int, min: int, max: int, x: int)
    requires min <= x <= max
    ensures var r := ClipParameter(param, min, max);
      (if r >= param then r - param else param - r) <= (if x >= param then x - param else param - x)
  {
  }

  /** The version number of the ZZZS reply: product, hardware and software fields. */
  function VersionNumber(product: nat, hw: nat, sw: nat): (v: nat)
    ensures hw < 100 && sw < 1000 ==> v / 100000 == product
  {
    product * 100000 + hw * 1000 + sw
  }

  /** The three fields are recovered by division while they stay within their digits. */
  lemma VersionFields(product: nat, hw: nat, sw: nat)
    requires hw < 100 && sw < 1000
    ensures VersionNumber(product, hw, sw) / 100000 == product
    ensures VersionNumber(product, hw, sw) / 1000 % 100 == hw
    ensures VersionNumber(product, hw, sw) % 1000 == sw
  {
    var v := VersionNumber(product, hw, sw);
    assert v == (product * 100 + hw) * 1000 + sw;
    assert v / 1000 == product * 100 + hw;
    assert v % 1000 == sw;
    assert (product * 100 + hw) % 100 == hw;
  }

  /** MakeSoftwareVersionMessage: the ZZZS reply. */
  function SoftwareVersionMessage(): (m: CatMessage)
    ensures m == Numeric(ZZZS, 301005)
    ensures m.value / 100000 == PRODUCTID && m.value / 1000 % 100 == HWVERSION && m.value % 1000 == SWVERSION
  {
    Numeric(ZZZS, VersionNumber(PRODUCTID, HWVERSION, SWVERSION))
  }
}
