// Display logic (display.cpp): the sketch's decimal formatter `mysprintf`,
// the page and update-throttle counters of the display tick, and the label
// highlighted on the tripped page. The touch display itself is not
// modelled: text sent to a display object is returned as a TextUpdate, and
// raw display commands as strings.
module Display {
  import opened Types
  import opened Decimal
  import CatCodes

  const HalfSecond := 50                 // ticks between RX page updates
  const TenthSecond := 10                // ticks between TX / tripped page updates

  /** Text sent to a named display object. */
  datatype TextUpdate = TextUpdate(target: string, text: string)

  /** The latest sensor values, as the analogue code's getters return them. */
  datatype Readings = Readings(temperature: uint16, psuVoltage: uint16, current: uint16,
                               fwdPower: uint16, revPower: uint16)

  /** One digit step of mysprintf with divisor d, in terms of the whole magnitude m. */
  lemma DigitStep(m: nat, d: nat, v: int)
    requires d == 10 || d == 100 || d == 1000 || d == 10000
    requires v == m % (10 * d)
    ensures 0 <= v / d < 10 && v / d == (m / d) % 10
    ensures v - v / d * d == m % d
    ensures (m / d) / 10 == m / (10 * d)
    ensures 10 * (d / 10) == d
  {
    var q, t, w := m / (10 * d), v / d, v % d;
    assert m == (10 * d) * q + v && 0 <= v < 10 * d;
    assert v == d * t + w && 0 <= w < d;
    MulCancelLess(d, t, 10);
    assert m == d * (10 * q + t) + w;
    DivUnique(m, d, 10 * q + t, w);
    DivUnique(m / d, 10, q, t);
  }

  /** Quotient and remainder are the only ones m admits. */
  lemma DivUnique(m: int, d: int, a: int, r: int)
    requires d > 0 && m == d * a + r && 0 <= r < d
    ensures m / d == a && m % d == r
  {
    var a', r' := m / d, m % d;
    assert d * (a - a') == r' - r;
    MulCancelLess(d, a - a', 1);
    MulCancelLess(d, a' - a, 1);
  }

  /** Multiplying by a positive number keeps a strict order. */
  lemma MulCancelLess(d: int, k: int, c: int)
    requires d > 0 && d * k < d * c
    ensures k < c
  {
  }

  /** The digits printed so far grow by one digit, or not at all while only zeros were seen. */
  lemma LeadingDigitsStep(q: nat)
    ensures LeadingDigits(q) == LeadingDigits(q / 10) + (if q == 0 then [] else [DigitChar(q % 10)])
  {
  }

  /**
   * One pass of mysprintf's digit loop keeps its invariant: with divisor d,
   * the remainder v holds the digits of m below 10 * d, and dest holds the
   * digits above it unless they are all zero.
   */
  lemma LoopStep(m: nat, d: nat, v: int, had: bool, dest: seq<char>, sign: seq<char>)
    requires d == 10 || d == 100 || d == 1000 || d == 10000
    requires v == m % (10 * d)
    requires had == (m / (10 * d) != 0)
    requires dest == sign + LeadingDigits(m / (10 * d))
    ensures 0 <= v / d < 10
    ensures var had' := had || v / d != 0;
            && had' == (m / d != 0)
            && (if had' then dest + [DigitChar(v / d)] else dest) == sign + LeadingDigits(m / d)
    ensures v - v / d * d == m % d
    ensures var d' := d / 10; d' == 1 || d' == 10 || d' == 100 || d' == 1000
    ensures 10 * (d / 10) == d
  {
    DigitStep(m, d, v);
    LeadingDigitsStep(m / d);
  }

  /** The digits mysprintf writes after its loop complete the text of the magnitude m. */
  lemma FinalUnsigned(m: nat, dp: bool)
    ensures var lead := LeadingDigits(m / 10);
            (if dp then (if m / 10 != 0 then lead else lead + ['0']) + ['.'] else lead) + [DigitChar(m % 10)]
            == UnsignedText(m, dp)
  {
    LeadingDigitsStep(m);
    if dp {
      assert Digits(m / 10) == LeadingDigits(m / 10) + (if m / 10 != 0 then [] else ['0']);
    }
  }

  /**
   * What mysprintf appends after the digit loop completes the text of the
   * value: v is the last digit and head holds the sign and the digits above it.
   */
  lemma FinalDigits(value: int16, dp: bool, v: int, had: bool, head: seq<char>, sign: seq<char>)
    requires sign == if value < 0 then ['-'] else []
    requires v == Magnitude(value) % 10
    requires had == (Magnitude(value) / 10 != 0)
    requires head == sign + LeadingDigits(Magnitude(value) / 10)
    ensures 0 <= v < 10
    ensures var r := (if dp then (if had then head else head + ['0']) + ['.'] else head) + [DigitChar(v)];
            r == Text(value, dp) && |r| <= 7
  {
    var m := Magnitude(value);
    var lead := LeadingDigits(m / 10);
    var tail := (if dp then (if had then lead else lead + ['0']) + ['.'] else lead) + [DigitChar(v)];
    var c := DigitChar(v);
    FinalUnsigned(m, dp);
    if !dp {
      assert head + [c] == sign + (lead + [c]);
    } else if had {
      assert head + ['.'] + [c] == sign + (lead + ['.'] + [c]);
    } else {
      assert head + ['0'] + ['.'] + [c] == sign + (lead + ['0'] + ['.'] + [c]);
    }
    TextLength(value, dp);
  }

  /**
   * mysprintf: writes the text of value (a '.' before the last digit when
   * addDP is set) followed by a 0 terminator, and returns the number of
   * characters before the terminator.
   */
  method MySprintf(value: int16, addDP: bool) returns (dest: seq<char>, digitCount: nat)
    ensures dest == Text(value, addDP) + ['\0']
    ensures digitCount == |dest| - 1
    ensures |dest| <= 8
  {
    var v: int := value;
    dest := [];
    digitCount := 0;
    if v < 0 {
      dest := dest + ['-'];
      digitCount := digitCount + 1;
      v := -v;
    }
    ghost var sign := dest;
    var hadADigit;
    dest, digitCount, hadADigit, v := ConvertDigits(v, dest, digitCount);
    FinalDigits(value, addDP, v, hadADigit, dest, sign);
    if addDP {
      if !hadADigit {
        dest := dest + ['0'];
        digitCount := digitCount + 1;
      }
      dest := dest + ['.'];
      digitCount := digitCount + 1;
    }
    dest := dest + [DigitChar(v)];
    digitCount := digitCount + 1;
    dest := dest + ['\0'];
  }

  /**
   * The digit loop of mysprintf: from divisor 10000 down to 10, appends the
   * digits of the magnitude m above its last one, skipping leading zeros,
   * and leaves the last digit as the remainder. 10000 covers every 16-bit
   * value.
   */
  method ConvertDigits(m: nat, dest0: seq<char>, count0: nat)
    returns (dest: seq<char>, digitCount: nat, hadADigit: bool, v: int)
    requires m < 100000 && count0 == |dest0|
    ensures v == m % 10 && hadADigit == (m / 10 != 0)
    ensures dest == dest0 + LeadingDigits(m / 10) && digitCount == |dest|
  {
    v := m;
    dest, digitCount := dest0, count0;
    hadADigit := false;
    var divisor := 10000;
    while divisor >= 10
      invariant divisor == 10000 || divisor == 1000 || divisor == 100 || divisor == 10 || divisor == 1
      invariant v == m % (10 * divisor)
      invariant hadADigit == (m / (10 * divisor) != 0)
      invariant dest == dest0 + LeadingDigits(m / (10 * divisor))
      invariant digitCount == |dest|
    {
      LoopStep(m, divisor, v, hadADigit, dest, dest0);
      var digit := v / divisor;
      if digit != 0 {
        hadADigit := true;
      }
      if hadADigit {
        dest := dest + [DigitChar(digit)];
        digitCount := digitCount + 1;
      }
      v := v - digit * divisor;
      divisor := divisor / 10;
    }
    assert divisor == 1;
  }

  /** The value shown in each readout slot: degrees, volts, current, forward and reverse watts. */
  function ReadoutValue(r: Readings, index: nat): int16
    requires index < 5
  {
    if index == 0 then ToInt16(r.temperature / 10)
    else if index == 1 then ToInt16(r.psuVoltage / 10)
    else if index == 2 then ToInt16(r.current)
    else if index == 3 then ToInt16(r.fwdPower)
    else ToInt16(r.revPower)
  }

  /** The display object of each readout slot on the TX and tripped pages. */
  function ReadoutObject(page: DisplayPage, index: nat): string
    requires page == TXPage || page == TrippedPage
    requires index < 5
  {
    if page == TXPage then ["p2t16", "p2t17", "p2t18", "p2t19", "p2t20"][index]
    else ["p3t13", "p3t14", "p3t15", "p3t16", "p3t17"][index]
  }

  /** The tripped page label highlighted for a trip cause. */
  function TrippedLabel(cause: TripCause): (name: Option<string>)
    ensures name.None? <==> cause == NoTrip
  {
    match cause
    case NoTrip => None
    case TripCurrent => Some("p3t5")
    case TripPSUVoltage => Some("p3t4")
    case TripTemperature => Some("p3t1")
    case TripFwdPower => Some("p3t6")
    case TripRevPower => Some("p3t7")
  }

  /** Each cause highlights a label of its own. */
  lemma TrippedLabelInjective(a: TripCause, b: TripCause)
    requires TrippedLabel(a) == TrippedLabel(b)
    ensures a == b
  {
  }

  /** Display commands that paint the label of a cause red and refresh it. */
  function HighlightCommands(cause: TripCause): (commands: seq<string>)
    ensures cause == NoTrip <==> commands == []
    ensures cause != NoTrip ==>
              |commands| == 2
              && commands[0] == TrippedLabel(cause).value + ".bco=RED"
              && commands[1] == "ref " + TrippedLabel(cause).value
  {
    match TrippedLabel(cause)
    case None => []
    case Some(name) => [name + ".bco=RED", "ref " + name]
  }

  class DisplayState {
    var page: DisplayPage                // GDisplayPage
    var throttleTicks: nat               // GDisplayThrottleTicks
    var dataIndex: nat                   // GDisplayData

    /** The throttle never exceeds its longest reload; the readout index stays in [0, 4]. */
    ghost predicate Valid()
      reads this
    {
      throttleTicks <= HalfSecond && dataIndex <= 4
    }

    /** The power-on state: zero-initialised globals (page 0 is the splash page). */
    constructor ()
      ensures Valid()
      ensures page == SplashPage && throttleTicks == 0 && dataIndex == 0
    {
      page := SplashPage;
      throttleTicks := 0;
      dataIndex := 0;
    }

    /** SetDisplayPage: show a page and restart its update cycle. */
    method SetDisplayPage(newPage: DisplayPage)
      modifies this
      ensures Valid()
      ensures page == newPage && throttleTicks == HalfSecond && dataIndex == 0
    {
      page := newPage;
      throttleTicks := HalfSecond;
      dataIndex := 0;
    }

    /**
     * The display tick. When its throttle runs out, the RX page refreshes its
     * temperature and the TX and tripped pages refresh one readout each, in
     * round-robin order; otherwise the throttle counts down.
     */
    method DisplayTick(r: Readings) returns (update: Option<TextUpdate>)
      requires Valid()
      modifies this
      ensures Valid()
      ensures page == old(page)
      ensures old(page) !in {RXPage, TXPage, TrippedPage} ==>
                throttleTicks == old(throttleTicks) && dataIndex == old(dataIndex) && update == None
      ensures old(page) == RXPage ==>
                && dataIndex == old(dataIndex)
                && if old(throttleTicks) == 0 then
                     throttleTicks == HalfSecond
                     && update == Some(TextUpdate("p1t8", Text(ToInt16(r.temperature / 10), false)))
                   else
                     throttleTicks == old(throttleTicks) - 1 && update == None
      ensures old(page) in {TXPage, TrippedPage} ==>
                if old(throttleTicks) == 0 then
                  && throttleTicks == TenthSecond
                  && dataIndex == (old(dataIndex) + 1) % 5
                  && update == Some(TextUpdate(ReadoutObject(old(page), old(dataIndex)),
                                               Text(ReadoutValue(r, old(dataIndex)), false)))
                else
                  throttleTicks == old(throttleTicks) - 1 && dataIndex == old(dataIndex) && update == None
    {
      update := None;
      match page {
        case RXPage =>
          if throttleTicks == 0 {
            var text, count := MySprintf(ToInt16(r.temperature / 10), false);
            update := Some(TextUpdate("p1t8", text[..count]));
            throttleTicks := HalfSecond;
          } else {
            throttleTicks := throttleTicks - 1;
          }
        case TXPage =>
          update := RefreshReadout(r);
        case TrippedPage =>
          update := RefreshReadout(r);
        case _ =>
      }
    }

    /** The TX and tripped pages' case of the display tick. */
    method RefreshReadout(r: Readings) returns (update: Option<TextUpdate>)
      requires Valid() && (page == TXPage || page == TrippedPage)
      modifies this
      ensures Valid()
      ensures page == old(page)
      ensures if old(throttleTicks) == 0 then
                && throttleTicks == TenthSecond
                && dataIndex == (old(dataIndex) + 1) % 5
                && update == Some(TextUpdate(ReadoutObject(page, old(dataIndex)),
                                             Text(ReadoutValue(r, old(dataIndex)), false)))
              else
                throttleTicks == old(throttleTicks) - 1 && dataIndex == old(dataIndex) && update == None
    {
      if throttleTicks == 0 {
        var text, count := MySprintf(ReadoutValue(r, dataIndex), false);
        update := Some(TextUpdate(ReadoutObject(page, dataIndex), text[..count]));
        throttleTicks := TenthSecond;
        if dataIndex == 4 {
          dataIndex := 0;
        } else {
          dataIndex := dataIndex + 1;
        }
      } else {
        update := None;
        throttleTicks := throttleTicks - 1;
      }
    }

    /**
     * The display reports that a page has loaded (the page callbacks): the
     * page is recorded without restarting its update cycle; the tripped page
     * highlights the label of the cause, the about page shows the software
     * version.
     */
    method PagePushed(newPage: DisplayPage, cause: TripCause) returns (commands: seq<string>, update: Option<TextUpdate>)
      requires newPage != EngineeringPage
      modifies this
      ensures page == newPage && throttleTicks == old(throttleTicks) && dataIndex == old(dataIndex)
      ensures commands == if newPage == TrippedPage then HighlightCommands(cause) else []
      ensures update == if newPage == AboutPage then Some(TextUpdate("p4t4", "5")) else None
    {
      page := newPage;
      commands := [];
      update := None;
      if newPage == TrippedPage {
        commands := HighlightCommands(cause);
      } else if newPage == AboutPage {
        var text, count := MySprintf(CatCodes.SWVERSION, false);
        assert Text(CatCodes.SWVERSION, false) == Digits(5) == [DigitChar(5)] == "5";
        update := Some(TextUpdate("p4t4", text[..count]));
      }
    }

    /** DisplaySetOnTime: the on-time text is shown only on the RX page. */
    function OnTimeUpdate(text: string): (update: Option<TextUpdate>)
      reads this
      ensures update.Some? <==> page == RXPage
      ensures update.Some? ==> update.value.target == "p1t5" && update.value.text == text
    {
      if page == RXPage then Some(TextUpdate("p1t5", text)) else None
    }
  }
}
