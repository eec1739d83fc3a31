// The amplifier's "on time" clock (ontime.cpp): seconds and minutes in
// bytes, hours in a 16-bit int, advanced once a second and formatted as
// H:MM:SS for the display. The hours text comes from the C library's itoa,
// which writes the same decimal text as Decimal.Text without a point.
module OnTime {
  import opened Types
  import opened Decimal

  /** The two-character, zero-padded decimal text of n < 100. */
  function TwoDigits(n: nat): (r: seq<char>)
    requires n < 100
    ensures |r| == 2 && IsDigit(r[0]) && IsDigit(r[1])
    ensures DigitValue(r[0]) * 10 + DigitValue(r[1]) == n
  {
    [DigitChar(n / 10), DigitChar(n % 10)]
  }

  /** Hours, ':', two-digit minutes, ':', two-digit seconds. */
  function ClockText(hours: int, minutes: nat, seconds: nat): (r: seq<char>)
    requires minutes < 60 && seconds < 60
    ensures |r| == |Text(hours, false)| + 6
    ensures r[..|r| - 6] == Text(hours, false)
    ensures r[|r| - 6] == ':' && r[|r| - 3] == ':'
  {
    Text(hours, false) + [':'] + TwoDigits(minutes) + [':'] + TwoDigits(seconds)
  }

  /** The minutes and seconds of a clock text are read back from its last five characters. */
  lemma ClockFieldsRoundTrip(hours: int, minutes: nat, seconds: nat)
    requires minutes < 60 && seconds < 60
    ensures var r := ClockText(hours, minutes, seconds);
            var k := |r|;
            && DigitValue(r[k - 5]) * 10 + DigitValue(r[k - 4]) == minutes
            && DigitValue(r[k - 2]) * 10 + DigitValue(r[k - 1]) == seconds
  {
    var r := ClockText(hours, minutes, seconds);
    var t := Text(hours, false);
    assert r == t + [':'] + TwoDigits(minutes) + [':'] + TwoDigits(seconds);
    assert r[|r| - 5..|r| - 3] == TwoDigits(minutes);
    assert r[|r| - 2..] == TwoDigits(seconds);
  }

  /** Distinct times have distinct clock texts. */
  lemma ClockTextInjective(h: int, m: nat, s: nat, h': int, m': nat, s': nat)
    requires m < 60 && s < 60 && m' < 60 && s' < 60
    requires ClockText(h, m, s) == ClockText(h', m', s')
    ensures h == h' && m == m' && s == s'
  {
    ClockFieldsRoundTrip(h, m, s);
    ClockFieldsRoundTrip(h', m', s');
    TextInjective(h, h', false);
  }

  /** The clock text, character by character as TimeSecondTick writes it. */
  lemma ClockTextChars(hours: int, minutes: nat, seconds: nat)
    requires minutes < 60 && seconds < 60
    ensures ClockText(hours, minutes, seconds) + ['\0']
            == Text(hours, false) + [':'] + [DigitChar(minutes / 10)] + [DigitChar(minutes % 10)]
               + [':'] + [DigitChar(seconds / 10)] + [DigitChar(seconds % 10)] + ['\0']
  {
  }

  /** GHours++ on the 16-bit target: 32767 wraps to -32768. */
  function IncrementHours(h: int16): (r: int16)
    ensures h < 0x7FFF ==> r == h + 1
    ensures h == 0x7FFF ==> r == -0x8000
  {
    if h == 0x7FFF then -0x8000 else h + 1
  }

  /** A reading of the clock. */
  datatype Time = Time(hours: int16, minutes: nat, seconds: nat)

  predicate ValidTime(t: Time) {
    t.minutes < 60 && t.seconds < 60
  }

  /** Total seconds a reading shows. */
  function TotalSeconds(t: Time): int {
    t.hours * 3600 + t.minutes * 60 + t.seconds
  }

  /**
   * One second later, with carry: the minutes change only when the seconds
   * wrap to 0, and the hours only when both wrap.
   */
  function Advance(t: Time): (r: Time)
    requires ValidTime(t)
    ensures ValidTime(r)
    ensures r.seconds == (t.seconds + 1) % 60
    ensures r.minutes != t.minutes <==> r.seconds == 0
    ensures r.hours != t.hours <==> r.minutes == 0 && r.seconds == 0
  {
    if t.seconds + 1 < 60 then t.(seconds := t.seconds + 1)
    else if t.minutes + 1 < 60 then t.(minutes := t.minutes + 1, seconds := 0)
    else Time(IncrementHours(t.hours), 0, 0)
  }

  /** Advancing adds exactly one second, unless the hours wrap around. */
  lemma AdvanceAddsOneSecond(t: Time)
    requires ValidTime(t) && t.hours < 0x7FFF
    ensures TotalSeconds(Advance(t)) == TotalSeconds(t) + 1
  {
    var r := Advance(t);
    if t.seconds + 1 == 60 && t.minutes + 1 == 60 {
      assert r.hours * 3600 == t.hours * 3600 + 3600;
    }
  }

  class Clock {
    var seconds: nat                      // GSeconds (a byte)
    var minutes: nat                      // GMinutes (a byte)
    var hours: int16                      // GHours

    /** Seconds and minutes each stay in [0, 59]. */
    ghost predicate Valid()
      reads this
    {
      ValidTime(Now())
    }

    function Now(): Time
      reads this
    {
      Time(hours, minutes, seconds)
    }

    /** OnTimeInit: the clock starts at 0:00:00. */
    constructor OnTimeInit()
      ensures Valid()
      ensures Now() == Time(0, 0, 0)
    {
      seconds := 0;
      minutes := 0;
      hours := 0;
    }

    /**
     * TimeSecondTick: advance the clock by one second with carry, and build
     * the text sent to the display, 0-terminated, one character at a time.
     */
    method TimeSecondTick() returns (str: seq<char>)
      requires Valid()
      modifies this
      ensures Valid()
      ensures Now() == Advance(old(Now()))
      ensures str == ClockText(hours, minutes, seconds) + ['\0']
      ensures |str| == |Text(hours, false)| + 7
    {
      seconds := seconds + 1;
      if seconds >= 60 {
        seconds := 0;
        minutes := minutes + 1;
        if minutes >= 60 {
          minutes := 0;
          hours := IncrementHours(hours);
        }
      }
      ClockTextChars(hours, minutes, seconds);
      str := Text(hours, false);
      str := str + [':'];
      str := str + [DigitChar(minutes / 10)];
      str := str + [DigitChar(minutes % 10)];
      str := str + [':'];
      str := str + [DigitChar(seconds / 10)];
      str := str + [DigitChar(seconds % 10)];
      str := str + ['\0'];
    }
  }
}
