/** The arithmetic both clocks share: the 12-hour display hour and the
    two-digit zero padding of minutes and seconds. */
module Clock {

  import opened JsStrings

  /** What `getHours`, `getMinutes` and `getSeconds` return for one tick. */
  datatype TimeOfDay = TimeOfDay(hours: int, minutes: int, seconds: int)

  predicate ValidTime(t: TimeOfDay) {
    0 <= t.hours <= 23 && 0 <= t.minutes <= 59 && 0 <= t.seconds <= 59
  }

  /** The quotient JavaScript's `%` goes with: `a / b` truncated toward zero. */
  function JsQuot(a: int, b: int): int
    requires b > 0
  {
    if a >= 0 then a / b else -((-a) / b)
  }

  /** JavaScript's `%`: the remainder takes the sign of the dividend. */
  function JsRem(a: int, b: int): (r: int)
    requires b > 0
    ensures a == JsQuot(a, b) * b + r
    ensures -b < r < b
    ensures a >= 0 ==> r >= 0
    ensures a <= 0 ==> r <= 0
  {
    if a >= 0 then a % b else -((-a) % b)
  }

  /** `hours % 12 || 12`: a remainder of 0 falls back to 12. */
  function DisplayHours(hours: int): int {
    var r := JsRem(hours, 12);
    if r != 0 then r else 12
  }

  /** `hours >= 12`: the afternoon label is chosen. */
  predicate IsAfternoon(hours: int) {
    hours >= 12
  }

  /** Reading a 12-hour clock face back as a 24-hour value. */
  function To24Hour(displayHours: int, afternoon: bool): int {
    (if displayHours == 12 then 0 else displayHours) + (if afternoon then 12 else 0)
  }

  /** For every hour of the day the display hour is 1..12; midnight shows
      12, noon shows 12 and 13 shows 1. */
  lemma DisplayHoursRange(hours: int)
    requires 0 <= hours <= 23
    ensures 1 <= DisplayHours(hours) <= 12
    ensures DisplayHours(hours) == if hours == 0 || hours == 12 then 12
                                   else if hours < 12 then hours else hours - 12
  {
  }

  /** The display hour and the label together give back the hour. */
  lemma To24HourRoundTrip(hours: int)
    requires 0 <= hours <= 23
    ensures To24Hour(DisplayHours(hours), IsAfternoon(hours)) == hours
  {
    DisplayHoursRange(hours);
  }

  /** So no two hours of the day share a clock face. */
  lemma ClockFaceDeterminesHour(h1: int, h2: int)
    requires 0 <= h1 <= 23 && 0 <= h2 <= 23
    requires DisplayHours(h1) == DisplayHours(h2) && IsAfternoon(h1) == IsAfternoon(h2)
    ensures h1 == h2
  {
    To24HourRoundTrip(h1);
    To24HourRoundTrip(h2);
  }

  /** A string made only of ASCII digits. */
  predicate DigitText(s: string) {
    forall i :: 0 <= i < |s| ==> IsAsciiDigit(s[i])
  }

  /** `n.toString().padStart(2, '0')`. */
  function PadTwo(n: int): string {
    PadStart(DecimalString(n), 2, '0')
  }

  /** A minute or second pads to exactly two ASCII digits, with a leading 0
      exactly below 10, and reads back as the same number. */
  lemma {:induction false} PadTwoDigits(n: int)
    requires 0 <= n <= 59
    ensures |PadTwo(n)| == 2
    ensures DigitText(PadTwo(n))
    ensures PadTwo(n)[0] == '0' <==> n < 10
    ensures DigitsValue(PadTwo(n)) == n
  {
    var d := Digits(n);
    DigitsRoundTrip(n);
    if n < 10 {
      assert PadTwo(n) == ['0', d[0]];
      assert PadTwo(n)[..1] == ['0'];
    } else {
      var q := n / 10;
      assert q < 10;
      assert d == [DigitChar(q)] + [DigitChar(n % 10)];
      assert PadTwo(n) == d;
    }
  }

  /** The three parts of `PadTwoDigits`, one at a time. */
  lemma PadTwoShape(n: int)
    requires 0 <= n <= 59
    ensures |PadTwo(n)| == 2 && DigitText(PadTwo(n))
  {
    PadTwoDigits(n);
  }

  lemma PadTwoLeadingZero(n: int)
    requires 0 <= n <= 59
    ensures |PadTwo(n)| == 2 && (PadTwo(n)[0] == '0' <==> n < 10)
  {
    PadTwoDigits(n);
  }

  lemma PadTwoValue(n: int)
    requires 0 <= n <= 59
    ensures DigitText(PadTwo(n)) && DigitsValue(PadTwo(n)) == n
  {
    PadTwoDigits(n);
  }
}
