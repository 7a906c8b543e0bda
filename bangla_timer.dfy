/** The Bangla clock: the same 12-hour time as the English clock, with
    every ASCII digit replaced by the Bengali digit of the same value and a
    Bengali forenoon/afternoon label. */
module BanglaTimer {

  import opened JsStrings
  import opened Clock

  /** `banglaDigits`: the Bengali digits zero to nine, U+09E6 to U+09EF. */
  const BanglaDigits: seq<char> := ['\U{09E6}', '\U{09E7}', '\U{09E8}', '\U{09E9}', '\U{09EA}',
                                    '\U{09EB}', '\U{09EC}', '\U{09ED}', '\U{09EE}', '\U{09EF}']

  /** The afternoon label and the forenoon label. */
  const Afternoon: string := "\U{0985}\U{09AA}\U{09B0}\U{09BE}\U{09B9}\U{09CD}\U{09A3}"
  const Forenoon: string := "\U{09AA}\U{09C2}\U{09B0}\U{09CD}\U{09AC}\U{09BE}\U{09B9}\U{09CD}\U{09A3}"

  predicate IsBanglaDigit(c: char) {
    '\U{09E6}' <= c <= '\U{09EF}'
  }

  /** One character of `toBangla`: `parseInt` of a single character is a
      number exactly for an ASCII digit, which is replaced by its Bengali
      digit; every other character is kept. */
  function BanglaChar(c: char): (b: char)
    ensures IsAsciiDigit(c) ==> IsBanglaDigit(b) && b as int - 0x09E6 == c as int - '0' as int
    ensures !IsAsciiDigit(c) ==> b == c
  {
    if IsAsciiDigit(c) then BanglaDigits[c as int - '0' as int] else c
  }

  /** `toBangla` on the string form of its argument. */
  function ToBangla(s: string): (r: string)
    ensures |r| == |s|
    ensures forall i :: 0 <= i < |s| ==> r[i] == BanglaChar(s[i])
  {
    if s == [] then [] else [BanglaChar(s[0])] + ToBangla(s[1..])
  }

  /** The reverse transliteration, a Bengali digit back to its ASCII digit. */
  function AsciiChar(c: char): (a: char)
    ensures IsBanglaDigit(c) ==> IsAsciiDigit(a) && a as int - '0' as int == c as int - 0x09E6
    ensures !IsBanglaDigit(c) ==> a == c
  {
    if IsBanglaDigit(c) then ('0' as int + (c as int - 0x09E6)) as char else c
  }

  function FromBangla(s: string): (r: string)
    ensures |r| == |s|
    ensures forall i :: 0 <= i < |s| ==> r[i] == AsciiChar(s[i])
  {
    if s == [] then [] else [AsciiChar(s[0])] + FromBangla(s[1..])
  }

  predicate NoBanglaDigits(s: string) {
    forall i :: 0 <= i < |s| ==> !IsBanglaDigit(s[i])
  }

  predicate BanglaDigitText(s: string) {
    forall i :: 0 <= i < |s| ==> IsBanglaDigit(s[i])
  }

  /** No ASCII digit survives `toBangla`, whatever the input. */
  lemma NoAsciiDigitLeft(s: string)
    ensures forall i :: 0 <= i < |ToBangla(s)| ==> !IsAsciiDigit(ToBangla(s)[i])
  {
  }

  /** Text that has no Bengali digits to begin with is recovered from its
      transliteration. */
  lemma BanglaRoundTrip(s: string)
    requires NoBanglaDigits(s)
    ensures FromBangla(ToBangla(s)) == s
  {
    assert forall i :: 0 <= i < |s| ==> FromBangla(ToBangla(s))[i] == AsciiChar(BanglaChar(s[i]));
  }

  /** So two such texts with the same transliteration are the same text. */
  lemma ToBanglaInjective(s1: string, s2: string)
    requires NoBanglaDigits(s1) && NoBanglaDigits(s2) && ToBangla(s1) == ToBangla(s2)
    ensures s1 == s2
  {
    BanglaRoundTrip(s1);
    BanglaRoundTrip(s2);
  }

  /** ASCII digit text transliterates to as many Bengali digits and back. */
  lemma TransliterateDigits(s: string)
    requires DigitText(s)
    ensures BanglaDigitText(ToBangla(s))
    ensures FromBangla(ToBangla(s)) == s
  {
    assert NoBanglaDigits(s) by {
      forall i | 0 <= i < |s| ensures !IsBanglaDigit(s[i]) { assert IsAsciiDigit(s[i]); }
    }
    BanglaRoundTrip(s);
  }

  /** A number written with `toBangla` is all Bengali digits, as many as its
      decimal form has, and reads back as the number. */
  lemma BanglaNumber(n: nat)
    ensures |ToBangla(DecimalString(n))| == |Digits(n)|
    ensures BanglaDigitText(ToBangla(DecimalString(n)))
    ensures FromBangla(ToBangla(DecimalString(n))) == Digits(n)
    ensures DigitText(FromBangla(ToBangla(DecimalString(n))))
    ensures DigitsValue(FromBangla(ToBangla(DecimalString(n)))) == n
  {
    TransliterateDigits(Digits(n));
    DigitsRoundTrip(n);
  }

  /** `hours >= 12 ? afternoon : forenoon`. */
  function BanglaAmPm(hours: int): (ampm: string)
    ensures ampm == Afternoon <==> IsAfternoon(hours)
    ensures ampm == Forenoon <==> !IsAfternoon(hours)
  {
    if hours >= 12 then Afternoon else Forenoon
  }

  /** The four pieces of text both variants show; unlike the English clock
      the hour is not zero-padded. */
  datatype BanglaFace = BanglaFace(hoursText: string, minutesText: string, secondsText: string, ampm: string)

  function ShowBanglaFace(t: TimeOfDay): BanglaFace {
    BanglaFace(ToBangla(DecimalString(DisplayHours(t.hours))), ToBangla(PadTwo(t.minutes)),
               ToBangla(PadTwo(t.seconds)), BanglaAmPm(t.hours))
  }

  /** `{toBangla(displayHours)}:{toBangla(minutes…)}`. */
  function BanglaMinimalLine(f: BanglaFace): string {
    f.hoursText + ":" + f.minutesText
  }

  /** The line is the hour's one or two Bengali digits, a colon, then the
      minutes' two Bengali digits: the colon is the first non-digit, so both
      numbers can be read off the line. */
  lemma BanglaMinimalLineShape(t: TimeOfDay)
    requires ValidTime(t)
    ensures var h := ShowBanglaFace(t).hoursText;
            1 <= |h| <= 2 && |BanglaMinimalLine(ShowBanglaFace(t))| == |h| + 3
            && BanglaMinimalLine(ShowBanglaFace(t))[|h|] == ':'
            && BanglaDigitText(BanglaMinimalLine(ShowBanglaFace(t))[..|h|])
            && BanglaMinimalLine(ShowBanglaFace(t))[..|h|] == h
            && BanglaMinimalLine(ShowBanglaFace(t))[|h| + 1..] == ShowBanglaFace(t).minutesText
  {
    BanglaFaceWellFormed(t);
    LineOfBanglaFields(ShowBanglaFace(t));
  }

  lemma LineOfBanglaFields(f: BanglaFace)
    requires BanglaDigitText(f.hoursText) && |f.minutesText| == 2
    ensures var h := f.hoursText;
            |BanglaMinimalLine(f)| == |h| + 3 && BanglaMinimalLine(f)[|h|] == ':'
            && BanglaMinimalLine(f)[..|h|] == h && BanglaMinimalLine(f)[|h| + 1..] == f.minutesText
  {
  }

  /** Two-digit padded text, transliterated: exactly two Bengali digits, the
      first one the Bengali zero exactly below 10, reading back as `n`. */
  lemma BanglaPadTwo(n: int)
    requires 0 <= n <= 59
    ensures |ToBangla(PadTwo(n))| == 2
    ensures BanglaDigitText(ToBangla(PadTwo(n)))
    ensures ToBangla(PadTwo(n))[0] == BanglaDigits[0] <==> n < 10
    ensures DigitText(FromBangla(ToBangla(PadTwo(n))))
    ensures DigitsValue(FromBangla(ToBangla(PadTwo(n)))) == n
  {
    PadTwoShape(n);
    PadTwoLeadingZero(n);
    PadTwoValue(n);
    BanglaTwoDigits(PadTwo(n));
  }

  lemma BanglaTwoDigits(p: string)
    requires |p| == 2 && DigitText(p)
    ensures |ToBangla(p)| == 2
    ensures BanglaDigitText(ToBangla(p))
    ensures ToBangla(p)[0] == BanglaDigits[0] <==> p[0] == '0'
    ensures FromBangla(ToBangla(p)) == p
  {
    TransliterateDigits(p);
    assert ToBangla(p)[0] == BanglaChar(p[0]);
  }

  /** The hour is one Bengali digit for 1..9 and two for 10..12; minutes and
      seconds are always two Bengali digits. */
  lemma BanglaFaceWellFormed(t: TimeOfDay)
    requires ValidTime(t)
    ensures BanglaDigitText(ShowBanglaFace(t).hoursText)
    ensures |ShowBanglaFace(t).hoursText| == if DisplayHours(t.hours) < 10 then 1 else 2
    ensures |ShowBanglaFace(t).minutesText| == 2 && BanglaDigitText(ShowBanglaFace(t).minutesText)
    ensures |ShowBanglaFace(t).secondsText| == 2 && BanglaDigitText(ShowBanglaFace(t).secondsText)
  {
    DisplayHoursRange(t.hours);
    BanglaShortNumber(DisplayHours(t.hours));
    BanglaPadTwo(t.minutes);
    BanglaPadTwo(t.seconds);
  }

  /** A number 0..99 written with `toBangla` is one Bengali digit below 10
      and two from 10 on. */
  lemma BanglaShortNumber(n: int)
    requires 0 <= n <= 99
    ensures BanglaDigitText(ToBangla(DecimalString(n)))
    ensures |ToBangla(DecimalString(n))| == if n < 10 then 1 else 2
    ensures DigitsValue(FromBangla(ToBangla(DecimalString(n)))) == n
  {
    BanglaNumber(n);
    if n >= 10 {
      TwoDigitNumber(n);
    }
  }

  /** Each number on the Bengali face reads back as the number shown. */
  lemma BanglaFaceValues(t: TimeOfDay)
    requires ValidTime(t)
    ensures DigitText(FromBangla(ShowBanglaFace(t).hoursText))
    ensures DigitsValue(FromBangla(ShowBanglaFace(t).hoursText)) == DisplayHours(t.hours)
    ensures DigitText(FromBangla(ShowBanglaFace(t).minutesText))
    ensures DigitsValue(FromBangla(ShowBanglaFace(t).minutesText)) == t.minutes
    ensures DigitText(FromBangla(ShowBanglaFace(t).secondsText))
    ensures DigitsValue(FromBangla(ShowBanglaFace(t).secondsText)) == t.seconds
  {
    DisplayHoursRange(t.hours);
    BanglaNumber(DisplayHours(t.hours));
    BanglaPadTwo(t.minutes);
    BanglaPadTwo(t.seconds);
  }

  /** Reading the Bengali face back: digits transliterated back and read
      as numbers, the label deciding the half of the day. */
  function ReadBanglaFace(f: BanglaFace): TimeOfDay
    requires BanglaDigitText(f.hoursText) && BanglaDigitText(f.minutesText) && BanglaDigitText(f.secondsText)
  {
    AllAsciiAfterFromBangla(f.hoursText);
    AllAsciiAfterFromBangla(f.minutesText);
    AllAsciiAfterFromBangla(f.secondsText);
    TimeOfDay(To24Hour(DigitsValue(FromBangla(f.hoursText)), f.ampm == Afternoon),
              DigitsValue(FromBangla(f.minutesText)), DigitsValue(FromBangla(f.secondsText)))
  }

  lemma AllAsciiAfterFromBangla(s: string)
    requires BanglaDigitText(s)
    ensures forall i :: 0 <= i < |FromBangla(s)| ==> IsAsciiDigit(FromBangla(s)[i])
  {
  }

  /** The Bengali face shows the time unambiguously. */
  lemma BanglaFaceRoundTrip(t: TimeOfDay)
    requires ValidTime(t)
    ensures BanglaDigitText(ShowBanglaFace(t).hoursText) && BanglaDigitText(ShowBanglaFace(t).minutesText)
            && BanglaDigitText(ShowBanglaFace(t).secondsText)
    ensures ReadBanglaFace(ShowBanglaFace(t)) == t
  {
    BanglaFaceWellFormed(t);
    BanglaFaceValues(t);
    ReadBack(ShowBanglaFace(t), t);
  }

  lemma ReadBack(f: BanglaFace, t: TimeOfDay)
    requires 0 <= t.hours <= 23
    requires BanglaDigitText(f.hoursText) && BanglaDigitText(f.minutesText) && BanglaDigitText(f.secondsText)
    requires DigitsValue(FromBangla(f.hoursText)) == DisplayHours(t.hours)
    requires DigitsValue(FromBangla(f.minutesText)) == t.minutes
    requires DigitsValue(FromBangla(f.secondsText)) == t.seconds
    requires f.ampm == Afternoon <==> IsAfternoon(t.hours)
    ensures ReadBanglaFace(f) == t
  {
    To24HourRoundTrip(t.hours);
  }

  /** Two different times of day never show the same Bengali face. */
  lemma BanglaFaceInjective(t1: TimeOfDay, t2: TimeOfDay)
    requires ValidTime(t1) && ValidTime(t2) && ShowBanglaFace(t1) == ShowBanglaFace(t2)
    ensures t1 == t2
  {
    BanglaFaceRoundTrip(t1);
    BanglaFaceRoundTrip(t2);
  }

  /** The day of the month, `toBangla(time.getDate())`, for days 1..31. */
  lemma BanglaDayOfMonth(day: int)
    requires 1 <= day <= 31
    ensures BanglaDigitText(ToBangla(DecimalString(day)))
    ensures |ToBangla(DecimalString(day))| == if day < 10 then 1 else 2
    ensures DigitsValue(FromBangla(ToBangla(DecimalString(day)))) == day
  {
    BanglaShortNumber(day);
  }
}
