/** The English clock: zero-padded 12-hour hours, minutes and seconds and
    an AM/PM label, recomputed on every one-second tick. */
module EnglishTimer {

  import opened JsStrings
  import opened Clock

  /** `hours >= 12 ? 'PM' : 'AM'`. */
  function AmPm(hours: int): (ampm: string)
    ensures ampm == "PM" <==> IsAfternoon(hours)
    ensures ampm == "AM" <==> !IsAfternoon(hours)
  {
    if hours >= 12 then "PM" else "AM"
  }

  /** The four pieces of text both variants show. */
  datatype Face = Face(hoursText: string, minutesText: string, secondsText: string, ampm: string)

  function ShowFace(t: TimeOfDay): Face {
    Face(PadTwo(DisplayHours(t.hours)), PadTwo(t.minutes), PadTwo(t.seconds), AmPm(t.hours))
  }

  /** The minimal variant's main line, `hh:mm`. */
  function MinimalLine(f: Face): string {
    f.hoursText + ":" + f.minutesText
  }

  /** Reading a face back as it would be read off the screen. */
  function ReadFace(f: Face): TimeOfDay
    requires DigitText(f.hoursText) && DigitText(f.minutesText) && DigitText(f.secondsText)
  {
    TimeOfDay(To24Hour(DigitsValue(f.hoursText), f.ampm == "PM"), DigitsValue(f.minutesText),
              DigitsValue(f.secondsText))
  }

  /** Each of the three numbers is exactly two ASCII digits. */
  lemma FaceWellFormed(t: TimeOfDay)
    requires ValidTime(t)
    ensures |ShowFace(t).hoursText| == 2 && DigitText(ShowFace(t).hoursText)
    ensures |ShowFace(t).minutesText| == 2 && DigitText(ShowFace(t).minutesText)
    ensures |ShowFace(t).secondsText| == 2 && DigitText(ShowFace(t).secondsText)
  {
    DisplayHoursRange(t.hours);
    PadTwoShape(DisplayHours(t.hours));
    PadTwoShape(t.minutes);
    PadTwoShape(t.seconds);
  }

  /** The minimal line is `hh:mm`: five characters with the colon in the middle. */
  lemma MinimalLineShape(t: TimeOfDay)
    requires ValidTime(t)
    ensures |MinimalLine(ShowFace(t))| == 5 && MinimalLine(ShowFace(t))[2] == ':'
    ensures MinimalLine(ShowFace(t))[..2] == ShowFace(t).hoursText
    ensures MinimalLine(ShowFace(t))[3..] == ShowFace(t).minutesText
  {
    FaceWellFormed(t);
    LineOfTwoDigitFields(ShowFace(t));
  }

  lemma LineOfTwoDigitFields(f: Face)
    requires |f.hoursText| == 2 && |f.minutesText| == 2
    ensures |MinimalLine(f)| == 5 && MinimalLine(f)[2] == ':'
    ensures MinimalLine(f)[..2] == f.hoursText && MinimalLine(f)[3..] == f.minutesText
  {
  }

  /** The face shows the time unambiguously: it reads back as the same time. */
  lemma FaceRoundTrip(t: TimeOfDay)
    requires ValidTime(t)
    ensures DigitText(ShowFace(t).hoursText) && DigitText(ShowFace(t).minutesText)
            && DigitText(ShowFace(t).secondsText)
    ensures ReadFace(ShowFace(t)) == t
  {
    FaceWellFormed(t);
    DisplayHoursRange(t.hours);
    PadTwoValue(DisplayHours(t.hours));
    PadTwoValue(t.minutes);
    PadTwoValue(t.seconds);
    ReadFaceBack(ShowFace(t), t);
  }

  lemma ReadFaceBack(f: Face, t: TimeOfDay)
    requires 0 <= t.hours <= 23
    requires DigitText(f.hoursText) && DigitText(f.minutesText) && DigitText(f.secondsText)
    requires DigitsValue(f.hoursText) == DisplayHours(t.hours)
    requires DigitsValue(f.minutesText) == t.minutes && DigitsValue(f.secondsText) == t.seconds
    requires f.ampm == "PM" <==> IsAfternoon(t.hours)
    ensures ReadFace(f) == t
  {
    To24HourRoundTrip(t.hours);
  }

  /** Two different times of day never show the same face. */
  lemma FaceInjective(t1: TimeOfDay, t2: TimeOfDay)
    requires ValidTime(t1) && ValidTime(t2) && ShowFace(t1) == ShowFace(t2)
    ensures t1 == t2
  {
    FaceRoundTrip(t1);
    FaceRoundTrip(t2);
  }
}
