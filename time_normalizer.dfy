/** The fake server's time canonicaliser: a spoken or typed time phrase becomes a
    `"H:MM AM"` / `"H:MM PM"` string, or nothing when it cannot be read. */
module TimeNormalizer {
  import opened Wrappers
  import opened Strings

  /** What every branch works on: the phrase trimmed, upper-cased, dots removed
      (so "10 a.m." reads as "10 AM"). */
  function Canon(raw: string): (s: string)
    ensures '.' !in s
  {
    RemoveAll(Upper(Trim(raw)), '.')
  }

  function Clock(hour: string, minutes: string, meridiem: string): string {
    hour + ":" + minutes + " " + meridiem
  }

  predicate IsMeridiem(m: string) { m == "AM" || m == "PM" }

  /** A clock string whose hour has `k` digits: the hour digits, a colon, two minute
      digits, one space, AM or PM. */
  predicate ClockAt(o: string, k: nat) {
    |o| == k + 6 && (forall i :: 0 <= i < k ==> IsDigit(o[i])) && o[k] == ':'
    && IsDigit(o[k + 1]) && IsDigit(o[k + 2]) && o[k + 3] == ' '
    && (o[k + 4] == 'A' || o[k + 4] == 'P') && o[k + 5] == 'M'
  }

  /** The shape every answer has: one or two hour digits, then the rest of a clock. */
  predicate IsClockString(o: string) { ClockAt(o, 1) || ClockAt(o, 2) }

  /** The number of hour digits of a clock string. */
  function HourWidth(o: string): (k: nat)
    requires IsClockString(o)
    ensures (k == 1 || k == 2) && ClockAt(o, k)
  {
    if ClockAt(o, 1) then 1 else 2
  }

  function ClockHour(o: string): nat
    requires IsClockString(o)
  {
    var k := HourWidth(o);
    assert AllDigits(o[..k]) by { forall i | 0 <= i < k ensures IsDigit(o[..k][i]) { assert o[..k][i] == o[i]; } }
    DigitsValue(o[..k])
  }

  function ClockMinuteDigits(o: string): string
    requires IsClockString(o)
  {
    var k := HourWidth(o); o[k + 1..k + 3]
  }

  function ClockMeridiem(o: string): string requires IsClockString(o) { o[HourWidth(o) + 4..] }

  /** Minutes after midnight that a 12-hour clock string stands for. */
  function ClockMinutes(o: string): nat
    requires IsClockString(o)
  {
    var k := HourWidth(o);
    assert AllDigits(o[k + 1..k + 3]) by { assert o[k + 1..k + 3][0] == o[k + 1] && o[k + 1..k + 3][1] == o[k + 2]; }
    (ClockHour(o) % 12 + (if ClockMeridiem(o) == "PM" then 12 else 0)) * 60
    + DigitsValue(o[k + 1..k + 3])
  }

  /** The meridiem of a clock string is AM or PM, and it is the text from the hour's
      end plus four. */
  lemma ClockMeridiemIs(o: string)
    requires IsClockString(o)
    ensures IsMeridiem(ClockMeridiem(o))
  {
    var k := HourWidth(o);
    var m := o[k + 4..];
    assert |m| == 2 && m[0] == o[k + 4] && m[1] == o[k + 5];
    if m[0] == 'A' { assert m == "AM"; } else { assert m == "PM"; }
  }

  /** The hour digits of a clock string are its leading digit run. */
  lemma ClockDigitRun(o: string)
    requires IsClockString(o)
    ensures DigitRun(o) == HourWidth(o)
  {
    var k := HourWidth(o);
    assert o == o[..k] + o[k..];
    assert AllDigits(o[..k]) by { forall i | 0 <= i < k ensures IsDigit(o[..k][i]) { assert o[..k][i] == o[i]; } }
    DigitRunOf(o[..k], o[k..]);
  }

  /** `^(\d{1,2})(?::(\d{2}))?\s*(AM|PM)$`: hour digits, minute digits ("00" when
      absent) and meridiem. */
  function MatchMeridiem(s: string): (r: Option<(string, string, string)>)
    ensures r.Some? ==> 1 <= |r.value.0| <= 2 && AllDigits(r.value.0)
    ensures r.Some? ==> |r.value.1| == 2 && AllDigits(r.value.1) && IsMeridiem(r.value.2)
  {
    var k := DigitRun(s);
    if k == 0 || k > 2 then None
    else match MeridiemRest(s[k..])
      case Some((minutes, m)) => Some((s[..k], minutes, m))
      case None => None
  }

  /** What the 12-hour pattern reads after the hour digits: `(?::(\d{2}))?\s*(AM|PM)$`. */
  function MeridiemRest(rest: string): (r: Option<(string, string)>)
    ensures r.Some? ==> |r.value.0| == 2 && AllDigits(r.value.0) && IsMeridiem(r.value.1)
  {
    var (minutes, after) := MinutesPart(rest);
    var m := TrimStart(after);
    if IsMeridiem(m) then Some((minutes, m)) else None
  }

  /** The optional `:MM` group: its digits ("00" when absent) and what follows it. */
  function MinutesPart(rest: string): (r: (string, string))
    ensures |r.0| == 2 && AllDigits(r.0)
  {
    if |rest| >= 3 && rest[0] == ':' && IsDigit(rest[1]) && IsDigit(rest[2]) then
      var minutes := rest[1..3];
      assert minutes[0] == rest[1] && minutes[1] == rest[2];
      (minutes, rest[3..])
    else
      assert "00"[0] == '0' && "00"[1] == '0';
      ("00", rest)
  }

  /** `^(\d{1,2}):(\d{2})$`: hour digits and minute digits. */
  function Match24(s: string): (r: Option<(string, string)>)
    ensures r.Some? ==> 1 <= |r.value.0| <= 2 && AllDigits(r.value.0)
    ensures r.Some? ==> |r.value.1| == 2 && AllDigits(r.value.1)
  {
    var k := DigitRun(s);
    if 1 <= k <= 2 && |s| == k + 3 && s[k] == ':' && IsDigit(s[k + 1]) && IsDigit(s[k + 2])
    then Some((s[..k], s[k + 1..]))
    else None
  }

  /** `^(\d{1,2})$`. */
  function MatchHour(s: string): (r: Option<string>)
    ensures r.Some? ==> 1 <= |r.value| <= 2 && AllDigits(r.value)
  {
    if 1 <= |s| <= 2 && AllDigits(s) then Some(s) else None
  }

  lemma ClockShape(hour: string, minutes: string, meridiem: string)
    requires 1 <= |hour| <= 2 && AllDigits(hour)
    requires |minutes| == 2 && AllDigits(minutes) && IsMeridiem(meridiem)
    ensures IsClockString(Clock(hour, minutes, meridiem))
    ensures HourWidth(Clock(hour, minutes, meridiem)) == |hour|
    ensures ClockHour(Clock(hour, minutes, meridiem)) == DigitsValue(hour)
    ensures ClockMinuteDigits(Clock(hour, minutes, meridiem)) == minutes
    ensures ClockMeridiem(Clock(hour, minutes, meridiem)) == meridiem
  {
    ClockWidthOf(hour, minutes, meridiem);
    ClockHourDigits(hour, minutes, meridiem);
    ClockMinuteDigitsOf(hour, minutes, meridiem);
    ClockMeridiemOf(hour, minutes, meridiem);
  }

  lemma ClockWidthOf(hour: string, minutes: string, meridiem: string)
    requires 1 <= |hour| <= 2 && AllDigits(hour)
    requires |minutes| == 2 && AllDigits(minutes) && IsMeridiem(meridiem)
    ensures IsClockString(Clock(hour, minutes, meridiem)) && HourWidth(Clock(hour, minutes, meridiem)) == |hour|
  {
    ClockIndexes(hour, minutes, meridiem);
    var o := Clock(hour, minutes, meridiem);
    assert ClockAt(o, |hour|);
    assert |hour| == 2 ==> !ClockAt(o, 1);
  }

  lemma ClockHourDigits(hour: string, minutes: string, meridiem: string)
    requires 1 <= |hour| <= 2 && AllDigits(hour)
    requires |minutes| == 2 && AllDigits(minutes) && IsMeridiem(meridiem)
    ensures IsClockString(Clock(hour, minutes, meridiem)) && ClockHour(Clock(hour, minutes, meridiem)) == DigitsValue(hour)
  {
    ClockWidthOf(hour, minutes, meridiem);
    var o := Clock(hour, minutes, meridiem);
    assert o[..|hour|] == hour;
  }

  lemma ClockMinuteDigitsOf(hour: string, minutes: string, meridiem: string)
    requires 1 <= |hour| <= 2 && AllDigits(hour)
    requires |minutes| == 2 && AllDigits(minutes) && IsMeridiem(meridiem)
    ensures IsClockString(Clock(hour, minutes, meridiem)) && ClockMinuteDigits(Clock(hour, minutes, meridiem)) == minutes
  {
    ClockWidthOf(hour, minutes, meridiem);
    ClockIndexes(hour, minutes, meridiem);
    var o := Clock(hour, minutes, meridiem);
    assert o[|hour| + 1..|hour| + 3] == minutes;
  }

  lemma ClockMeridiemOf(hour: string, minutes: string, meridiem: string)
    requires 1 <= |hour| <= 2 && AllDigits(hour)
    requires |minutes| == 2 && AllDigits(minutes) && IsMeridiem(meridiem)
    ensures IsClockString(Clock(hour, minutes, meridiem)) && ClockMeridiem(Clock(hour, minutes, meridiem)) == meridiem
  {
    ClockWidthOf(hour, minutes, meridiem);
    ClockIndexes(hour, minutes, meridiem);
    var o := Clock(hour, minutes, meridiem);
    assert o[|hour| + 4..] == meridiem;
  }

  lemma ClockIndexes(hour: string, minutes: string, meridiem: string)
    requires |minutes| == 2 && |meridiem| == 2
    ensures var o := Clock(hour, minutes, meridiem); var k := |hour|;
      |o| == k + 6 && (forall i :: 0 <= i < k ==> o[i] == hour[i]) && o[k] == ':'
      && o[k + 1] == minutes[0] && o[k + 2] == minutes[1] && o[k + 3] == ' '
      && o[k + 4] == meridiem[0] && o[k + 5] == meridiem[1]
  {
  }

  lemma ClockMinutesOf(hour: string, minutes: string, meridiem: string)
    requires 1 <= |hour| <= 2 && AllDigits(hour)
    requires |minutes| == 2 && AllDigits(minutes) && IsMeridiem(meridiem)
    ensures IsClockString(Clock(hour, minutes, meridiem))
    ensures ClockMinutes(Clock(hour, minutes, meridiem))
      == (DigitsValue(hour) % 12 + (if meridiem == "PM" then 12 else 0)) * 60 + DigitsValue(minutes)
  {
    ClockShape(hour, minutes, meridiem);
  }

  const TimeKeywords: set<string> := {"NOON", "MORNING", "EVENING", "NIGHT"}

  /** NOON, MORNING, EVENING, NIGHT. */
  function KeywordTime(s: string): (r: Option<string>)
    ensures r.Some? ==> IsClockString(r.value)
    ensures r.Some? <==> s in TimeKeywords
  {
    if s == "NOON" then KeywordClock("12", "12:00 PM"); Some("12:00 PM")
    else if s == "MORNING" then KeywordClock("9", "9:00 AM"); Some("9:00 AM")
    else if s == "EVENING" then KeywordClock("6", "6:00 PM"); Some("6:00 PM")
    else if s == "NIGHT" then KeywordClock("10", "10:00 PM"); Some("10:00 PM")
    else None
  }

  lemma KeywordClock(hour: string, o: string)
    requires hour in {"12", "9", "6", "10"}
    requires o == Clock(hour, "00", if hour == "9" then "AM" else "PM")
    ensures IsClockString(o)
    ensures ClockMinutes(o) == (if hour == "9" then 9 else if hour == "6" then 18 else if hour == "10" then 22 else 12) * 60
  {
    assert DigitsValue("00") == 0 by { assert "00"[..1] == "0"; }
    assert DigitsValue("12") == 12 by { assert "12"[..1] == "1"; }
    assert DigitsValue("10") == 10 by { assert "10"[..1] == "1"; }
    ClockMinutesOf(hour, "00", if hour == "9" then "AM" else "PM");
  }

  /** The 12-hour branch: digits kept as written. */
  function MeridiemTime(s: string): (r: Option<string>)
    ensures r.Some? ==> IsClockString(r.value)
    ensures r.Some? <==> MatchMeridiem(s).Some?
  {
    match MatchMeridiem(s)
    case Some((hour, minutes, meridiem)) =>
      ClockShape(hour, minutes, meridiem);
      Some(Clock(hour, minutes, meridiem))
    case None => None
  }

  /** The hour of the answer for a 24-hour reading: 0 becomes 12, above 12 loses 12. */
  function TwelveHour(h: nat): nat { if h == 0 then 12 else if h > 12 then h - 12 else h }

  /** The 24-hour branch. */
  function TwentyFourTime(s: string): (r: Option<string>)
    ensures r.Some? ==> IsClockString(r.value)
    ensures r.Some? <==> Match24(s).Some?
  {
    match Match24(s)
    case Some((hourDigits, minutes)) =>
      var h := DigitsValue(hourDigits);
      DigitsBelow100(hourDigits);
      var meridiem := if h >= 12 then "PM" else "AM";
      ClockShape(NatToString(TwelveHour(h)), minutes, meridiem);
      Some(Clock(NatToString(TwelveHour(h)), minutes, meridiem))
    case None => None
  }

  /** The bare-hour branch. */
  function HourTime(s: string): (r: Option<string>)
    ensures r.Some? ==> IsClockString(r.value)
    ensures r.Some? <==> MatchHour(s).Some? && 1 <= DigitsValue(MatchHour(s).value) < 24
  {
    match MatchHour(s)
    case Some(hourDigits) =>
      var h := DigitsValue(hourDigits);
      if 1 <= h <= 11 then ClockShape(NatToString(h), "00", "AM"); Some(Clock(NatToString(h), "00", "AM"))
      else if h == 12 then ClockShape("12", "00", "PM"); Some(Clock("12", "00", "PM"))
      else if 12 < h < 24 then
        ClockShape(NatToString(h - 12), "00", "PM"); Some(Clock(NatToString(h - 12), "00", "PM"))
      else None
    case None => None
  }

  /** A canonical phrase `normalizeTime` reads: a keyword, the 12-hour pattern, the
      24-hour pattern, or a bare hour from 1 to 23. Anything else is undefined. */
  predicate Parses(s: string) {
    s in TimeKeywords || MatchMeridiem(s).Some? || Match24(s).Some?
    || (MatchHour(s).Some? && 1 <= DigitsValue(MatchHour(s).value) < 24)
  }

  /** The canonical-form part of `normalizeTime`: the branches in source order. */
  function NormalizeCanon(s: string): (r: Option<string>)
    ensures r.Some? ==> IsClockString(r.value)
    ensures r.Some? <==> Parses(s)
  {
    if KeywordTime(s).Some? then KeywordTime(s)
    else if MeridiemTime(s).Some? then MeridiemTime(s)
    else if TwentyFourTime(s).Some? then TwentyFourTime(s)
    else HourTime(s)
  }

  /** `normalizeTime(raw)`; `None` stands for `undefined`. */
  function NormalizeTime(raw: string): (r: Option<string>)
    ensures r.Some? ==> IsClockString(r.value)
    ensures r.Some? <==> Parses(Canon(raw))
  {
    NormalizeCanon(Canon(raw))
  }

  lemma DigitsBelow100(d: string)
    requires AllDigits(d) && |d| <= 2
    ensures DigitsValue(d) < 100
  {
    if |d| == 2 { assert d[..1][..0] == []; }
  }

  // ---------------------------------------------------------------- properties

  /** The four time-of-day words, whatever their case, padding or dots. */
  lemma KeywordTimes(raw: string)
    ensures Canon(raw) == "NOON" ==> NormalizeTime(raw) == Some("12:00 PM")
    ensures Canon(raw) == "MORNING" ==> NormalizeTime(raw) == Some("9:00 AM")
    ensures Canon(raw) == "EVENING" ==> NormalizeTime(raw) == Some("6:00 PM")
    ensures Canon(raw) == "NIGHT" ==> NormalizeTime(raw) == Some("10:00 PM")
    ensures Canon(raw) == "NOON" ==> ClockMinutes(NormalizeTime(raw).value) == 12 * 60
    ensures Canon(raw) == "MORNING" ==> ClockMinutes(NormalizeTime(raw).value) == 9 * 60
    ensures Canon(raw) == "EVENING" ==> ClockMinutes(NormalizeTime(raw).value) == 18 * 60
    ensures Canon(raw) == "NIGHT" ==> ClockMinutes(NormalizeTime(raw).value) == 22 * 60
  {
    KeywordCanon(Canon(raw));
  }

  lemma KeywordCanon(s: string)
    ensures s == "NOON" ==> NormalizeCanon(s) == Some("12:00 PM")
    ensures s == "MORNING" ==> NormalizeCanon(s) == Some("9:00 AM")
    ensures s == "EVENING" ==> NormalizeCanon(s) == Some("6:00 PM")
    ensures s == "NIGHT" ==> NormalizeCanon(s) == Some("10:00 PM")
    ensures s == "NOON" ==> ClockMinutes(NormalizeCanon(s).value) == 12 * 60
    ensures s == "MORNING" ==> ClockMinutes(NormalizeCanon(s).value) == 9 * 60
    ensures s == "EVENING" ==> ClockMinutes(NormalizeCanon(s).value) == 18 * 60
    ensures s == "NIGHT" ==> ClockMinutes(NormalizeCanon(s).value) == 22 * 60
  {
    if s == "NOON" {
      KeywordClock("12", "12:00 PM");
    } else if s == "MORNING" {
      KeywordClock("9", "9:00 AM");
    } else if s == "EVENING" {
      KeywordClock("6", "6:00 PM");
    } else if s == "NIGHT" {
      KeywordClock("10", "10:00 PM");
    }
  }

  /** "H AM", "H:MM PM", "H:MMAM", ...: the hour digits are kept as written and
      the minutes default to "00". */
  lemma MeridiemKeepsHour(raw: string, hour: string, minutes: Option<string>, gap: string, meridiem: string)
    requires 1 <= |hour| <= 2 && AllDigits(hour)
    requires minutes.Some? ==> |minutes.value| == 2 && AllDigits(minutes.value)
    requires AllSpace(gap) && IsMeridiem(meridiem)
    requires Canon(raw) == hour + (if minutes.Some? then ":" + minutes.value else "") + gap + meridiem
    ensures NormalizeTime(raw) == Some(Clock(hour, minutes.GetOr("00"), meridiem))
  {
    MeridiemCanon(Canon(raw), hour, minutes, gap, meridiem);
  }

  lemma MeridiemCanon(s: string, hour: string, minutes: Option<string>, gap: string, meridiem: string)
    requires 1 <= |hour| <= 2 && AllDigits(hour)
    requires minutes.Some? ==> |minutes.value| == 2 && AllDigits(minutes.value)
    requires AllSpace(gap) && IsMeridiem(meridiem)
    requires s == hour + (if minutes.Some? then ":" + minutes.value else "") + gap + meridiem
    ensures NormalizeCanon(s) == Some(Clock(hour, minutes.GetOr("00"), meridiem))
  {
    MatchMeridiemOf(s, hour, minutes, gap, meridiem);
    NotKeyword(s);
  }

  lemma MatchMeridiemOf(s: string, hour: string, minutes: Option<string>, gap: string, meridiem: string)
    requires 1 <= |hour| <= 2 && AllDigits(hour)
    requires minutes.Some? ==> |minutes.value| == 2 && AllDigits(minutes.value)
    requires AllSpace(gap) && IsMeridiem(meridiem)
    requires s == hour + (if minutes.Some? then ":" + minutes.value else "") + gap + meridiem
    ensures |s| > 0 && IsDigit(s[0])
    ensures MatchMeridiem(s) == Some((hour, minutes.GetOr("00"), meridiem))
  {
    if minutes.Some? {
      MatchWithMinutes(s, hour, minutes.value, gap, meridiem);
    } else {
      MatchWithoutMinutes(s, hour, gap, meridiem);
    }
  }

  lemma MatchWithMinutes(s: string, hour: string, minutes: string, gap: string, meridiem: string)
    requires 1 <= |hour| <= 2 && AllDigits(hour)
    requires |minutes| == 2 && AllDigits(minutes)
    requires AllSpace(gap) && IsMeridiem(meridiem)
    requires s == hour + ":" + minutes + gap + meridiem
    ensures |s| > 0 && IsDigit(s[0])
    ensures MatchMeridiem(s) == Some((hour, minutes, meridiem))
  {
    var tail := ":" + minutes + gap + meridiem;
    assert s == hour + tail;
    HourThenRest(s, hour, tail);
    RestWithMinutes(tail, minutes, gap, meridiem);
  }

  lemma MatchWithoutMinutes(s: string, hour: string, gap: string, meridiem: string)
    requires 1 <= |hour| <= 2 && AllDigits(hour)
    requires AllSpace(gap) && IsMeridiem(meridiem)
    requires s == hour + gap + meridiem
    ensures |s| > 0 && IsDigit(s[0])
    ensures MatchMeridiem(s) == Some((hour, "00", meridiem))
  {
    var tail := gap + meridiem;
    assert s == hour + tail;
    HourThenRest(s, hour, tail);
    RestWithoutMinutes(gap, meridiem);
  }

  /** The hour digits followed by a text that does not start with a digit. */
  lemma HourThenRest(s: string, hour: string, tail: string)
    requires 1 <= |hour| <= 2 && AllDigits(hour) && (|tail| > 0 ==> !IsDigit(tail[0]))
    requires s == hour + tail
    ensures |s| > 0 && IsDigit(s[0])
    ensures DigitRun(s) == |hour| && s[..|hour|] == hour && s[|hour|..] == tail
    ensures MatchMeridiem(s) == match MeridiemRest(tail)
      case Some((minutes, m)) => Some((hour, minutes, m))
      case None => None
  {
    DigitRunOf(hour, tail);
    assert s[..|hour|] == hour;
    assert s[|hour|..] == tail;
  }

  lemma RestWithMinutes(tail: string, minutes: string, gap: string, meridiem: string)
    requires |minutes| == 2 && AllDigits(minutes)
    requires AllSpace(gap) && IsMeridiem(meridiem)
    requires tail == ":" + minutes + gap + meridiem
    ensures MeridiemRest(tail) == Some((minutes, meridiem))
  {
    assert tail[0] == ':' && tail[1] == minutes[0] && tail[2] == minutes[1];
    assert tail[1..3] == minutes;
    assert tail[3..] == gap + meridiem;
    assert MinutesPart(tail) == (minutes, gap + meridiem);
    TrimStartSpaces(gap, meridiem);
  }

  lemma RestWithoutMinutes(gap: string, meridiem: string)
    requires AllSpace(gap) && IsMeridiem(meridiem)
    ensures MeridiemRest(gap + meridiem) == Some(("00", meridiem))
  {
    var tail := gap + meridiem;
    assert tail[0] != ':';
    assert MinutesPart(tail) == ("00", tail);
    TrimStartSpaces(gap, meridiem);
  }

  /** "H:MM" on the 24-hour clock, H in 0..23: the answer stands for the same
      minute of the day, its hour is in 1..12 and the minutes are kept. */
  lemma TwentyFourHourClock(raw: string, hour: string, minutes: string)
    requires 1 <= |hour| <= 2 && AllDigits(hour) && DigitsValue(hour) <= 23
    requires |minutes| == 2 && AllDigits(minutes)
    requires Canon(raw) == hour + ":" + minutes
    ensures NormalizeTime(raw).Some?
    ensures 1 <= ClockHour(NormalizeTime(raw).value) <= 12
    ensures ClockMinuteDigits(NormalizeTime(raw).value) == minutes
    ensures ClockMinutes(NormalizeTime(raw).value) == DigitsValue(hour) * 60 + DigitsValue(minutes)
    ensures ClockMeridiem(NormalizeTime(raw).value) == (if DigitsValue(hour) >= 12 then "PM" else "AM")
  {
    TwentyFourCanon(Canon(raw), hour, minutes);
  }

  lemma TwentyFourCanon(s: string, hour: string, minutes: string)
    requires 1 <= |hour| <= 2 && AllDigits(hour) && DigitsValue(hour) <= 23
    requires |minutes| == 2 && AllDigits(minutes)
    requires s == hour + ":" + minutes
    ensures NormalizeCanon(s).Some?
    ensures 1 <= ClockHour(NormalizeCanon(s).value) <= 12
    ensures ClockMinuteDigits(NormalizeCanon(s).value) == minutes
    ensures ClockMinutes(NormalizeCanon(s).value) == DigitsValue(hour) * 60 + DigitsValue(minutes)
    ensures ClockMeridiem(NormalizeCanon(s).value) == (if DigitsValue(hour) >= 12 then "PM" else "AM")
  {
    var h := DigitsValue(hour);
    var meridiem := if h >= 12 then "PM" else "AM";
    var o := Clock(NatToString(TwelveHour(h)), minutes, meridiem);
    TwentyFourTimeOf(s, hour, minutes);
    assert NormalizeCanon(s) == Some(o);
    ClockShape(NatToString(TwelveHour(h)), minutes, meridiem);
    ClockMinutesOf(NatToString(TwelveHour(h)), minutes, meridiem);
    TwelveHourFold(h);
  }

  /** Folding a 24-hour hour onto the 12-hour dial loses nothing. */
  lemma TwelveHourFold(h: nat)
    requires h <= 23
    ensures 1 <= TwelveHour(h) <= 12
    ensures TwelveHour(h) % 12 + (if h >= 12 then 12 else 0) == h
  {
  }

  lemma TwentyFourTimeOf(s: string, hour: string, minutes: string)
    requires 1 <= |hour| <= 2 && AllDigits(hour)
    requires |minutes| == 2 && AllDigits(minutes)
    requires s == hour + ":" + minutes
    ensures DigitsValue(hour) < 100
    ensures NormalizeCanon(s) == TwentyFourTime(s)
    ensures TwentyFourTime(s) == Some(Clock(NatToString(TwelveHour(DigitsValue(hour))), minutes,
      if DigitsValue(hour) >= 12 then "PM" else "AM"))
  {
    Shape24(s, hour, minutes);
    DigitsBelow100(hour);
  }

  /** Hours 24..99 in "H:MM" form are not rejected: they come out with an hour
      of 12 or more, so "25:00" reads as "13:00 PM". */
  lemma TwentyFourHourOutOfRange(raw: string, hour: string, minutes: string)
    requires 1 <= |hour| <= 2 && AllDigits(hour) && DigitsValue(hour) >= 24
    requires |minutes| == 2 && AllDigits(minutes)
    requires Canon(raw) == hour + ":" + minutes
    ensures NormalizeTime(raw) == Some(Clock(NatToString(DigitsValue(hour) - 12), minutes, "PM"))
    ensures ClockHour(NormalizeTime(raw).value) == DigitsValue(hour) - 12 >= 12
  {
    OutOfRangeCanon(Canon(raw), hour, minutes);
  }

  lemma OutOfRangeCanon(s: string, hour: string, minutes: string)
    requires 1 <= |hour| <= 2 && AllDigits(hour) && DigitsValue(hour) >= 24
    requires |minutes| == 2 && AllDigits(minutes)
    requires s == hour + ":" + minutes
    ensures NormalizeCanon(s) == Some(Clock(NatToString(DigitsValue(hour) - 12), minutes, "PM"))
    ensures ClockHour(NormalizeCanon(s).value) == DigitsValue(hour) - 12 >= 12
  {
    TwentyFourTimeOf(s, hour, minutes);
    ClockShape(NatToString(DigitsValue(hour) - 12), minutes, "PM");
  }

  /** A bare hour: 1..23 is read as that hour of the day on the hour, 0 and
      24..99 are not times. */
  lemma BareHour(raw: string)
    requires 1 <= |Canon(raw)| <= 2 && AllDigits(Canon(raw))
    ensures var h := DigitsValue(Canon(raw));
      (1 <= h <= 23 ==> (NormalizeTime(raw).Some? && 1 <= ClockHour(NormalizeTime(raw).value) <= 12
         && ClockMinutes(NormalizeTime(raw).value) == h * 60
         && ClockMeridiem(NormalizeTime(raw).value) == (if h >= 12 then "PM" else "AM")))
      && (h == 0 || h >= 24 ==> NormalizeTime(raw) == None)
  {
    BareHourCanon(Canon(raw));
  }

  lemma BareHourCanon(s: string)
    requires 1 <= |s| <= 2 && AllDigits(s)
    ensures var h := DigitsValue(s);
      (1 <= h <= 23 ==> (NormalizeCanon(s).Some? && 1 <= ClockHour(NormalizeCanon(s).value) <= 12
         && ClockMinutes(NormalizeCanon(s).value) == h * 60
         && ClockMeridiem(NormalizeCanon(s).value) == (if h >= 12 then "PM" else "AM")))
      && (h == 0 || h >= 24 ==> NormalizeCanon(s) == None)
  {
    OnlyHourBranch(s);
    var h := DigitsValue(s);
    if 1 <= h <= 23 { HourOfDay(s); }
  }

  lemma HourOfDay(s: string)
    requires 1 <= |s| <= 2 && AllDigits(s) && 1 <= DigitsValue(s) <= 23
    ensures HourTime(s).Some? && 1 <= ClockHour(HourTime(s).value) <= 12
    ensures ClockMinutes(HourTime(s).value) == DigitsValue(s) * 60
    ensures ClockMeridiem(HourTime(s).value) == (if DigitsValue(s) >= 12 then "PM" else "AM")
  {
    HourTimeIs(s);
    OnTheHour(DigitsValue(s));
  }

  /** The clock string for hour `h` of the day, on the hour. */
  lemma OnTheHour(h: nat)
    requires 1 <= h <= 23
    ensures var o := Clock(NatToString(TwelveHour(h)), "00", if h >= 12 then "PM" else "AM");
      IsClockString(o) && 1 <= ClockHour(o) <= 12 && ClockMinutes(o) == h * 60
      && ClockMeridiem(o) == (if h >= 12 then "PM" else "AM")
  {
    var meridiem := if h >= 12 then "PM" else "AM";
    ClockShape(NatToString(TwelveHour(h)), "00", meridiem);
    ClockMinutesOf(NatToString(TwelveHour(h)), "00", meridiem);
    TwelveHourFold(h);
    assert DigitsValue("00") == 0 by { assert "00"[..1] == "0"; }
  }

  lemma HourTimeIs(s: string)
    requires 1 <= |s| <= 2 && AllDigits(s) && 1 <= DigitsValue(s) <= 23
    ensures HourTime(s) == Some(Clock(NatToString(TwelveHour(DigitsValue(s))), "00",
      if DigitsValue(s) >= 12 then "PM" else "AM"))
  {
    var h := DigitsValue(s);
    assert MatchHour(s) == Some(s);
    if h <= 11 {
      assert HourTime(s) == Some(Clock(NatToString(h), "00", "AM"));
    } else if h == 12 {
      TwelveDigits();
      assert HourTime(s) == Some(Clock("12", "00", "PM"));
    } else {
      assert HourTime(s) == Some(Clock(NatToString(h - 12), "00", "PM"));
    }
  }

  lemma TwelveDigits()
    ensures NatToString(12) == "12"
  {
    assert NatToString(1) == "1";
    assert NatToString(12) == NatToString(1) + [DigitChar(2)];
  }

  /** A string of one or two digits reaches only the bare-hour branch. */
  lemma OnlyHourBranch(s: string)
    requires 1 <= |s| <= 2 && AllDigits(s)
    ensures NormalizeCanon(s) == HourTime(s)
  {
    NotKeyword(s);
    assert DigitRun(s) == |s| by { DigitRunOf(s, ""); assert s + "" == s; }
    assert s[|s|..] == [];
    assert TrimStart([]) == [];
    assert MatchMeridiem(s) == None;
    assert Match24(s) == None;
  }

  /** Every answer is already canonical: normalising it again changes nothing. */
  lemma Idempotent(raw: string)
    requires NormalizeTime(raw).Some?
    ensures NormalizeTime(NormalizeTime(raw).value) == NormalizeTime(raw)
  {
    FixedPoint(NormalizeTime(raw).value);
  }

  /** Each clock string is read as itself. */
  lemma FixedPoint(o: string)
    requires IsClockString(o)
    ensures NormalizeTime(o) == Some(o)
  {
    var k := DigitRun(o);
    var hour, minutes, meridiem := o[..k], o[k + 1..k + 3], o[k + 4..];
    assert AllDigits(minutes) by {
      assert minutes[0] == o[k + 1] && minutes[1] == o[k + 2];
    }
    assert AllSpace(" ");
    ClockSplit(o);
    assert o == hour + ":" + minutes + " " + meridiem;
    MatchWithMinutes(o, hour, minutes, " ", meridiem);
    NotKeyword(o);
    assert MeridiemTime(o) == Some(o);
    CanonOfClock(o);
  }

  lemma ClockSplit(o: string)
    requires IsClockString(o)
    ensures var k := DigitRun(o); o == o[..k] + ":" + o[k + 1..k + 3] + " " + o[k + 4..]
  {
    var k := DigitRun(o);
    assert o == o[..k] + [o[k]] + o[k + 1..k + 3] + [o[k + 3]] + o[k + 4..];
  }

  /** A leading run of three or more digits is never a time; since dots are removed
      first, "10.52 a.m." reads as "1052 AM" and is rejected. */
  lemma LongDigitRunRejected(raw: string)
    requires DigitRun(Canon(raw)) >= 3
    ensures NormalizeTime(raw) == None
  {
    LongRunCanon(Canon(raw));
  }

  lemma LongRunCanon(s: string)
    requires DigitRun(s) >= 3
    ensures NormalizeCanon(s) == None
  {
    NotKeyword(s);
  }

  // ---------------------------------------------------------------- helpers

  lemma NotKeyword(s: string)
    requires |s| > 0 && IsDigit(s[0])
    ensures s != "NOON" && s != "MORNING" && s != "EVENING" && s != "NIGHT"
  {
  }

  lemma TrimStartSpaces(gap: string, rest: string)
    requires AllSpace(gap) && (|rest| > 0 ==> !IsSpace(rest[0]))
    ensures TrimStart(gap + rest) == rest
  {
    if |gap| > 0 {
      assert (gap + rest)[1..] == gap[1..] + rest;
      TrimStartSpaces(gap[1..], rest);
    }
  }

  lemma Shape24(s: string, hour: string, minutes: string)
    requires 1 <= |hour| <= 2 && AllDigits(hour)
    requires |minutes| == 2 && AllDigits(minutes)
    requires s == hour + ":" + minutes
    ensures MatchMeridiem(s) == None && Match24(s) == Some((hour, minutes))
    ensures s != "NOON" && s != "MORNING" && s != "EVENING" && s != "NIGHT"
  {
    Split24(s, hour, minutes);
    Shape24Meridiem(s, hour, minutes);
    NotKeyword(s);
  }

  lemma Split24(s: string, hour: string, minutes: string)
    requires 1 <= |hour| <= 2 && AllDigits(hour)
    requires |minutes| == 2 && AllDigits(minutes)
    requires s == hour + ":" + minutes
    ensures DigitRun(s) == |hour| && |s| == |hour| + 3 && s[..|hour|] == hour && s[|hour|..] == ":" + minutes
    ensures s[|hour|] == ':' && s[|hour| + 1..] == minutes
  {
    DigitRunOf(hour, ":" + minutes);
    assert s[..|hour|] == hour;
    assert s[|hour|..] == ":" + minutes;
    assert s[|hour| + 1..] == minutes;
  }

  /** "H:MM" has no meridiem: after the minute digits nothing is left. */
  lemma Shape24Meridiem(s: string, hour: string, minutes: string)
    requires 1 <= |hour| <= 2 && AllDigits(hour)
    requires |minutes| == 2 && AllDigits(minutes)
    requires DigitRun(s) == |hour| && s[|hour|..] == ":" + minutes
    ensures MatchMeridiem(s) == None
  {
    var rest := s[|hour|..];
    assert rest[3..] == [];
    assert TrimStart([]) == [];
    assert MeridiemRest(rest) == None;
  }

  lemma CanonOfClock(o: string)
    requires IsClockString(o)
    ensures Canon(o) == o
  {
    TrimOfTrimmed(o);
    UpperOfUpper(o);
    RemoveAllAbsent(o, '.');
  }
}
