/** Calendar dates, weekdays and date+time instants, standing in for the `Date`
    objects and the date-fns helpers (`format(d, "yyyy-MM-dd")`, `getDay()`,
    `parseISO`) the pages use. Instants are milliseconds of local wall-clock time;
    time zones are not modelled. */
module Dates {
  import opened Text
  import opened Wrappers

  datatype CalendarDate = CalendarDate(year: nat, month: nat, day: nat)

  predicate IsLeapYear(y: int)
  {
    y % 4 == 0 && (y % 100 != 0 || y % 400 == 0)
  }

  function DaysInMonth(y: int, m: int): nat
  {
    if m == 2 then (if IsLeapYear(y) then 29 else 28)
    else if m == 4 || m == 6 || m == 9 || m == 11 then 30
    else 31
  }

  predicate ValidDate(d: CalendarDate)
  {
    1 <= d.month <= 12 && 1 <= d.day <= DaysInMonth(d.year, d.month)
  }

  /** The day number of the day before the first of a month. */
  function MonthBase(year: nat, month: nat): int
  {
    var y := if month <= 2 then year - 1 else year;
    var era := y / 400;
    var yoe := y - era * 400;
    var mp := if month > 2 then month - 3 else month + 9;
    var doe := yoe * 365 + yoe / 4 - yoe / 100 + (153 * mp + 2) / 5;
    era * 146097 + doe - 719469
  }

  /** Days since 1970-01-01 in the proleptic Gregorian calendar. */
  function DayNumber(d: CalendarDate): int
  {
    MonthBase(d.year, d.month) + d.day
  }

  /** `a < b` on two dates whose time of day was reset with `setHours(0, 0, 0, 0)`:
      for valid dates, the earlier year, then month, then day. */
  predicate DayBefore(a: CalendarDate, b: CalendarDate)
  {
    a.year < b.year || (a.year == b.year && (a.month < b.month || (a.month == b.month && a.day < b.day)))
  }

  /** `date.getDay()`: 0 = Sunday ... 6 = Saturday. */
  function Weekday(d: CalendarDate): (w: nat)
    ensures w <= 6
  {
    (DayNumber(d) + 4) % 7
  }

  /** 1970-01-01, day 0, was a Thursday; 2025-03-10 was a Monday. */
  lemma WeekdayAnchors()
    ensures DayNumber(CalendarDate(1970, 1, 1)) == 0 && Weekday(CalendarDate(1970, 1, 1)) == 4
    ensures Weekday(CalendarDate(2025, 3, 10)) == 1
  {
    assert MonthBase(1970, 1) == 4 * 146097 + 135080 - 719469 == -1;
    assert MonthBase(2025, 3) == 5 * 146097 + 9131 - 719469 == 20147;
    assert DayNumber(CalendarDate(2025, 3, 10)) == 20157 == 7 * 2879 + 4;
  }

  /** Within a month, the next day has the next day number, so the weekday
      advances by one. */
  lemma NextDayInMonth(d: CalendarDate)
    requires ValidDate(d) && d.day < DaysInMonth(d.year, d.month)
    ensures DayNumber(d.(day := d.day + 1)) == DayNumber(d) + 1
    ensures Weekday(d.(day := d.day + 1)) == (Weekday(d) + 1) % 7
  {
    var n := DayNumber(d);
    assert DayNumber(d.(day := d.day + 1)) == n + 1;
    WeekdaySucc(n);
  }

  lemma WeekdaySucc(n: int)
    ensures (n + 1 + 4) % 7 == ((n + 4) % 7 + 1) % 7
  {
  }

  // ---------------------------------------------------------------------------
  // "yyyy-MM-dd"
  // ---------------------------------------------------------------------------

  /** `s` left-padded with zeros to at least `width` characters. */
  function PadZeros(s: string, width: nat): (r: string)
    ensures |r| == if |s| >= width then |s| else width
    ensures exists k :: 0 <= k <= |r| && r == Zeros(k) + s
    decreases width - |s|
  {
    if |s| >= width then
      assert s == Zeros(0) + s;
      s
    else
      var r := PadZeros(['0'] + s, width);
      var k :| 0 <= k <= |r| && r == Zeros(k) + (['0'] + s);
      assert Zeros(k) + (['0'] + s) == Zeros(k + 1) + s by { ZerosSucc(k); }
      r
  }

  function Zeros(k: nat): (z: string)
    ensures |z| == k && forall i :: 0 <= i < k ==> z[i] == '0'
  {
    seq(k, i => '0')
  }

  lemma ZerosSucc(k: nat)
    ensures Zeros(k) + ['0'] == Zeros(k + 1)
  {
  }

  /** `format(date, "yyyy-MM-dd")` */
  function FormatYmd(d: CalendarDate): string
  {
    PadZeros(NatToString(d.year), 4) + "-" + PadZeros(NatToString(d.month), 2) + "-" + PadZeros(NatToString(d.day), 2)
  }

  predicate AllDigits(s: string)
  {
    forall i :: 0 <= i < |s| ==> IsDigit(s[i])
  }

  /** Reads a "yyyy-MM-dd" date; any other shape, or a day the month does not have,
      is rejected. */
  function ParseYmd(s: string): (r: Option<CalendarDate>)
    ensures r.Some? ==> ValidDate(r.value)
  {
    if |s| == 10 && s[4] == '-' && s[7] == '-' && AllDigits(s[..4]) && AllDigits(s[5..7]) && AllDigits(s[8..]) then
      var d := CalendarDate(DigitsValue(s[..4]), DigitsValue(s[5..7]), DigitsValue(s[8..]));
      if ValidDate(d) then Some(d) else None
    else None
  }

  /** Leading zeros do not change the value of a digit string. */
  lemma {:induction false} DigitsValueZeros(k: nat, s: string)
    requires AllDigits(s)
    ensures AllDigits(Zeros(k) + s) && DigitsValue(Zeros(k) + s) == DigitsValue(s)
    decreases |s|
  {
    var t := Zeros(k) + s;
    assert AllDigits(t);
    if |s| == 0 {
      assert t == Zeros(k);
      ZerosValue(k);
    } else {
      assert t[..|t| - 1] == Zeros(k) + s[..|s| - 1];
      DigitsValueZeros(k, s[..|s| - 1]);
    }
  }

  lemma {:induction false} ZerosValue(k: nat)
    ensures AllDigits(Zeros(k)) && DigitsValue(Zeros(k)) == 0
  {
    if k > 0 {
      assert Zeros(k)[..k - 1] == Zeros(k - 1);
      ZerosValue(k - 1);
    }
  }

  /** A padded decimal number reads back as that number. */
  lemma PaddedValue(n: nat, width: nat)
    ensures AllDigits(PadZeros(NatToString(n), width))
    ensures DigitsValue(PadZeros(NatToString(n), width)) == n
  {
    var s := NatToString(n);
    var r := PadZeros(s, width);
    var k :| 0 <= k <= |r| && r == Zeros(k) + s;
    DigitsValueZeros(k, s);
    DigitsValueOfNatToString(n);
  }

  /** Formatting a date as "yyyy-MM-dd" and reading it back gives the same date,
      for the four-digit years the format is meant for. */
  lemma ParseFormatYmd(d: CalendarDate)
    requires ValidDate(d) && d.year <= 9999
    ensures ParseYmd(FormatYmd(d)) == Some(d)
  {
    var ys, ms, ds := PadZeros(NatToString(d.year), 4), PadZeros(NatToString(d.month), 2), PadZeros(NatToString(d.day), 2);
    Pow10Values();
    PaddedField(d.year, 4);
    PaddedField(d.month, 2);
    PaddedField(d.day, 2);
    ParseOfFields(ys, ms, ds);
  }

  lemma Pow10Values()
    ensures Pow10(2) == 100 && Pow10(4) == 10000
  {
    assert Pow10(1) == 10;
    assert Pow10(3) == 1000;
  }

  /** A number below 10^width, padded to that width, is a digit string of
      exactly that width with that value. */
  lemma PaddedField(n: nat, width: nat)
    requires width >= 1 && n < Pow10(width)
    ensures var r := PadZeros(NatToString(n), width); |r| == width && AllDigits(r) && DigitsValue(r) == n
  {
    PaddedValue(n, width);
    SmallNatLength(n, width);
  }

  /** A text made of three digit fields of the right widths is read field by
      field. */
  lemma ParseOfFields(ys: string, ms: string, ds: string)
    requires |ys| == 4 && |ms| == 2 && |ds| == 2 && AllDigits(ys) && AllDigits(ms) && AllDigits(ds)
    ensures var d := CalendarDate(DigitsValue(ys), DigitsValue(ms), DigitsValue(ds));
      ParseYmd(ys + "-" + ms + "-" + ds) == if ValidDate(d) then Some(d) else None
  {
    YmdSlices(ys, ms, ds);
  }

  /** The three fields of a "yyyy-MM-dd" text sit at fixed positions. */
  lemma YmdSlices(ys: string, ms: string, ds: string)
    requires |ys| == 4 && |ms| == 2 && |ds| == 2
    ensures var s := ys + "-" + ms + "-" + ds;
      |s| == 10 && s[4] == '-' && s[7] == '-' && s[..4] == ys && s[5..7] == ms && s[8..] == ds
  {
  }

  function Pow10(k: nat): nat
  {
    if k == 0 then 1 else 10 * Pow10(k - 1)
  }

  /** A number below 10^k has at most k digits. */
  lemma {:induction false} SmallNatLength(n: nat, k: nat)
    requires k >= 1 && n < Pow10(k)
    ensures |NatToString(n)| <= k
  {
    if n >= 10 {
      assert k >= 2;
      SmallNatLength(n / 10, k - 1);
    }
  }

  // ---------------------------------------------------------------------------
  // Times and instants
  // ---------------------------------------------------------------------------

  /** Two decimal digits at position i. */
  predicate TwoDigitsAt(s: string, i: nat)
  {
    i + 2 <= |s| && IsDigit(s[i]) && IsDigit(s[i + 1])
  }

  function TwoDigitValue(s: string, i: nat): nat
    requires TwoDigitsAt(s, i)
  {
    10 * (s[i] as int - '0' as int) + (s[i + 1] as int - '0' as int)
  }

  /** Reads "HH:mm" or "HH:mm:ss" as milliseconds after midnight; 24:00 is the end of
      the day, as `parseISO` allows. */
  function ParseTimeMs(s: string): (r: Option<int>)
    ensures r.Some? ==> 0 <= r.value <= 86400000
  {
    if (|s| == 5 || (|s| == 8 && s[5] == ':' && TwoDigitsAt(s, 6))) && s[2] == ':' && TwoDigitsAt(s, 0) && TwoDigitsAt(s, 3) then
      var h, m := TwoDigitValue(s, 0), TwoDigitValue(s, 3);
      var sec := if |s| == 8 then TwoDigitValue(s, 6) else 0;
      if (h <= 23 && m <= 59 && sec <= 59) || (h == 24 && m == 0 && sec == 0) then
        Some(h * 3600000 + m * 60000 + sec * 1000)
      else None
    else None
  }

  /** The instant of `parseISO(date + "T" + time)`, or None for an Invalid Date. */
  function Instant(date: string, time: string): (r: Option<int>)
    ensures r.Some? ==> ParseYmd(date).Some? && ParseTimeMs(time).Some?
  {
    match ParseYmd(date)
    case None => None
    case Some(d) =>
      match ParseTimeMs(time)
      case None => None
      case Some(ms) => Some(DayNumber(d) * 86400000 + ms)
  }

  /** Later times on the same date are later instants. */
  lemma InstantMonotoneInTime(date: string, t1: string, t2: string)
    requires ParseYmd(date).Some? && ParseTimeMs(t1).Some? && ParseTimeMs(t2).Some?
    requires ParseTimeMs(t1).value <= ParseTimeMs(t2).value
    ensures Instant(date, t1).value <= Instant(date, t2).value
  {
  }
}
