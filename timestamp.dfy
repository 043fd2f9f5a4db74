/**
 * `ts_to_datetime` (main.py:13-14): `datetime.strptime(timestamp.strip(),
 * '%H:%M %d.%m.%Y')`, modelled for the digit layout the timestamp scanner
 * captures, together with the calendar checks `datetime` performs.
 */
module Timestamp {
  import opened Wrappers
  import opened Text

  /** A `datetime` produced by this format: seconds and microseconds are always zero. */
  datatype DateTime = DateTime(year: int, month: int, day: int, hour: int, minute: int)

  /** Gregorian leap years, as `datetime` counts them. */
  predicate IsLeapYear(year: int)
  {
    year % 4 == 0 && (year % 100 != 0 || year % 400 == 0)
  }

  function DaysInMonth(year: int, month: int): (n: int)
    requires 1 <= month <= 12
    ensures 28 <= n <= 31
  {
    if month == 2 then (if IsLeapYear(year) then 29 else 28)
    else if month == 4 || month == 6 || month == 9 || month == 11 then 30
    else 31
  }

  /** The date-times `datetime` can represent (years MINYEAR = 1 to MAXYEAR = 9999). */
  predicate Valid(dt: DateTime)
  {
    && 1 <= dt.year <= 9999
    && 1 <= dt.month <= 12
    && 1 <= dt.day <= DaysInMonth(dt.year, dt.month)
    && 0 <= dt.hour <= 23
    && 0 <= dt.minute <= 59
  }

  /** The three `ValueError`s `strptime` raises for strings of this layout. */
  datatype TimeError =
    | FormatMismatch(data: string)  // "time data ... does not match format ..."
    | YearOutOfRange                // "year is out of range"
    | DayOutOfRange                 // "day is out of range for month"

  function DigitValue(c: char): (n: nat)
    requires IsDigit(c)
    ensures n <= 9
  {
    (c as int) - ('0' as int)
  }

  /** `:MM DD.MM.YYYY`: the fourteen characters after the hour. */
  predicate TailLayout(u: string)
  {
    && |u| == 14
    && u[0] == ':' && IsDigit(u[1]) && IsDigit(u[2]) && u[3] == ' '
    && IsDigit(u[4]) && IsDigit(u[5]) && u[6] == '.' && IsDigit(u[7]) && IsDigit(u[8])
    && u[9] == '.' && IsDigit(u[10]) && IsDigit(u[11]) && IsDigit(u[12]) && IsDigit(u[13])
  }

  /**
   * `H:MM DD.MM.YYYY` or `HH:MM DD.MM.YYYY` with every field made of digits:
   * the layout of every string the timestamp scanner captures.
   */
  predicate InLayout(t: string)
  {
    && (|t| == 15 || |t| == 16)
    && IsDigit(t[0]) && IsDigit(t[|t| - 15])
    && TailLayout(t[|t| - 14..])
  }

  /** The number written in the two digits at `u[i]` and `u[i + 1]`. */
  function TwoDigitValue(u: string, i: nat): nat
    requires i + 1 < |u| && IsDigit(u[i]) && IsDigit(u[i + 1])
  {
    10 * DigitValue(u[i]) + DigitValue(u[i + 1])
  }

  /** The numbers written in the fields of a string in the layout. */
  function Fields(t: string): DateTime
    requires InLayout(t)
  {
    var u := t[|t| - 14..];
    var hour := if |t| == 15 then DigitValue(t[0]) else TwoDigitValue(t, 0);
    DateTime(100 * TwoDigitValue(u, 10) + TwoDigitValue(u, 12), TwoDigitValue(u, 7),
             TwoDigitValue(u, 4), hour, TwoDigitValue(u, 1))
  }

  /**
   * What the directives accept: `%H` hours 0-23, `%M` minutes 0-59, `%d`
   * days 1-31, `%m` months 1-12. A field outside these makes the whole
   * string fail to match the format.
   */
  predicate InDirectiveRange(dt: DateTime)
  {
    dt.hour <= 23 && dt.minute <= 59 && 1 <= dt.day <= 31 && 1 <= dt.month <= 12
  }

  /**
   * `datetime.strptime(t, '%H:%M %d.%m.%Y')`: read the fields of a string in
   * the layout, then let `datetime` check the year and the day of the month.
   * It succeeds exactly on strings in the layout whose fields form a valid
   * date-time, and then returns those fields.
   */
  function Strptime(t: string): (r: Result<DateTime, TimeError>)
    ensures r.Ok? <==> InLayout(t) && Valid(Fields(t))
    ensures r.Ok? ==> Valid(r.value) && r.value == Fields(t)
  {
    if !InLayout(t) then Err(FormatMismatch(t))
    else
      var dt := Fields(t);
      if !InDirectiveRange(dt) then Err(FormatMismatch(t))
      else if dt.year < 1 then Err(YearOutOfRange)
      else if dt.day > DaysInMonth(dt.year, dt.month) then Err(DayOutOfRange)
      else Ok(dt)
  }

  /** `ts_to_datetime`: strip the surrounding whitespace, then `strptime`. */
  function TsToDateTime(timestamp: string): (r: Result<DateTime, TimeError>)
    ensures r.Ok? <==> InLayout(Strip(timestamp)) && Valid(Fields(Strip(timestamp)))
    ensures r.Ok? ==> Valid(r.value) && r.value == Fields(Strip(timestamp))
  {
    Strptime(Strip(timestamp))
  }

  /** Surrounding whitespace never changes the outcome (main.py:18). */
  lemma TsToDateTimePadded(w1: string, t: string, w2: string)
    requires AllSpace(w1) && AllSpace(w2)
    ensures TsToDateTime(w1 + t + w2) == TsToDateTime(t)
  {
    StripPadded(w1, t, w2);
  }

  function Digit(n: nat): (c: char)
    requires n <= 9
    ensures IsDigit(c) && DigitValue(c) == n
  {
    ('0' as int + n) as char
  }

  /** The hour as notepad.exe writes it: no leading zero. */
  function HourText(hour: nat): (s: string)
    requires hour <= 23
  {
    if hour < 10 then [Digit(hour)] else [Digit(hour / 10), Digit(hour % 10)]
  }

  /**
   * The timestamp notepad.exe inserts on F5, e.g. `23:30 06.02.2016` or
   * `1:10 06.02.2016`: the hour without a leading zero, the other fields
   * zero-padded.
   */
  function Stamp(dt: DateTime): (s: string)
    requires Valid(dt)
  {
    var century, rest := dt.year / 100, dt.year % 100;
    HourText(dt.hour)
      + [':', Digit(dt.minute / 10), Digit(dt.minute % 10), ' ',
         Digit(dt.day / 10), Digit(dt.day % 10), '.',
         Digit(dt.month / 10), Digit(dt.month % 10), '.',
         Digit(century / 10), Digit(century % 10), Digit(rest / 10), Digit(rest % 10)]
  }

  /** A stamp is in the layout, and its fields are the date-time it was made from. */
  lemma StampFields(dt: DateTime)
    requires Valid(dt)
    ensures InLayout(Stamp(dt)) && Fields(Stamp(dt)) == dt
  {
    var s := Stamp(dt);
    var u := s[|s| - 14..];
    assert u == s[|HourText(dt.hour)|..];
    assert TwoDigitValue(u, 1) == dt.minute;
    assert TwoDigitValue(u, 4) == dt.day;
    assert TwoDigitValue(u, 7) == dt.month;
    assert TwoDigitValue(u, 10) == dt.year / 100;
    assert TwoDigitValue(u, 12) == dt.year % 100;
  }

  /** Every valid date-time, stamped as notepad.exe writes it, is read back unchanged. */
  lemma StampRoundTrip(dt: DateTime)
    requires Valid(dt)
    ensures TsToDateTime(Stamp(dt)) == Ok(dt)
  {
    StampFields(dt);
    StripUnpadded(Stamp(dt));
  }
}
