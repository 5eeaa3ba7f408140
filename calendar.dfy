/** Proleptic Gregorian calendar facts computed with integer arithmetic: what the
    pipeline obtains from pandas timestamps (`.dt.year`, `.dt.quarter`,
    `.dt.dayofweek`, date subtraction, `strftime('%Y-%m-%d')`, `strftime('%Y%m%d')`). */
module Calendar {
  import opened Wrappers
  import opened Digits

  datatype Date = Date(year: int, month: int, day: int)

  predicate IsLeapYear(y: int) {
    y % 4 == 0 && (y % 100 != 0 || y % 400 == 0)
  }

  function DaysInMonth(y: int, m: int): (n: int)
    requires 1 <= m <= 12
    ensures 28 <= n <= 31
    ensures n == 29 <==> m == 2 && IsLeapYear(y)
  {
    if m == 2 then (if IsLeapYear(y) then 29 else 28)
    else if m == 4 || m == 6 || m == 9 || m == 11 then 30
    else 31
  }

  function YearLength(y: int): int {
    if IsLeapYear(y) then 366 else 365
  }

  predicate ValidDate(d: Date) {
    1 <= d.year <= 9999 && 1 <= d.month <= 12 && 1 <= d.day <= DaysInMonth(d.year, d.month)
  }

  /** Chronological order: lexicographic on (year, month, day). */
  predicate Before(a: Date, b: Date) {
    a.year < b.year
    || (a.year == b.year && a.month < b.month)
    || (a.year == b.year && a.month == b.month && a.day < b.day)
  }

  predicate AtOrBefore(a: Date, b: Date) {
    a == b || Before(a, b)
  }

  /** The first and last whole days a pandas nanosecond timestamp can hold; a parsed
      date outside them is out of bounds and `errors='coerce'` turns it into NaT. */
  const FirstTimestampDay := Date(1677, 9, 22)
  const LastTimestampDay := Date(2262, 4, 11)

  predicate Representable(d: Date) {
    ValidDate(d) && AtOrBefore(FirstTimestampDay, d) && AtOrBefore(d, LastTimestampDay)
  }

  /** A date pandas can hold as a midnight timestamp. */
  type Day = d: Date | Representable(d) witness Date(2000, 1, 1)

  function DaysBeforeYear(y: int): int
    requires y >= 1
  {
    365 * (y - 1) + (y - 1) / 4 - (y - 1) / 100 + (y - 1) / 400
  }

  function DaysBeforeMonth(y: int, m: int): int
    requires 1 <= m <= 12
  {
    var common :=
      if m == 1 then 0 else if m == 2 then 31 else if m == 3 then 59
      else if m == 4 then 90 else if m == 5 then 120 else if m == 6 then 151
      else if m == 7 then 181 else if m == 8 then 212 else if m == 9 then 243
      else if m == 10 then 273 else if m == 11 then 304 else 334;
    if m > 2 && IsLeapYear(y) then common + 1 else common
  }

  /** Days elapsed since 0001-01-01 (which was a Monday). */
  function DayNumber(d: Date): int
    requires ValidDate(d)
  {
    DaysBeforeYear(d.year) + DaysBeforeMonth(d.year, d.month) + d.day - 1
  }

  /** Whole days from `a` to `b`: `(b - a).days` on two midnight timestamps. */
  function DaysBetween(a: Date, b: Date): int
    requires ValidDate(a) && ValidDate(b)
  {
    DayNumber(b) - DayNumber(a)
  }

  /** pandas `dayofweek`: Monday is 0 and Sunday is 6. */
  function Weekday(d: Date): (w: int)
    requires ValidDate(d)
    ensures 0 <= w < 7
  {
    DayNumber(d) % 7
  }

  /** pandas `quarter`: months 1-3 are quarter 1, and so on. */
  function Quarter(month: int): (q: int)
    requires 1 <= month <= 12
    ensures 1 <= q <= 4
    ensures 3 * (q - 1) < month <= 3 * q
  {
    (month - 1) / 3 + 1
  }

  /** `int(date.strftime('%Y%m%d'))`. */
  function DateKey(d: Date): int
    requires ValidDate(d)
  {
    d.year * 10000 + d.month * 100 + d.day
  }

  /** `date.strftime('%Y-%m-%d')`. */
  function IsoText(d: Date): (s: string)
    requires ValidDate(d)
    ensures |s| == 10
  {
    PadDigits(d.year, 4) + "-" + PadDigits(d.month, 2) + "-" + PadDigits(d.day, 2)
  }

  /** `pd.to_datetime(s, format='%Y-%m-%d', errors='coerce')` on one value: the date,
      or None when the text is not a zero-padded calendar date a timestamp can hold. */
  function ParseIsoDate(s: string): Option<Day> {
    if |s| == 10 && s[4] == '-' && s[7] == '-'
       && AllDigits(s[..4]) && AllDigits(s[5..7]) && AllDigits(s[8..])
    then
      var d := Date(DigitsValue(s[..4]), DigitsValue(s[5..7]), DigitsValue(s[8..]));
      if Representable(d) then Some(d) else None
    else None
  }

  lemma Pow10Values()
    ensures Pow10(2) == 100 && Pow10(4) == 10000
  {
    assert Pow10(1) == 10;
    assert Pow10(3) == 1000;
  }

  /** Parsing yields a date exactly when the text is the ISO form of a representable
      date; so parsing inverts `IsoText` and never fails on its output. */
  lemma ParseIsoDateSpec(s: string, d: Date)
    ensures ParseIsoDate(s) == Some(d) <==> Representable(d) && s == IsoText(d)
  {
    if ParseIsoDate(s) == Some(d) {
      PadOfDigits(s[..4]);
      PadOfDigits(s[5..7]);
      PadOfDigits(s[8..]);
      assert s == s[..4] + "-" + s[5..7] + "-" + s[8..];
    }
    if Representable(d) && s == IsoText(d) {
      Pow10Values();
      DigitsOfPad(d.year, 4);
      DigitsOfPad(d.month, 2);
      DigitsOfPad(d.day, 2);
      assert s[..4] == PadDigits(d.year, 4);
      assert s[5..7] == PadDigits(d.month, 2);
      assert s[8..] == PadDigits(d.day, 2);
    }
  }

  /** The date key is an order-preserving, invertible encoding of valid dates, so
      keys are unique per date and sort like the dates they encode. */
  lemma DateKeyDecodes(d: Date)
    requires ValidDate(d)
    ensures DateKey(d) / 10000 == d.year
    ensures DateKey(d) / 100 % 100 == d.month
    ensures DateKey(d) % 100 == d.day
  {
  }

  lemma DateKeyOrder(a: Date, b: Date)
    requires ValidDate(a) && ValidDate(b)
    ensures Before(a, b) <==> DateKey(a) < DateKey(b)
    ensures a == b <==> DateKey(a) == DateKey(b)
  {
    DateKeyDecodes(a);
    DateKeyDecodes(b);
  }

  lemma YearStep(y: int)
    requires y >= 1
    ensures DaysBeforeYear(y + 1) == DaysBeforeYear(y) + YearLength(y)
  {
    assert y / 4 == (y - 1) / 4 + (if y % 4 == 0 then 1 else 0);
    assert y / 100 == (y - 1) / 100 + (if y % 100 == 0 then 1 else 0);
    assert y / 400 == (y - 1) / 400 + (if y % 400 == 0 then 1 else 0);
  }

  lemma {:induction false} YearsAfter(y: int, z: int)
    requires 1 <= y < z
    ensures DaysBeforeYear(y) + YearLength(y) <= DaysBeforeYear(z)
    decreases z - y
  {
    YearStep(y);
    if y + 1 < z {
      YearsAfter(y + 1, z);
    }
  }

  lemma MonthsAfter(y: int, m: int, n: int)
    requires 1 <= m < n <= 12
    ensures DaysBeforeMonth(y, m) + DaysInMonth(y, m) <= DaysBeforeMonth(y, n)
  {
  }

  lemma LastMonth(y: int)
    ensures DaysBeforeMonth(y, 12) + DaysInMonth(y, 12) == YearLength(y)
  {
  }

  /** Day numbers follow the calendar order: a strictly later date has a strictly
      larger day number. */
  lemma DayNumberMonotone(a: Date, b: Date)
    requires ValidDate(a) && ValidDate(b) && Before(a, b)
    ensures DayNumber(a) < DayNumber(b)
  {
    if a.year < b.year {
      LastMonth(a.year);
      if a.month < 12 {
        MonthsAfter(a.year, a.month, 12);
      }
      YearsAfter(a.year, b.year);
    } else if a.month < b.month {
      MonthsAfter(a.year, a.month, b.month);
    }
  }

  /** `(ship - order).days` is negative exactly when shipping precedes ordering, and
      zero exactly on the same day. */
  lemma DaysBetweenSign(a: Date, b: Date)
    requires ValidDate(a) && ValidDate(b)
    ensures DaysBetween(a, b) < 0 <==> Before(b, a)
    ensures DaysBetween(a, b) == 0 <==> a == b
    ensures DaysBetween(a, b) > 0 <==> Before(a, b)
  {
    if Before(a, b) {
      DayNumberMonotone(a, b);
    } else if Before(b, a) {
      DayNumberMonotone(b, a);
    }
  }

  /** The calendar day after `d`. */
  function NextDay(d: Date): (e: Date)
    requires ValidDate(d) && d.year < 9999
    ensures ValidDate(e) && Before(d, e)
  {
    if d.day < DaysInMonth(d.year, d.month) then Date(d.year, d.month, d.day + 1)
    else if d.month < 12 then Date(d.year, d.month + 1, 1)
    else Date(d.year + 1, 1, 1)
  }

  /** Day numbers count whole days: the next calendar day is exactly one day later,
      across month and year ends and leap days alike. */
  lemma DayNumberSucc(d: Date)
    requires ValidDate(d) && d.year < 9999
    ensures DayNumber(NextDay(d)) == DayNumber(d) + 1
    ensures DaysBetween(d, NextDay(d)) == 1
  {
    if d.day == DaysInMonth(d.year, d.month) && d.month == 12 {
      LastMonth(d.year);
      YearStep(d.year);
    }
  }

  /** Weekdays cycle with the days: the day after a Sunday (6) is a Monday (0), and
      every other day is followed by the next weekday number. */
  lemma WeekdaySucc(d: Date)
    requires ValidDate(d) && d.year < 9999
    ensures Weekday(NextDay(d)) == (Weekday(d) + 1) % 7
  {
    DayNumberSucc(d);
    SevenStep(DayNumber(d));
  }

  lemma SevenStep(n: int)
    ensures (n + 1) % 7 == (n % 7 + 1) % 7
  {
    var q := n / 7;
    assert n == 7 * q + n % 7;
    assert n + 1 == 7 * q + (n % 7 + 1);
  }

  /** The numbering is anchored on Mondays: 0001-01-01 and 2019-01-07 were Mondays. */
  lemma WeekdayAnchor()
    ensures Weekday(Date(1, 1, 1)) == 0
    ensures Weekday(Date(2019, 1, 7)) == 0
  {
  }

  /** 2019-01-03 (a test fixture date) is a Thursday, keyed 20190103, in quarter 1. */
  lemma FixtureDate()
    ensures ValidDate(Date(2019, 1, 3))
    ensures Weekday(Date(2019, 1, 3)) == 3
    ensures DateKey(Date(2019, 1, 3)) == 20190103
    ensures Quarter(1) == 1
    ensures DaysBetween(Date(2019, 1, 3), Date(2019, 1, 7)) == 4
  {
  }
}
