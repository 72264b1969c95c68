/** Calendar dates of daily bars: the parsed form of a 'YYYY-MM-DD' string, the
    day number that date differences are computed from, and the "Mon DD, YYYY"
    rendering used in reports. */
module Dates {

  /** A date as parsed from a 'YYYY-MM-DD' string. */
  datatype Date = Date(year: int, month: int, day: int)

  predicate IsLeap(year: int)
  {
    year % 4 == 0 && (year % 100 != 0 || year % 400 == 0)
  }

  function DaysInYear(year: int): int
  {
    if IsLeap(year) then 366 else 365
  }

  function DaysInMonth(year: int, month: int): int
  {
    if month == 2 then (if IsLeap(year) then 29 else 28)
    else if month == 4 || month == 6 || month == 9 || month == 11 then 30
    else 31
  }

  /** A date the parser accepts: a four-digit year and an existing day of an existing month. */
  predicate ValidDate(d: Date)
  {
    1 <= d.year <= 9999 && 1 <= d.month <= 12 && 1 <= d.day <= DaysInMonth(d.year, d.month)
  }

  /** Days in the proleptic Gregorian calendar before January 1 of `year`,
      counted year by year. */
  function DaysBeforeYear(year: int): int
  {
    if year <= 1 then 0 else DaysBeforeYear(year - 1) + DaysInYear(year - 1)
  }

  /** Days of `year` before the first of `month`, counted month by month. */
  function DaysBeforeMonth(year: int, month: int): int
  {
    if month <= 1 then 0 else DaysBeforeMonth(year, month - 1) + DaysInMonth(year, month - 1)
  }

  /** The ordinal of a date (January 1 of year 1 is day 1); the difference of two
      ordinals is the number of calendar days between the dates. */
  function DayNumber(d: Date): int
  {
    DaysBeforeYear(d.year) + DaysBeforeMonth(d.year, d.month) + d.day
  }

  /** Chronological order of date records: year, then month, then day. For
      well-formed 'YYYY-MM-DD' strings this is their string order. */
  predicate DateLe(a: Date, b: Date)
  {
    a.year < b.year || (a.year == b.year && (a.month < b.month || (a.month == b.month && a.day <= b.day)))
  }

  /** The closed form of the proleptic Gregorian year count: 365 days a year
      plus one for each leap year before `year`. */
  function ClosedDaysBeforeYear(year: int): int
  {
    var y := year - 1;
    y * 365 + y / 4 - y / 100 + y / 400
  }

  lemma ClosedFormStep(year: int)
    requires year >= 1
    ensures ClosedDaysBeforeYear(year + 1) == ClosedDaysBeforeYear(year) + DaysInYear(year)
  {
    var y := year - 1;
    assert year / 4 - y / 4 == (if year % 4 == 0 then 1 else 0);
    assert year / 100 - y / 100 == (if year % 100 == 0 then 1 else 0);
    assert year / 400 - y / 400 == (if year % 400 == 0 then 1 else 0);
  }

  /** The year-by-year count agrees with the closed form. */
  lemma {:induction false} DaysBeforeYearFormula(year: int)
    requires year >= 1
    ensures DaysBeforeYear(year) == ClosedDaysBeforeYear(year)
    decreases year
  {
    if year > 1 {
      DaysBeforeYearFormula(year - 1);
      ClosedFormStep(year - 1);
    }
  }

  /** The months before a month, by the table of cumulative month lengths. */
  lemma DaysBeforeMonthTable(year: int)
    ensures var leap := if IsLeap(year) then 1 else 0;
      && DaysBeforeMonth(year, 2) == 31 && DaysBeforeMonth(year, 3) == 59 + leap
      && DaysBeforeMonth(year, 4) == 90 + leap && DaysBeforeMonth(year, 5) == 120 + leap
      && DaysBeforeMonth(year, 6) == 151 + leap && DaysBeforeMonth(year, 7) == 181 + leap
      && DaysBeforeMonth(year, 8) == 212 + leap && DaysBeforeMonth(year, 9) == 243 + leap
      && DaysBeforeMonth(year, 10) == 273 + leap && DaysBeforeMonth(year, 11) == 304 + leap
      && DaysBeforeMonth(year, 12) == 334 + leap
  {
    assert DaysBeforeMonth(year, 1) == 0;
    assert DaysBeforeMonth(year, 2) == 31;
    assert DaysBeforeMonth(year, 3) == DaysBeforeMonth(year, 2) + DaysInMonth(year, 2);
    assert DaysBeforeMonth(year, 4) == DaysBeforeMonth(year, 3) + 31;
    assert DaysBeforeMonth(year, 5) == DaysBeforeMonth(year, 4) + 30;
    assert DaysBeforeMonth(year, 6) == DaysBeforeMonth(year, 5) + 31;
    assert DaysBeforeMonth(year, 7) == DaysBeforeMonth(year, 6) + 30;
    assert DaysBeforeMonth(year, 8) == DaysBeforeMonth(year, 7) + 31;
    assert DaysBeforeMonth(year, 9) == DaysBeforeMonth(year, 8) + 31;
    assert DaysBeforeMonth(year, 10) == DaysBeforeMonth(year, 9) + 30;
    assert DaysBeforeMonth(year, 11) == DaysBeforeMonth(year, 10) + 31;
    assert DaysBeforeMonth(year, 12) == DaysBeforeMonth(year, 11) + 30;
  }

  /** A later year starts after every day of an earlier year. */
  lemma {:induction false} YearsOrdered(a: int, b: int)
    requires 1 <= a < b
    ensures DaysBeforeYear(a) + DaysInYear(a) <= DaysBeforeYear(b)
    decreases b - a
  {
    if a + 1 < b {
      YearsOrdered(a + 1, b);
    }
  }

  /** A later month of the same year starts after every day of an earlier month. */
  lemma {:induction false} MonthsOrdered(year: int, a: int, b: int)
    requires 1 <= a < b <= 12
    ensures DaysBeforeMonth(year, a) + DaysInMonth(year, a) <= DaysBeforeMonth(year, b)
    decreases b - a
  {
    if a + 1 < b {
      MonthsOrdered(year, a + 1, b);
    }
  }

  lemma DayOfYearBounds(d: Date)
    requires ValidDate(d)
    ensures 1 <= DaysBeforeMonth(d.year, d.month) + d.day <= DaysInYear(d.year)
  {
    DaysBeforeMonthTable(d.year);
    if d.month > 1 {
      MonthsOrdered(d.year, 1, d.month);
    }
    if d.month < 12 {
      MonthsOrdered(d.year, d.month, 12);
    }
  }

  /** Chronological order of valid dates is the order of their day numbers, and
      distinct valid dates have distinct day numbers. */
  lemma DayNumberOrder(a: Date, b: Date)
    requires ValidDate(a) && ValidDate(b) && DateLe(a, b)
    ensures DayNumber(a) <= DayNumber(b)
    ensures a != b ==> DayNumber(a) < DayNumber(b)
  {
    DayOfYearBounds(a);
    DayOfYearBounds(b);
    if a.year < b.year {
      YearsOrdered(a.year, b.year);
    } else if a.month < b.month {
      MonthsOrdered(a.year, a.month, b.month);
    }
  }

  function MonthAbbreviation(month: int): (s: string)
    requires 1 <= month <= 12
    ensures |s| == 3
  {
    ["Jan", "Feb", "Mar", "Apr", "May", "Jun", "Jul", "Aug", "Sep", "Oct", "Nov", "Dec"][month - 1]
  }

  function DigitChar(n: int): char
    requires 0 <= n <= 9
  {
    (48 + n) as char
  }

  function DigitValue(c: char): int
  {
    c as int - 48
  }

  /** Zero-padded two-digit rendering. */
  function TwoDigits(n: int): (s: string)
    requires 0 <= n <= 99
    ensures |s| == 2
  {
    [DigitChar(n / 10), DigitChar(n % 10)]
  }

  /** Zero-padded four-digit rendering. */
  function FourDigits(n: int): (s: string)
    requires 0 <= n <= 9999
    ensures |s| == 4
  {
    TwoDigits(n / 100) + TwoDigits(n % 100)
  }

  /** A date rendered as "Mon DD, YYYY" (abbreviated month, zero-padded day). */
  function FormatDate(d: Date): (s: string)
    requires ValidDate(d)
    ensures |s| == 12
    ensures s[3] == ' ' && s[6] == ',' && s[7] == ' '
    ensures forall k :: k in {4, 5, 8, 9, 10, 11} ==> '0' <= s[k] <= '9'
  {
    var m, dd, y := MonthAbbreviation(d.month), TwoDigits(d.day), FourDigits(d.year);
    [m[0], m[1], m[2], ' ', dd[0], dd[1], ',', ' ', y[0], y[1], y[2], y[3]]
  }

  /** Month number of a three-letter abbreviation; 0 for an unknown one. */
  function MonthOfAbbreviation(s: string): int
  {
    if s == "Jan" then 1 else if s == "Feb" then 2 else if s == "Mar" then 3
    else if s == "Apr" then 4 else if s == "May" then 5 else if s == "Jun" then 6
    else if s == "Jul" then 7 else if s == "Aug" then 8 else if s == "Sep" then 9
    else if s == "Oct" then 10 else if s == "Nov" then 11 else if s == "Dec" then 12
    else 0
  }

  /** Reads a "Mon DD, YYYY" string back into a date record. */
  function ParseFormattedDate(s: string): Date
    requires |s| == 12
  {
    Date(1000 * DigitValue(s[8]) + 100 * DigitValue(s[9]) + 10 * DigitValue(s[10]) + DigitValue(s[11]),
         MonthOfAbbreviation(s[..3]),
         10 * DigitValue(s[4]) + DigitValue(s[5]))
  }

  lemma MonthAbbreviationRoundTrip(month: int)
    requires 1 <= month <= 12
    ensures MonthOfAbbreviation(MonthAbbreviation(month)) == month
  {
  }

  lemma TwoDigitsRoundTrip(n: int)
    requires 0 <= n <= 99
    ensures 10 * DigitValue(TwoDigits(n)[0]) + DigitValue(TwoDigits(n)[1]) == n
  {
  }

  lemma FourDigitsRoundTrip(n: int)
    requires 0 <= n <= 9999
    ensures var s := FourDigits(n);
      1000 * DigitValue(s[0]) + 100 * DigitValue(s[1]) + 10 * DigitValue(s[2]) + DigitValue(s[3]) == n
  {
    var high, low := TwoDigits(n / 100), TwoDigits(n % 100);
    assert FourDigits(n) == high + low;
    TwoDigitsRoundTrip(n / 100);
    TwoDigitsRoundTrip(n % 100);
  }

  /** The rendering loses nothing: a valid date is recovered from its text, so
      distinct dates are rendered differently. */
  lemma FormatDateRoundTrip(d: Date)
    requires ValidDate(d)
    ensures ParseFormattedDate(FormatDate(d)) == d
  {
    var s := FormatDate(d);
    var m, dd, y := MonthAbbreviation(d.month), TwoDigits(d.day), FourDigits(d.year);
    assert s[..3] == m;
    MonthAbbreviationRoundTrip(d.month);
    TwoDigitsRoundTrip(d.day);
    FourDigitsRoundTrip(d.year);
  }

  lemma FormatDateInjective(a: Date, b: Date)
    requires ValidDate(a) && ValidDate(b) && a != b
    ensures FormatDate(a) != FormatDate(b)
  {
    FormatDateRoundTrip(a);
    FormatDateRoundTrip(b);
  }
}
