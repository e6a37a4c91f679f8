/**
 * The proleptic Gregorian calendar as Spark's DateType and Python's datetime
 * use it, over their common range of years 1 to 9999: validity, the next
 * day, a day number that counts days from 0001-01-01 (which is day 1, a
 * Monday), the day of the week, the yyyyMMdd date key and the
 * %Y%m%d_%H%M%S timestamp that names extractor output files.
 */
module Calendar {
  import opened Text

  datatype Date = Date(year: int, month: int, day: int)

  /** A wall-clock reading, already decomposed, to the second. */
  datatype DateTime = DateTime(date: Date, hour: int, minute: int, second: int)

  const MinYear := 1
  const MaxYear := 9999

  predicate IsLeapYear(y: int) {
    y % 4 == 0 && (y % 100 != 0 || y % 400 == 0)
  }

  function DaysInMonth(y: int, m: int): (n: int)
    requires 1 <= m <= 12
    ensures 28 <= n <= 31
  {
    if m == 2 then (if IsLeapYear(y) then 29 else 28)
    else if m == 4 || m == 6 || m == 9 || m == 11 then 30
    else 31
  }

  function DaysInYear(y: int): int {
    if IsLeapYear(y) then 366 else 365
  }

  predicate ValidDate(d: Date) {
    MinYear <= d.year <= MaxYear && 1 <= d.month <= 12 && 1 <= d.day <= DaysInMonth(d.year, d.month)
  }

  predicate ValidDateTime(t: DateTime) {
    ValidDate(t.date) && 0 <= t.hour < 24 && 0 <= t.minute < 60 && 0 <= t.second < 60
  }

  /** Calendar order: by year, then month, then day. */
  predicate Before(a: Date, b: Date) {
    a.year < b.year
    || (a.year == b.year && a.month < b.month)
    || (a.year == b.year && a.month == b.month && a.day < b.day)
  }

  const LastDate := Date(MaxYear, 12, 31)

  /** The day after `d`; it leaves the valid range only after 9999-12-31. */
  function NextDay(d: Date): (n: Date)
    requires ValidDate(d)
    ensures d != LastDate ==> ValidDate(n)
    ensures Before(d, n)
  {
    if d.day < DaysInMonth(d.year, d.month) then Date(d.year, d.month, d.day + 1)
    else if d.month < 12 then Date(d.year, d.month + 1, 1)
    else Date(d.year + 1, 1, 1)
  }

  /** Days in the years before `y`. */
  function DaysBeforeYear(y: int): int
    requires y >= 1
  {
    365 * (y - 1) + (y - 1) / 4 - (y - 1) / 100 + (y - 1) / 400
  }

  /** Days in the months of a common year before month `m`. */
  function DaysBeforeMonthCommon(m: int): int
    requires 1 <= m <= 12
  {
    match m
    case 1 => 0
    case 2 => 31
    case 3 => 59
    case 4 => 90
    case 5 => 120
    case 6 => 151
    case 7 => 181
    case 8 => 212
    case 9 => 243
    case 10 => 273
    case 11 => 304
    case _ => 334
  }

  function DaysBeforeMonth(y: int, m: int): int
    requires 1 <= m <= 12
  {
    DaysBeforeMonthCommon(m) + (if m > 2 && IsLeapYear(y) then 1 else 0)
  }

  /** Day number of `d`: 0001-01-01 is day 1. */
  function Ordinal(d: Date): int
    requires ValidDate(d)
  {
    DaysBeforeYear(d.year) + DaysBeforeMonth(d.year, d.month) + d.day
  }

  /**
   * Day of the week, Sunday = 1 through Saturday = 7, as Spark's dayofweek
   * numbers it. Day 1 of the calendar is a Monday (2).
   */
  function DayOfWeek(d: Date): (w: int)
    requires ValidDate(d)
    ensures 1 <= w <= 7
  {
    Ordinal(d) % 7 + 1
  }

  // ----- Day numbers -----

  /** Stepping from x - 1 to x raises each quotient exactly when its divisor divides x. */
  lemma DivStep4(x: int)
    ensures x / 4 - (x - 1) / 4 == (if x % 4 == 0 then 1 else 0)
  {
    var q, r := (x - 1) / 4, (x - 1) % 4;
    if r == 3 {
      assert x == 4 * (q + 1);
    } else {
      assert x == 4 * q + (r + 1);
    }
  }

  lemma DivStep100(x: int)
    ensures x / 100 - (x - 1) / 100 == (if x % 100 == 0 then 1 else 0)
  {
    var q, r := (x - 1) / 100, (x - 1) % 100;
    if r == 99 {
      assert x == 100 * (q + 1);
    } else {
      assert x == 100 * q + (r + 1);
    }
  }

  lemma DivStep400(x: int)
    ensures x / 400 - (x - 1) / 400 == (if x % 400 == 0 then 1 else 0)
  {
    var q, r := (x - 1) / 400, (x - 1) % 400;
    if r == 399 {
      assert x == 400 * (q + 1);
    } else {
      assert x == 400 * q + (r + 1);
    }
  }

  lemma Mod7Step(o: int)
    ensures (o + 1) % 7 == (o % 7 + 1) % 7
  {
    var q, r := o / 7, o % 7;
    if r == 6 {
      assert o + 1 == 7 * (q + 1);
    } else {
      assert o + 1 == 7 * q + (r + 1);
    }
  }

  /** Consecutive years start DaysInYear apart. */
  lemma YearLength(y: int)
    requires y >= 1
    ensures DaysBeforeYear(y + 1) == DaysBeforeYear(y) + DaysInYear(y)
  {
    DivStep4(y);
    DivStep100(y);
    DivStep400(y);
  }

  lemma MonthLength(y: int, m: int)
    requires 1 <= m < 12
    ensures DaysBeforeMonth(y, m + 1) == DaysBeforeMonth(y, m) + DaysInMonth(y, m)
  {
  }

  /** The months before December and December itself fill the year. */
  lemma DecemberEndsYear(y: int)
    ensures DaysBeforeMonth(y, 12) + DaysInMonth(y, 12) == DaysInYear(y)
  {
  }

  /** The next day has the next day number. */
  lemma OrdinalNext(d: Date)
    requires ValidDate(d) && d != LastDate
    ensures Ordinal(NextDay(d)) == Ordinal(d) + 1
  {
    if d.day == DaysInMonth(d.year, d.month) {
      if d.month < 12 {
        MonthLength(d.year, d.month);
      } else {
        YearLength(d.year);
        DecemberEndsYear(d.year);
      }
    }
  }

  /** The day of the week advances by one, Saturday (7) wrapping to Sunday (1). */
  lemma DayOfWeekNext(d: Date)
    requires ValidDate(d) && d != LastDate
    ensures DayOfWeek(NextDay(d)) == DayOfWeek(d) % 7 + 1
  {
    OrdinalNext(d);
    Mod7Step(Ordinal(d));
  }

  lemma {:induction false} YearsMonotone(y1: int, y2: int)
    requires 1 <= y1 <= y2
    ensures DaysBeforeYear(y1) + (y2 - y1) * 365 <= DaysBeforeYear(y2)
    decreases y2 - y1
  {
    if y1 < y2 {
      YearLength(y1);
      YearsMonotone(y1 + 1, y2);
    }
  }

  lemma MonthsMonotone(y: int, m1: int, m2: int)
    requires 1 <= m1 < m2 <= 12
    ensures DaysBeforeMonth(y, m1) + DaysInMonth(y, m1) <= DaysBeforeMonth(y, m2)
  {
  }

  /** A valid date's day number falls inside its year. */
  lemma OrdinalWithinYear(d: Date)
    requires ValidDate(d)
    ensures DaysBeforeYear(d.year) < Ordinal(d) <= DaysBeforeYear(d.year) + DaysInYear(d.year)
  {
    if d.month < 12 {
      MonthsMonotone(d.year, d.month, 12);
    }
    DecemberEndsYear(d.year);
  }

  /** Day numbers follow calendar order. */
  lemma OrdinalMonotone(a: Date, b: Date)
    requires ValidDate(a) && ValidDate(b) && Before(a, b)
    ensures Ordinal(a) < Ordinal(b)
  {
    if a.year < b.year {
      OrdinalWithinYear(a);
      OrdinalWithinYear(b);
      YearLength(a.year);
      YearsMonotone(a.year + 1, b.year);
    } else if a.month < b.month {
      MonthsMonotone(a.year, a.month, b.month);
    }
  }

  /** Distinct valid dates have distinct day numbers, ordered as the dates are. */
  lemma OrdinalOrder(a: Date, b: Date)
    requires ValidDate(a) && ValidDate(b)
    ensures Ordinal(a) < Ordinal(b) <==> Before(a, b)
    ensures Ordinal(a) == Ordinal(b) <==> a == b
  {
    if Before(a, b) {
      OrdinalMonotone(a, b);
    } else if Before(b, a) {
      OrdinalMonotone(b, a);
    }
  }

  /** No valid date comes after 9999-12-31. */
  lemma LastDateIsLast(d: Date)
    requires ValidDate(d)
    ensures Ordinal(d) <= Ordinal(LastDate)
  {
    OrdinalOrder(d, LastDate);
  }

  /** The date `k` days after `s`. */
  function DaysAfter(s: Date, k: nat): (r: Date)
    requires ValidDate(s) && Ordinal(s) + k <= Ordinal(LastDate)
    ensures ValidDate(r) && Ordinal(r) == Ordinal(s) + k
  {
    if k == 0 then s
    else
      var p := DaysAfter(s, k - 1);
      OrdinalNext(p);
      NextDay(p)
  }

  /**
   * Spark's sequence(start, stop, interval 1 day): every day from `s`
   * through `e`. With a positive step Spark rejects a stop before the
   * start, so the bounds must be in order (by OrdinalOrder, `e` is not
   * before `s`).
   */
  function DateRange(s: Date, e: Date): (r: seq<Date>)
    requires ValidDate(s) && ValidDate(e) && Ordinal(s) <= Ordinal(e)
    ensures |r| == Ordinal(e) - Ordinal(s) + 1
  {
    var n := Ordinal(e) - Ordinal(s) + 1;
    LastDateIsLast(e);
    seq(n, i requires 0 <= i < n => DaysAfter(s, i))
  }

  /** The range holds one valid date per day number from Ordinal(s) to Ordinal(e). */
  lemma DateRangeShape(s: Date, e: Date)
    requires ValidDate(s) && ValidDate(e) && Ordinal(s) <= Ordinal(e)
    ensures forall i :: 0 <= i < |DateRange(s, e)| ==>
              ValidDate(DateRange(s, e)[i]) && Ordinal(DateRange(s, e)[i]) == Ordinal(s) + i
  {
  }

  /** Each day in the range is followed by the next calendar day. */
  lemma DateRangeConsecutive(s: Date, e: Date, i: nat)
    requires ValidDate(s) && ValidDate(e) && Ordinal(s) <= Ordinal(e)
    requires i + 1 < |DateRange(s, e)|
    ensures ValidDate(DateRange(s, e)[i]) && DateRange(s, e)[i] != LastDate
    ensures DateRange(s, e)[i + 1] == NextDay(DateRange(s, e)[i])
  {
    DateRangeShape(s, e);
    var a, b := DateRange(s, e)[i], DateRange(s, e)[i + 1];
    LastDateIsLast(b);
    assert a != LastDate;
    OrdinalNext(a);
    OrdinalOrder(b, NextDay(a));
  }

  /** Every valid date between `s` and `e` (inclusive) is in the range, at its offset from `s`. */
  lemma DateRangeComplete(s: Date, e: Date, d: Date)
    requires ValidDate(s) && ValidDate(e) && ValidDate(d)
    requires !Before(d, s) && !Before(e, d) && Ordinal(s) <= Ordinal(e)
    ensures 0 <= Ordinal(d) - Ordinal(s) < |DateRange(s, e)|
    ensures DateRange(s, e)[Ordinal(d) - Ordinal(s)] == d
  {
    OrdinalOrder(s, d);
    OrdinalOrder(d, e);
    OrdinalOrder(DateRange(s, e)[Ordinal(d) - Ordinal(s)], d);
  }

  // ----- Date keys -----

  /** date_format(d, "yyyyMMdd"): four-digit year, two-digit month and day. */
  function FormatYyyyMMdd(d: Date): (s: string)
    requires ValidDate(d)
    ensures |s| == 8 && AllDigits(s)
  {
    Pad(d.year, 4) + Pad(d.month, 2) + Pad(d.day, 2)
  }

  /** The integer date key: the yyyyMMdd string cast to int. */
  function DateKey(d: Date): int
    requires ValidDate(d)
  {
    ParseDigits(FormatYyyyMMdd(d))
  }

  /** The date key is the year, month and day packed as decimal fields. */
  lemma DateKeyValue(d: Date)
    requires ValidDate(d)
    ensures DateKey(d) == d.year * 10000 + d.month * 100 + d.day
  {
    var y, m, dd := Pad(d.year, 4), Pad(d.month, 2), Pad(d.day, 2);
    assert Pow10(2) == 100 && Pow10(4) == 10000;
    ParsePad(d.year, 4);
    ParsePad(d.month, 2);
    ParsePad(d.day, 2);
    ParseConcat(y, m);
    ParseConcat(y + m, dd);
  }

  /** The date a key encodes. */
  function DateOfKey(k: int): Date {
    Date(k / 10000, k / 100 % 100, k % 100)
  }

  lemma UnpackKey(y: int, m: int, d: int)
    requires 1 <= m <= 12 && 1 <= d <= 31
    ensures DateOfKey(y * 10000 + m * 100 + d) == Date(y, m, d)
  {
    var k := y * 10000 + m * 100 + d;
    assert k == 10000 * y + (m * 100 + d);
    assert k == 100 * (y * 100 + m) + d;
    assert k / 100 == y * 100 + m;
    assert y * 100 + m == 100 * y + m;
  }

  /** Decoding a date key gives back the date. */
  lemma DateKeyRoundTrip(d: Date)
    requires ValidDate(d)
    ensures DateOfKey(DateKey(d)) == d
    ensures 10101 <= DateKey(d) <= 99991231
  {
    DateKeyValue(d);
    UnpackKey(d.year, d.month, d.day);
  }

  /** Date keys follow calendar order, so they are unique. */
  lemma DateKeyOrder(a: Date, b: Date)
    requires ValidDate(a) && ValidDate(b)
    ensures DateKey(a) < DateKey(b) <==> Before(a, b)
    ensures DateKey(a) == DateKey(b) <==> a == b
  {
    DateKeyValue(a);
    DateKeyValue(b);
  }

  // ----- File timestamps -----

  /**
   * %Y%m%d: the year in decimal, month and day with two digits. From year
   * 1000 on (every year `datetime.now()` gives) the year has four digits on
   * every platform; for earlier years whether %Y pads depends on the
   * Python version and the C library (glibc left it unpadded, and recent
   * CPython releases pad it to four digits themselves). The model writes
   * such years unpadded.
   */
  function DatePart(d: Date): (s: string)
    requires ValidDate(d)
    ensures |s| == NumDigits(d.year) + 4 && AllDigits(s)
  {
    Decimal(d.year) + Pad(d.month, 2) + Pad(d.day, 2)
  }

  /** %H%M%S: hour, minute and second with two digits each. */
  function TimePart(t: DateTime): (s: string)
    requires ValidDateTime(t)
    ensures |s| == 6 && AllDigits(s)
  {
    Pad(t.hour, 2) + Pad(t.minute, 2) + Pad(t.second, 2)
  }

  /** datetime.strftime('%Y%m%d_%H%M%S'). */
  function FileTimestamp(t: DateTime): (s: string)
    requires ValidDateTime(t)
    ensures |s| == NumDigits(t.date.year) + 11
  {
    DatePart(t.date) + "_" + TimePart(t)
  }

  /** From 1000 on, the year has four digits and the timestamp fifteen characters. */
  lemma FileTimestampWidth(t: DateTime)
    requires ValidDateTime(t) && t.date.year >= 1000
    ensures |FileTimestamp(t)| == 15 && FileTimestamp(t)[8] == '_'
  {
    FourDigits(t.date.year);
  }

  /** Reading the fields of a date part back: the last four digits are month and day. */
  function ParseDatePart(s: string): Date
    requires |s| >= 5 && AllDigits(s)
  {
    var n := |s|;
    Date(ParseDigits(s[..n - 4]), ParseDigits(s[n - 4..n - 2]), ParseDigits(s[n - 2..]))
  }

  /** Reading the fields of a timestamp back: the date part, `_`, then six digits of time. */
  function ParseFileTimestamp(s: string): DateTime
    requires |s| >= 12 && AllDigits(s[..|s| - 7]) && AllDigits(s[|s| - 6..])
  {
    var n := |s|;
    var time := s[n - 6..];
    DateTime(ParseDatePart(s[..n - 7]), ParseDigits(time[..2]), ParseDigits(time[2..4]), ParseDigits(time[4..]))
  }

  lemma DatePartRoundTrip(d: Date)
    requires ValidDate(d)
    ensures ParseDatePart(DatePart(d)) == d
  {
    var y, m, dd := Decimal(d.year), Pad(d.month, 2), Pad(d.day, 2);
    var s := DatePart(d);
    Slices3(y, m, dd);
    ParseDecimal(d.year);
    ParsePad(d.month, 2);
    ParsePad(d.day, 2);
    assert Pow10(2) == 100;
  }

  lemma TimePartRoundTrip(t: DateTime)
    requires ValidDateTime(t)
    ensures var s := TimePart(t);
      ParseDigits(s[..2]) == t.hour && ParseDigits(s[2..4]) == t.minute && ParseDigits(s[4..]) == t.second
  {
    Slices3(Pad(t.hour, 2), Pad(t.minute, 2), Pad(t.second, 2));
    ParsePad(t.hour, 2);
    ParsePad(t.minute, 2);
    ParsePad(t.second, 2);
    assert Pow10(2) == 100;
  }

  lemma FileTimestampRoundTrip(t: DateTime)
    requires ValidDateTime(t)
    ensures var s := FileTimestamp(t);
      |s| >= 12 && AllDigits(s[..|s| - 7]) && AllDigits(s[|s| - 6..]) && ParseFileTimestamp(s) == t
  {
    var date, time := DatePart(t.date), TimePart(t);
    var s := FileTimestamp(t);
    Slices3(date, "_", time);
    assert s[..|s| - 7] == date && s[|s| - 6..] == time;
    DatePartRoundTrip(t.date);
    TimePartRoundTrip(t);
  }

  /** Clock readings that differ (to the second) give different timestamps. */
  lemma FileTimestampInjective(t1: DateTime, t2: DateTime)
    requires ValidDateTime(t1) && ValidDateTime(t2)
    requires FileTimestamp(t1) == FileTimestamp(t2)
    ensures t1 == t2
  {
    FileTimestampRoundTrip(t1);
    FileTimestampRoundTrip(t2);
  }
}
