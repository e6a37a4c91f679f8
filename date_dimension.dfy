/**
 * The date dimension of the star schema: one row per calendar day from
 * 2024-01-01 through 2026-12-31, with the calendar attributes Spark derives
 * from each date.
 */
module DateDimension {
  import opened Calendar

  datatype DateRow = DateRow(
    dateKey: int,
    fullDate: Date,
    year: int,
    quarter: int,
    month: int,
    monthName: string,
    dayOfWeek: int,
    dayName: string,
    isWeekend: bool)

  const StartDate := Date(2024, 1, 1)
  const EndDate := Date(2026, 12, 31)

  /** Spark's quarter of a month. */
  function Quarter(m: int): int
    requires 1 <= m <= 12
  {
    if m <= 3 then 1 else if m <= 6 then 2 else if m <= 9 then 3 else 4
  }

  /** date_format(d, "MMMM") in an English locale. */
  function MonthName(m: int): string
    requires 1 <= m <= 12
  {
    match m
    case 1 => "January"
    case 2 => "February"
    case 3 => "March"
    case 4 => "April"
    case 5 => "May"
    case 6 => "June"
    case 7 => "July"
    case 8 => "August"
    case 9 => "September"
    case 10 => "October"
    case 11 => "November"
    case _ => "December"
  }

  /** date_format(d, "EEEE") in an English locale, for dayofweek's numbering (Sunday = 1). */
  function DayName(w: int): string
    requires 1 <= w <= 7
  {
    match w
    case 1 => "Sunday"
    case 2 => "Monday"
    case 3 => "Tuesday"
    case 4 => "Wednesday"
    case 5 => "Thursday"
    case 6 => "Friday"
    case _ => "Saturday"
  }

  /** The columns selected for one date. */
  function DateRowOf(d: Date): DateRow
    requires ValidDate(d)
  {
    var w := DayOfWeek(d);
    DateRow(
      dateKey := DateKey(d),
      fullDate := d,
      year := d.year,
      quarter := Quarter(d.month),
      month := d.month,
      monthName := MonthName(d.month),
      dayOfWeek := w,
      dayName := DayName(w),
      isWeekend := w in [1, 7])
  }

  /** The fixed range's bounds are valid and in order: 2024-01-01 is day 738886, 2026-12-31 day 739981. */
  lemma RangeBounds()
    ensures ValidDate(StartDate) && ValidDate(EndDate)
    ensures Ordinal(StartDate) == 738886 && Ordinal(EndDate) == 739981
  {
  }

  /** create_date_dimension: the rows for every day of the fixed range, in date order. */
  function CreateDateDimension(): seq<DateRow> {
    RangeBounds();
    var days := DateRange(StartDate, EndDate);
    seq(|days|, i requires 0 <= i < |days| => DateRowOf(days[i]))
  }

  /** Quarter agrees with the closed form (m - 1) / 3 + 1. */
  lemma QuarterFormula(m: int)
    requires 1 <= m <= 12
    ensures Quarter(m) == (m - 1) / 3 + 1
    ensures 1 <= Quarter(m) <= 4
  {
  }

  /** 2024 is a leap year: the range holds 366 + 365 + 365 days. */
  lemma DimensionSize()
    ensures |CreateDateDimension()| == 1096
  {
    assert Ordinal(EndDate) - Ordinal(StartDate) + 1 == 1096;
  }

  /** Row i is the i-th day after the start date, and lies in the range. */
  lemma RowDates(i: int)
    requires 0 <= i < |CreateDateDimension()|
    ensures var d := CreateDateDimension()[i].fullDate;
      ValidDate(d) && Ordinal(d) == Ordinal(StartDate) + i
      && !Before(d, StartDate) && !Before(EndDate, d)
  {
    DateRangeShape(StartDate, EndDate);
    var d := CreateDateDimension()[i].fullDate;
    OrdinalOrder(d, StartDate);
    OrdinalOrder(EndDate, d);
  }

  /** Every day of the range has a row. */
  lemma DimensionComplete(d: Date)
    requires ValidDate(d) && !Before(d, StartDate) && !Before(EndDate, d)
    ensures exists i :: 0 <= i < |CreateDateDimension()| && CreateDateDimension()[i].fullDate == d
  {
    RangeBounds();
    DateRangeComplete(StartDate, EndDate, d);
    var days := DateRange(StartDate, EndDate);
    var i := Ordinal(d) - Ordinal(StartDate);
    assert days[i] == d;
    assert CreateDateDimension()[i] == DateRowOf(days[i]);
  }

  /** Date keys strictly increase down the rows, with the dates; so both are unique. */
  lemma DateKeysIncreasing(i: int, j: int)
    requires 0 <= i < j < |CreateDateDimension()|
    ensures Before(CreateDateDimension()[i].fullDate, CreateDateDimension()[j].fullDate)
    ensures CreateDateDimension()[i].dateKey < CreateDateDimension()[j].dateKey
  {
    var a, b := CreateDateDimension()[i].fullDate, CreateDateDimension()[j].fullDate;
    RowDates(i);
    RowDates(j);
    OrdinalOrder(a, b);
    DateKeyOrder(a, b);
  }

  /** Consecutive rows are consecutive days, and the day of the week advances by one modulo 7. */
  lemma DayOfWeekAdvances(i: int)
    requires 0 <= i && i + 1 < |CreateDateDimension()|
    ensures var rows := CreateDateDimension();
      ValidDate(rows[i].fullDate) && rows[i].fullDate != LastDate
      && rows[i + 1].fullDate == NextDay(rows[i].fullDate)
      && rows[i + 1].dayOfWeek == rows[i].dayOfWeek % 7 + 1
  {
    DateRangeShape(StartDate, EndDate);
    DateRangeConsecutive(StartDate, EndDate, i);
    DayOfWeekNext(CreateDateDimension()[i].fullDate);
  }

  /** The first row is 2024-01-01, a Monday. */
  lemma FirstRow()
    ensures |CreateDateDimension()| > 0
    ensures CreateDateDimension()[0].fullDate == StartDate
    ensures CreateDateDimension()[0].dayOfWeek == 2
    ensures CreateDateDimension()[0].dayName == "Monday"
  {
    DimensionSize();
    DateRangeShape(StartDate, EndDate);
    assert Ordinal(StartDate) == 738886;
  }

  /** The derived columns of every row. */
  lemma RowColumns(i: int)
    requires 0 <= i < |CreateDateDimension()|
    ensures var r := CreateDateDimension()[i];
      && r.dateKey == r.year * 10000 + r.month * 100 + r.fullDate.day
      && r.year == r.fullDate.year && r.month == r.fullDate.month
      && 1 <= r.month <= 12 && 1 <= r.quarter <= 4 && r.quarter == (r.month - 1) / 3 + 1
      && 1 <= r.dayOfWeek <= 7
      && (r.isWeekend <==> r.dayOfWeek == 1 || r.dayOfWeek == 7)
      && (r.isWeekend <==> r.dayName == "Saturday" || r.dayName == "Sunday")
  {
    RowDates(i);
    var r := CreateDateDimension()[i];
    DateKeyValue(r.fullDate);
    QuarterFormula(r.month);
  }
}
