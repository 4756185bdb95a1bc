/** Calendar dates as Python's `datetime` handles them: proleptic Gregorian, years 1 to 9999, one-day
    steps that raise OverflowError outside that range, and `strftime("%Y-%m-%d")`. */
module Dates {
  import opened Wrappers
  import opened PyText

  const MinYear := 1
  const MaxYear := 9999

  /** The message of the OverflowError raised when `datetime + timedelta` leaves years 1 to 9999. */
  const OutOfRange := "date value out of range"

  datatype Date = Date(year: int, month: int, day: int)

  predicate IsLeapYear(y: int) {
    y % 4 == 0 && (y % 100 != 0 || y % 400 == 0)
  }

  function DaysInMonth(y: int, m: int): int
    requires 1 <= m <= 12
  {
    if m == 2 then (if IsLeapYear(y) then 29 else 28)
    else if m == 4 || m == 6 || m == 9 || m == 11 then 30
    else 31
  }

  predicate Valid(d: Date) {
    MinYear <= d.year <= MaxYear && 1 <= d.month <= 12 && 1 <= d.day <= DaysInMonth(d.year, d.month)
  }

  function DaysInYear(y: int): int {
    if IsLeapYear(y) then 366 else 365
  }

  /** Days in the years before `y`, counting from year 1. */
  function DaysBeforeYear(y: int): int
    requires MinYear <= y
    decreases y
  {
    if y == MinYear then 0 else DaysBeforeYear(y - 1) + DaysInYear(y - 1)
  }

  /** Days in the months of year `y` before month `m`. */
  function DaysBeforeMonth(y: int, m: int): int
    requires 1 <= m <= 12
  {
    if m == 1 then 0 else DaysBeforeMonth(y, m - 1) + DaysInMonth(y, m - 1)
  }

  /** `date.toordinal()`: 0001-01-01 is day 1. An independent account of "one day later". */
  function DayNumber(d: Date): int
    requires Valid(d)
  {
    DaysBeforeYear(d.year) + DaysBeforeMonth(d.year, d.month) + d.day
  }

  /** `d + timedelta(days=1)`; `None` where Python raises OverflowError. */
  function NextDay(d: Date): (r: Option<Date>)
    requires Valid(d)
    ensures r.Some? ==> Valid(r.value)
    ensures r.None? <==> d == Date(MaxYear, 12, 31)
  {
    if d.day < DaysInMonth(d.year, d.month) then Some(Date(d.year, d.month, d.day + 1))
    else if d.month < 12 then Some(Date(d.year, d.month + 1, 1))
    else if d.year < MaxYear then Some(Date(d.year + 1, 1, 1))
    else None
  }

  /** `d - timedelta(days=1)`; `None` where Python raises OverflowError. */
  function PrevDay(d: Date): (r: Option<Date>)
    requires Valid(d)
    ensures r.Some? ==> Valid(r.value)
    ensures r.None? <==> d == Date(MinYear, 1, 1)
  {
    if d.day > 1 then Some(Date(d.year, d.month, d.day - 1))
    else if d.month > 1 then Some(Date(d.year, d.month - 1, DaysInMonth(d.year, d.month - 1)))
    else if d.year > MinYear then Some(Date(d.year - 1, 12, 31))
    else None
  }

  lemma DaysBeforeMonthDecember(y: int)
    ensures DaysBeforeMonth(y, 12) + 31 == DaysInYear(y)
  {
    var leap := if IsLeapYear(y) then 1 else 0;
    assert DaysBeforeMonth(y, 2) == 31;
    assert DaysBeforeMonth(y, 3) == 59 + leap;
    assert DaysBeforeMonth(y, 4) == 90 + leap;
    assert DaysBeforeMonth(y, 5) == 120 + leap;
    assert DaysBeforeMonth(y, 6) == 151 + leap;
    assert DaysBeforeMonth(y, 7) == 181 + leap;
    assert DaysBeforeMonth(y, 8) == 212 + leap;
    assert DaysBeforeMonth(y, 9) == 243 + leap;
    assert DaysBeforeMonth(y, 10) == 273 + leap;
    assert DaysBeforeMonth(y, 11) == 304 + leap;
    assert DaysBeforeMonth(y, 12) == 334 + leap;
  }

  /** The next day is the day whose ordinal is one larger. */
  lemma NextDayIsOneLater(d: Date)
    requires Valid(d) && NextDay(d).Some?
    ensures DayNumber(NextDay(d).value) == DayNumber(d) + 1
  {
    if d.day == DaysInMonth(d.year, d.month) && d.month == 12 {
      DaysBeforeMonthDecember(d.year);
    }
  }

  /** The previous day is the day whose ordinal is one smaller. */
  lemma PrevDayIsOneEarlier(d: Date)
    requires Valid(d) && PrevDay(d).Some?
    ensures DayNumber(PrevDay(d).value) == DayNumber(d) - 1
  {
    if d.day == 1 && d.month == 1 {
      DaysBeforeMonthDecember(d.year - 1);
    }
  }

  /** Going forward a day and back again returns to the same date. */
  lemma PrevOfNext(d: Date)
    requires Valid(d) && NextDay(d).Some?
    ensures PrevDay(NextDay(d).value) == Some(d)
  {
  }

  /** Going back a day and forward again returns to the same date. */
  lemma NextOfPrev(d: Date)
    requires Valid(d) && PrevDay(d).Some?
    ensures NextDay(PrevDay(d).value) == Some(d)
  {
  }

  /** `d.strftime("%Y-%m-%d")`, the ISO 8601 calendar date. */
  function Iso(d: Date): string
    requires Valid(d)
  {
    PadNat(d.year, 4) + "-" + PadNat(d.month, 2) + "-" + PadNat(d.day, 2)
  }

  /** Reads a `YYYY-MM-DD` text back into a valid date, if it is one. */
  function ParseIso(s: string): Option<Date> {
    if |s| == 10 && s[4] == '-' && s[7] == '-'
       && AllDigits(s[..4]) && AllDigits(s[5..7]) && AllDigits(s[8..])
    then
      var d := Date(ParseNat(s[..4]), ParseNat(s[5..7]), ParseNat(s[8..]));
      if Valid(d) then Some(d) else None
    else None
  }

  lemma PadNatExact(n: nat, width: nat)
    requires 1 <= width && n < Pow10(width)
    ensures |PadNat(n, width)| == width
  {
    NatToStringShort(n, width);
  }

  /** The formatted date is exactly ten characters and reads back as the same date. */
  lemma IsoRoundTrip(d: Date)
    requires Valid(d)
    ensures |Iso(d)| == 10
    ensures ParseIso(Iso(d)) == Some(d)
  {
    var y, m, dd := PadNat(d.year, 4), PadNat(d.month, 2), PadNat(d.day, 2);
    assert Pow10(2) == 100 && Pow10(4) == 10000;
    PadNatExact(d.year, 4);
    PadNatExact(d.month, 2);
    PadNatExact(d.day, 2);
    var s := Iso(d);
    assert s[..4] == y;
    assert s[5..7] == m;
    assert s[8..] == dd;
    ParsePadNat(d.year, 4);
    ParsePadNat(d.month, 2);
    ParsePadNat(d.day, 2);
  }
}
