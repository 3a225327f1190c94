/** Calendar dates as Python's `datetime.date` holds them, and the ISO 8601
    calendar date in extended format, `YYYY-MM-DD` (ISO 8601:2004 section
    4.1.2.2), that `str(date)` writes. */
module IsoDate {
  import opened Results
  import opened Decimal

  datatype Date = Date(year: int, month: int, day: int)

  predicate IsLeapYear(y: int)
  {
    y % 4 == 0 && (y % 100 != 0 || y % 400 == 0)
  }

  function DaysInMonth(y: int, m: int): int
    requires 1 <= m <= 12
  {
    if m == 2 then (if IsLeapYear(y) then 29 else 28)
    else if m == 4 || m == 6 || m == 9 || m == 11 then 30
    else 31
  }

  /** The dates `datetime.date` can hold: years 1 to 9999 of the proleptic
      Gregorian calendar. */
  predicate Valid(d: Date)
  {
    1 <= d.year <= 9999 && 1 <= d.month <= 12 && 1 <= d.day <= DaysInMonth(d.year, d.month)
  }

  type CalendarDate = d: Date | Valid(d) witness Date(1, 1, 1)

  /** `str(d)`, i.e. `'%04d-%02d-%02d' % (d.year, d.month, d.day)`. */
  function IsoFormat(d: CalendarDate): (s: string)
    ensures |s| == 10 && s[4] == '-' && s[7] == '-'
  {
    Padded(d.year, 4) + "-" + Padded(d.month, 2) + "-" + Padded(d.day, 2)
  }

  /** Reads a `YYYY-MM-DD` string back into a date; anything else, including
      a well-shaped string naming no real date, gives None. */
  function ParseIso(s: string): (r: Option<CalendarDate>)
    ensures r.Some? ==> |s| == 10 && s[4] == '-' && s[7] == '-'
  {
    if |s| == 10 && s[4] == '-' && s[7] == '-' &&
       AllDigits(s[..4]) && AllDigits(s[5..7]) && AllDigits(s[8..])
    then
      var d := Date(DigitsValue(s[..4]), DigitsValue(s[5..7]), DigitsValue(s[8..]));
      if Valid(d) then Some(d) else None
    else None
  }

  /** Reading back what str() writes gives the same date. */
  lemma IsoRoundTrip(d: CalendarDate)
    ensures ParseIso(IsoFormat(d)) == Some(d)
  {
    var y, m, dd := Padded(d.year, 4), Padded(d.month, 2), Padded(d.day, 2);
    var s := IsoFormat(d);
    assert s == y + "-" + m + "-" + dd;
    assert s[..4] == y;
    assert s[5..7] == m;
    assert s[8..] == dd;
  }

  /** Distinct dates have distinct renderings, so comparing rendered strings
      compares dates. */
  lemma IsoInjective(d1: CalendarDate, d2: CalendarDate)
    requires IsoFormat(d1) == IsoFormat(d2)
    ensures d1 == d2
  {
    IsoRoundTrip(d1);
    IsoRoundTrip(d2);
  }

  /** A string that is not a real date, such as month 17, is never what
      str() writes for a date. */
  lemma NoDateRendersAs(s: string, d: CalendarDate)
    requires ParseIso(s) == None
    ensures IsoFormat(d) != s
  {
    IsoRoundTrip(d);
  }

  /** The month and the day are zero-padded to two digits. */
  lemma FormatExample()
    ensures IsoFormat(Date(2017, 2, 16)) == "2017-02-16"
  {
  }

  lemma Month17IsNoDate()
    ensures ParseIso("2016-17-02") == None
  {
    var s := "2016-17-02";
    assert s[5..7] == "17";
    assert DigitsValue("17") == 17 by {
      assert "17"[..1] == "1";
    }
  }
}
