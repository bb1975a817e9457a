/** Calendar dates as a JavaScript `Date` holds them at midnight UTC, the month
    arithmetic of `setMonth`, and the `YYYY-MM-DD` text that a date input produces
    and that `toISOString().split('T')[0]` returns. */
module Calendar {
  import opened Wrappers
  import opened JsNumber

  /** A proleptic Gregorian date; `month` runs from 1 to 12. */
  datatype Date = Date(year: int, month: int, day: int)

  predicate IsLeapYear(y: int) {
    y % 4 == 0 && (y % 100 != 0 || y % 400 == 0)
  }

  function DaysInMonth(y: int, m: int): (n: int)
    requires 1 <= m <= 12
    ensures 28 <= n <= 31
    ensures n == 29 <==> m == 2 && IsLeapYear(y)
  {
    if m == 2 then (if IsLeapYear(y) then 29 else 28)
    else if m == 4 || m == 6 || m == 9 || m == 11 then 30
    else 31
  }

  predicate ValidDate(d: Date) {
    1 <= d.month <= 12 && 1 <= d.day <= DaysInMonth(d.year, d.month)
  }

  /** The number of whole months from January of year 0 to the month of `d`. */
  function MonthIndex(d: Date): int {
    d.year * 12 + d.month - 1
  }

  /** The length of the month with the given month index. */
  function LengthOfMonthAt(index: int): int {
    DaysInMonth(index / 12, index % 12 + 1)
  }

  /** `setMonth(getMonth() + k)`: move `k` months on and keep the day of the month; a day
      the target month does not have runs over into the following month, as `MakeDay`
      does in ECMAScript. */
  function AddMonths(d: Date, k: int): (r: Date)
    requires ValidDate(d)
    ensures ValidDate(r)
    ensures MonthIndex(r) == MonthIndex(d) + k ==> r.day == d.day
    ensures MonthIndex(r) == MonthIndex(d) + k + 1 ==> r.day == d.day - LengthOfMonthAt(MonthIndex(d) + k)
    ensures MonthIndex(r) == MonthIndex(d) + k || MonthIndex(r) == MonthIndex(d) + k + 1
    ensures MonthIndex(r) == MonthIndex(d) + k <==> d.day <= LengthOfMonthAt(MonthIndex(d) + k)
  {
    var target := d.month - 1 + k;
    var y := d.year + target / 12;
    var m := target % 12 + 1;
    assert MonthIndex(d) + k == y * 12 + m - 1;
    assert (MonthIndex(d) + k) / 12 == y && (MonthIndex(d) + k) % 12 == m - 1;
    var length := DaysInMonth(y, m);
    if d.day <= length then Date(y, m, d.day)
    else if m == 12 then Date(y + 1, 1, d.day - length)
    else Date(y, m + 1, d.day - length)
  }

  /** Adding no months changes nothing. */
  lemma AddNoMonths(d: Date)
    requires ValidDate(d)
    ensures AddMonths(d, 0) == d
  {
  }

  /** Twelve months on is the same day a year later, except that 29 February
      becomes 1 March. */
  lemma AddTwelveMonths(d: Date)
    requires ValidDate(d)
    ensures AddMonths(d, 12) == if d.month == 2 && d.day == 29 then Date(d.year + 1, 3, 1)
                                else Date(d.year + 1, d.month, d.day)
  {
    var r := AddMonths(d, 12);
    assert MonthIndex(d) + 12 == (d.year + 1) * 12 + d.month - 1;
    assert LengthOfMonthAt(MonthIndex(d) + 12) == DaysInMonth(d.year + 1, d.month);
    if d.month == 2 && d.day == 29 {
      assert IsLeapYear(d.year) && !IsLeapYear(d.year + 1);
    }
  }

  /** The `YYYY-MM-DD` form a date input holds, read as `new Date(s)` reads it; None is
      an invalid date. */
  function ParseIsoDate(s: string): (r: Option<Date>)
    ensures r.Some? ==> ValidDate(r.value) && r.value.year >= 0
  {
    if |s| == 10 && AllDigits(s[..4]) && s[4] == '-' && AllDigits(s[5..7]) && s[7] == '-'
       && AllDigits(s[8..])
    then
      var d := Date(DigitsValue(s[..4]), DigitsValue(s[5..7]), DigitsValue(s[8..]));
      if ValidDate(d) then Some(d) else None
    else None
  }

  /** `toISOString().split('T')[0]`: a four-digit year between 0 and 9999, a signed
      six-digit year outside it, then the two-digit month and day. */
  function FormatIsoDate(d: Date): string
    requires ValidDate(d)
  {
    var year :=
      if 0 <= d.year <= 9999 then Pad(d.year, 4)
      else if d.year < 0 then "-" + Pad(-d.year, 6)
      else "+" + Pad(d.year, 6);
    year + "-" + Pad(d.month, 2) + "-" + Pad(d.day, 2)
  }

  /** A date written out with a four-digit year reads back as the same date. */
  lemma IsoRoundTrip(d: Date)
    requires ValidDate(d) && 0 <= d.year <= 9999
    ensures ParseIsoDate(FormatIsoDate(d)) == Some(d)
  {
    assert Pow10(2) == 100;
    assert Pow10(4) == 10000 by {
      assert Pow10(3) == 1000;
    }
    PadWidth(d.year, 4);
    PadWidth(d.month, 2);
    PadWidth(d.day, 2);
    var y, m, dd := Pad(d.year, 4), Pad(d.month, 2), Pad(d.day, 2);
    var s := FormatIsoDate(d);
    assert s == y + "-" + m + "-" + dd;
    assert s[..4] == y;
    assert s[5..7] == m;
    assert s[8..] == dd;
  }

  /** One month after 31 January 2024 is 2 March 2024: February of that leap year has 29
      days, and the two days past them run over. */
  lemma LastOfJanuaryPlusOneMonth()
    ensures AddMonths(Date(2024, 1, 31), 1) == Date(2024, 3, 2)
  {
    assert IsLeapYear(2024);
    assert LengthOfMonthAt(MonthIndex(Date(2024, 1, 31)) + 1) == DaysInMonth(2024, 2);
  }
}
