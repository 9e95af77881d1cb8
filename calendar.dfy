/**
 * Proleptic Gregorian dates as Python's `datetime.date` handles them: the day number of a date
 * (`toordinal`), the strict `%Y-%m-%d` parse, and the `%B %d, %Y` rendering.
 */
module Calendar {
  import opened Wrappers
  import opened Text

  datatype Date = Date(year: int, month: int, day: int)

  predicate IsLeap(y: int) { y % 4 == 0 && (y % 100 != 0 || y % 400 == 0) }

  function DaysInMonth(y: int, m: int): (n: int)
    requires 1 <= m <= 12
    ensures 28 <= n <= 31
    ensures m == 2 ==> (n == 29 <==> IsLeap(y))
  {
    if m == 2 then (if IsLeap(y) then 29 else 28)
    else if m == 4 || m == 6 || m == 9 || m == 11 then 30
    else 31
  }

  function DaysInYear(y: int): int { if IsLeap(y) then 366 else 365 }

  /** `date.min` to `date.max`: years 1 to 9999, and the day must exist in its month. */
  predicate ValidDate(d: Date) {
    && 1 <= d.year <= 9999
    && 1 <= d.month <= 12
    && 1 <= d.day <= DaysInMonth(d.year, d.month)
  }

  /** Days in the months before month m of year y (the table of `datetime._days_before_month`). */
  function DaysBeforeMonth(y: int, m: int): int
    requires 1 <= m <= 12
  {
    [0, 31, 59, 90, 120, 151, 181, 212, 243, 273, 304, 334][m - 1] + (if m > 2 && IsLeap(y) then 1 else 0)
  }

  /** The table is the running sum of the month lengths. */
  lemma DaysBeforeMonthStep(y: int, m: int)
    requires 1 <= m < 12
    ensures DaysBeforeMonth(y, m + 1) == DaysBeforeMonth(y, m) + DaysInMonth(y, m)
  {
  }

  function DaysBeforeYear(y: int): int
    requires y >= 1
  {
    var p := y - 1;
    365 * p + p / 4 - p / 100 + p / 400
  }

  /** `date.toordinal()`: 1 for January 1 of year 1, one more for each following day. */
  function Ordinal(d: Date): int
    requires ValidDate(d)
  {
    DaysBeforeYear(d.year) + DaysBeforeMonth(d.year, d.month) + d.day
  }

  /** `(date - today).days` */
  function DaysBetween(date: Date, today: Date): int
    requires ValidDate(date) && ValidDate(today)
  {
    Ordinal(date) - Ordinal(today)
  }

  // ---------------------------------------------------------------------------------------------
  // Day numbers
  // ---------------------------------------------------------------------------------------------

  lemma DivStep(y: nat, k: nat)
    requires y >= 1 && k > 0
    ensures y / k - (y - 1) / k == if y % k == 0 then 1 else 0
  {
    var q, r := (y - 1) / k, (y - 1) % k;
    assert y == q * k + (r + 1);
    if r + 1 < k {
      UniqueDivMod(y, k, q, r + 1);
    } else {
      assert y == (q + 1) * k + 0;
      UniqueDivMod(y, k, q + 1, 0);
    }
  }

  /** Each year adds its own length to the day count. */
  lemma DaysBeforeYearStep(y: int)
    requires y >= 1
    ensures DaysBeforeYear(y + 1) == DaysBeforeYear(y) + DaysInYear(y)
  {
    DivStep(y, 4);
    DivStep(y, 100);
    DivStep(y, 400);
    if y % 400 == 0 {
      assert y % 100 == 0 && y % 4 == 0 by {
        var q := y / 400;
        assert y == (4 * q) * 100 + 0 && y == (100 * q) * 4 + 0;
        UniqueDivMod(y, 100, 4 * q, 0);
        UniqueDivMod(y, 4, 100 * q, 0);
      }
    } else if y % 100 == 0 {
      assert y % 4 == 0 by {
        var q := y / 100;
        assert y == (25 * q) * 4 + 0;
        UniqueDivMod(y, 4, 25 * q, 0);
      }
    }
  }

  lemma {:induction false} DaysBeforeYearMonotone(y1: int, y2: int)
    requires 1 <= y1 < y2
    ensures DaysBeforeYear(y1) + DaysInYear(y1) <= DaysBeforeYear(y2)
    decreases y2 - y1
  {
    DaysBeforeYearStep(y1);
    if y1 + 1 < y2 {
      DaysBeforeYearMonotone(y1 + 1, y2);
    }
  }

  lemma {:induction false} DaysBeforeMonthMonotone(y: int, m1: int, m2: int)
    requires 1 <= m1 < m2 <= 12
    ensures DaysBeforeMonth(y, m1) + DaysInMonth(y, m1) <= DaysBeforeMonth(y, m2)
    decreases m2 - m1
  {
    DaysBeforeMonthStep(y, m1);
    if m1 + 1 < m2 {
      DaysBeforeMonthMonotone(y, m1 + 1, m2);
    }
  }

  /** The twelve months fill the year exactly. */
  lemma MonthsFillYear(y: int)
    ensures DaysBeforeMonth(y, 12) + DaysInMonth(y, 12) == DaysInYear(y)
  {
  }

  /** The day after a date that is not `date.max`. */
  function NextDay(d: Date): (n: Date)
    requires ValidDate(d) && d != Date(9999, 12, 31)
    ensures ValidDate(n)
  {
    if d.day < DaysInMonth(d.year, d.month) then Date(d.year, d.month, d.day + 1)
    else if d.month < 12 then Date(d.year, d.month + 1, 1)
    else Date(d.year + 1, 1, 1)
  }

  /** Consecutive days have consecutive day numbers. */
  lemma NextDayOrdinal(d: Date)
    requires ValidDate(d) && d != Date(9999, 12, 31)
    ensures Ordinal(NextDay(d)) == Ordinal(d) + 1
  {
    if d.day == DaysInMonth(d.year, d.month) && d.month == 12 {
      DaysBeforeYearStep(d.year);
      MonthsFillYear(d.year);
    }
  }

  /** Calendar order: earlier year, or same year and earlier month, or same month and earlier day. */
  predicate Precedes(a: Date, b: Date) {
    a.year < b.year || (a.year == b.year && (a.month < b.month || (a.month == b.month && a.day < b.day)))
  }

  lemma OrdinalWithinYear(d: Date)
    requires ValidDate(d)
    ensures DaysBeforeYear(d.year) < Ordinal(d) <= DaysBeforeYear(d.year) + DaysInYear(d.year)
  {
    if d.month < 12 {
      DaysBeforeMonthMonotone(d.year, d.month, 12);
    }
    MonthsFillYear(d.year);
  }

  /** Day numbers follow calendar order, so distinct valid dates have distinct day numbers. */
  lemma OrdinalOrder(a: Date, b: Date)
    requires ValidDate(a) && ValidDate(b)
    ensures Precedes(a, b) <==> Ordinal(a) < Ordinal(b)
    ensures Ordinal(a) == Ordinal(b) <==> a == b
  {
    forall x: Date, y: Date | ValidDate(x) && ValidDate(y) && Precedes(x, y) ensures Ordinal(x) < Ordinal(y) {
      if x.year < y.year {
        OrdinalWithinYear(x);
        OrdinalWithinYear(y);
        DaysBeforeYearMonotone(x.year, y.year);
      } else if x.month < y.month {
        DaysBeforeMonthMonotone(x.year, x.month, y.month);
      }
    }
  }

  /** `daysLeft` is zero for today, negative exactly for past dates, and grows by one per day. */
  lemma DaysBetweenProperties(date: Date, today: Date)
    requires ValidDate(date) && ValidDate(today)
    ensures DaysBetween(today, today) == 0
    ensures DaysBetween(date, today) < 0 <==> Precedes(date, today)
    ensures DaysBetween(date, today) == 0 <==> date == today
    ensures DaysBetween(date, today) == -DaysBetween(today, date)
    ensures date != Date(9999, 12, 31) ==> DaysBetween(NextDay(date), today) == DaysBetween(date, today) + 1
  {
    OrdinalOrder(date, today);
    if date != Date(9999, 12, 31) {
      NextDayOrdinal(date);
    }
  }

  // ---------------------------------------------------------------------------------------------
  // `%Y-%m-%d`
  // ---------------------------------------------------------------------------------------------

  /** Four digits, a dash, two digits, a dash, two digits. */
  predicate IsoShaped(s: string) {
    && |s| == 10 && s[4] == '-' && s[7] == '-'
    && AllDigits(s[..4]) && AllDigits(s[5..7]) && AllDigits(s[8..])
  }

  function IsoFields(s: string): Date
    requires IsoShaped(s)
  {
    Date(DigitsValue(s[..4]), DigitsValue(s[5..7]), DigitsValue(s[8..]))
  }

  /** The three fields digit by digit, for reading literal dates. */
  lemma IsoFieldsDigits(s: string)
    requires IsoShaped(s)
    ensures IsoFields(s) == Date(
      1000 * DigitValue(s[0]) + 100 * DigitValue(s[1]) + 10 * DigitValue(s[2]) + DigitValue(s[3]),
      10 * DigitValue(s[5]) + DigitValue(s[6]),
      10 * DigitValue(s[8]) + DigitValue(s[9]))
  {
    assert forall i | 0 <= i < 4 :: s[..4][i] == s[i];
    assert forall i | 5 <= i < 7 :: s[5..7][i - 5] == s[i];
    assert forall i | 8 <= i < 10 :: s[8..][i - 8] == s[i];
    assert s[..4][..3] == s[..3] && s[..3][..2] == s[..2] && s[..2][..1] == s[..1] && s[..1][..0] == [];
    assert DigitsValue(s[..1]) == DigitValue(s[0]);
    assert DigitsValue(s[..2]) == 10 * DigitValue(s[0]) + DigitValue(s[1]);
    assert DigitsValue(s[..3]) == 100 * DigitValue(s[0]) + 10 * DigitValue(s[1]) + DigitValue(s[2]);
    assert s[5..7][..1] == s[5..6] && s[5..6][..0] == [];
    assert DigitsValue(s[5..6]) == DigitValue(s[5]);
    assert s[8..][..1] == s[8..9] && s[8..9][..0] == [];
    assert DigitsValue(s[8..9]) == DigitValue(s[8]);
  }

  function FormatIso(d: Date): string
    requires ValidDate(d)
  {
    FixedDigits(d.year, 4) + "-" + FixedDigits(d.month, 2) + "-" + FixedDigits(d.day, 2)
  }

  /** `datetime.strptime(s, "%Y-%m-%d").date()` on the zero-padded form; None where strptime raises. */
  function ParseIsoDate(s: string): (r: Option<Date>)
    ensures r.Some? <==> IsoShaped(s) && ValidDate(IsoFields(s))
    ensures r.Some? ==> ValidDate(r.value) && FormatIso(r.value) == s
  {
    if IsoShaped(s) && ValidDate(IsoFields(s)) then
      FormatOfParsed(s);
      Some(IsoFields(s))
    else None
  }

  lemma ParsedFields(s: string)
    requires IsoShaped(s) && ValidDate(IsoFields(s))
    ensures ParseIsoDate(s) == Some(IsoFields(s))
  {
  }

  lemma FormatOfParsed(s: string)
    requires IsoShaped(s) && ValidDate(IsoFields(s))
    ensures FormatIso(IsoFields(s)) == s
  {
    FixedDigitsOfDigits(s[..4]);
    FixedDigitsOfDigits(s[5..7]);
    FixedDigitsOfDigits(s[8..]);
    assert s == s[..4] + "-" + s[5..7] + "-" + s[8..];
  }

  lemma FixedDigitsExact(n: nat, w: nat)
    requires n < Pow10(w)
    ensures DigitsValue(FixedDigits(n, w)) == n
  {
    UniqueDivMod(n, Pow10(w), 0, n);
  }

  /** Every valid date is read back from its own `%Y-%m-%d` rendering. */
  lemma ParseFormatIso(d: Date)
    requires ValidDate(d)
    ensures ParseIsoDate(FormatIso(d)) == Some(d)
  {
    var s := FormatIso(d);
    assert s[..4] == FixedDigits(d.year, 4);
    assert s[5..7] == FixedDigits(d.month, 2);
    assert s[8..] == FixedDigits(d.day, 2);
    assert Pow10(4) == 10000 && Pow10(2) == 100;
    FixedDigitsExact(d.year, 4);
    FixedDigitsExact(d.month, 2);
    FixedDigitsExact(d.day, 2);
  }

  /** Dates that do not exist are rejected, as strptime rejects them. */
  lemma ImpossibleDatesRejected()
    ensures ParseIsoDate("2023-02-29") == None
    ensures ParseIsoDate("2024-13-01") == None
    ensures ParseIsoDate("2024-04-31") == None
    ensures ParseIsoDate("0000-01-01") == None
    ensures ParseIsoDate("2024-02-29").Some?
  {
    IsoFieldsDigits("2023-02-29");
    assert IsoFields("2023-02-29") == Date(2023, 2, 29);
    IsoFieldsDigits("2024-13-01");
    assert IsoFields("2024-13-01") == Date(2024, 13, 1);
    IsoFieldsDigits("2024-04-31");
    assert IsoFields("2024-04-31") == Date(2024, 4, 31);
    IsoFieldsDigits("0000-01-01");
    assert IsoFields("0000-01-01") == Date(0, 1, 1);
    IsoFieldsDigits("2024-02-29");
    assert IsoFields("2024-02-29") == Date(2024, 2, 29);
  }

  // ---------------------------------------------------------------------------------------------
  // `%B %d, %Y`
  // ---------------------------------------------------------------------------------------------

  function MonthName(m: int): string
    requires 1 <= m <= 12
  {
    ["January", "February", "March", "April", "May", "June", "July", "August",
     "September", "October", "November", "December"][m - 1]
  }

  function FormatLong(d: Date): string
    requires ValidDate(d)
  {
    MonthName(d.month) + " " + FixedDigits(d.day, 2) + ", " + FixedDigits(d.year, 4)
  }

  /** The long form carries the day and year digits exactly as they were written in the input. */
  lemma FormatLongOfParsed(s: string)
    requires ParseIsoDate(s).Some?
    ensures var d := ParseIsoDate(s).value;
      FormatLong(d) == MonthName(d.month) + " " + s[8..] + ", " + s[..4]
  {
    FixedDigitsOfDigits(s[..4]);
    FixedDigitsOfDigits(s[8..]);
  }

  /** The worked example: a festival on 2025-01-26 seen on 2025-01-01. */
  lemma WorkedExampleParse()
    ensures ParseIsoDate("2025-01-26") == Some(Date(2025, 1, 26))
  {
    var s := "2025-01-26";
    assert IsoShaped(s);
    IsoFieldsDigits(s);
    assert IsoFields(s) == Date(2025, 1, 26);
    ParsedFields(s);
  }

  lemma WorkedExampleDays()
    ensures DaysBetween(Date(2025, 1, 26), Date(2025, 1, 1)) == 25
  {
  }
}
