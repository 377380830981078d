/**
 * Proleptic Gregorian dates as Python's `datetime.date` has them: years 1 to
 * 9999, the day ordinal (1 January of year 1 is day 1), adding whole days
 * (an overflow past 31 December 9999 is an error) and subtracting two dates.
 * The engine uses these to find the first of the month and the length of
 * the month it is in.
 */
module Calendar {
  import opened Wrappers

  const MinYear: int := 1
  const MaxYear: int := 9999

  datatype Date = Date(year: int, month: int, day: int)

  predicate IsLeap(y: int)
  {
    y % 4 == 0 && (y % 100 != 0 || y % 400 == 0)
  }

  /** The Gregorian length of month `m` of year `y`. */
  function DaysInMonth(y: int, m: int): (n: int)
    requires 1 <= m <= 12
    ensures 28 <= n <= 31
    ensures m == 2 ==> (n == 29 <==> IsLeap(y))
  {
    if m == 2 then (if IsLeap(y) then 29 else 28)
    else if m == 4 || m == 6 || m == 9 || m == 11 then 30
    else 31
  }

  /** A value Python's `date` constructor accepts. */
  predicate ValidDate(d: Date)
  {
    MinYear <= d.year <= MaxYear && 1 <= d.month <= 12 && 1 <= d.day <= DaysInMonth(d.year, d.month)
  }

  /** Date comparison `a <= b`, year first, then month, then day. */
  predicate DateLe(a: Date, b: Date)
  {
    a.year < b.year
    || (a.year == b.year && a.month < b.month)
    || (a.year == b.year && a.month == b.month && a.day <= b.day)
  }

  /** Days in the years before year `y`. */
  function DaysBeforeYear(y: int): int
    requires y >= MinYear
  {
    var y1 := y - 1;
    y1 * 365 + y1 / 4 - y1 / 100 + y1 / 400
  }

  /** Days in year `y` before the first of month `m`. */
  function DaysBeforeMonth(y: int, m: int): int
    requires 1 <= m <= 12
  {
    [0, 0, 31, 59, 90, 120, 151, 181, 212, 243, 273, 304, 334][m]
      + (if m > 2 && IsLeap(y) then 1 else 0)
  }

  /** The day number of `d`; `(a - b).days` on two dates is `Ordinal(a) - Ordinal(b)`. */
  function Ordinal(d: Date): int
    requires ValidDate(d)
  {
    DaysBeforeYear(d.year) + DaysBeforeMonth(d.year, d.month) + d.day
  }

  /** From `y - 1` to `y`, the count of multiples of `k` grows by one exactly when `k` divides `y`. */
  lemma DivStep4(y: int)
    requires y >= 1
    ensures y / 4 - (y - 1) / 4 == if y % 4 == 0 then 1 else 0
  {
  }

  lemma DivStep100(y: int)
    requires y >= 1
    ensures y / 100 - (y - 1) / 100 == if y % 100 == 0 then 1 else 0
  {
  }

  lemma DivStep400(y: int)
    requires y >= 1
    ensures y / 400 - (y - 1) / 400 == if y % 400 == 0 then 1 else 0
  {
  }

  /** A multiple of 400 is one of 100. */
  lemma Multiple400(y: int)
    requires y % 400 == 0
    ensures y % 100 == 0
  {
    var k := 4 * (y / 400);
    assert y == 100 * k;
    assert 100 * (k - y / 100) == y % 100;
  }

  /** A multiple of 100 is one of 4. */
  lemma Multiple100(y: int)
    requires y % 100 == 0
    ensures y % 4 == 0
  {
    var k := 25 * (y / 100);
    assert y == 4 * k;
    assert 4 * (k - y / 4) == y % 4;
  }

  lemma YearLength(y: int)
    requires y >= MinYear
    ensures DaysBeforeYear(y + 1) - DaysBeforeYear(y) == if IsLeap(y) then 366 else 365
  {
    var d4, d100, d400 := y / 4 - (y - 1) / 4, y / 100 - (y - 1) / 100, y / 400 - (y - 1) / 400;
    assert DaysBeforeYear(y + 1) - DaysBeforeYear(y) == 365 + d4 - d100 + d400;
    DivStep4(y);
    DivStep100(y);
    DivStep400(y);
    if y % 400 == 0 {
      Multiple400(y);
    }
    if y % 100 == 0 {
      Multiple100(y);
    }
  }

  lemma MonthLength(y: int, m: int)
    requires 1 <= m < 12
    ensures DaysBeforeMonth(y, m + 1) - DaysBeforeMonth(y, m) == DaysInMonth(y, m)
  {
  }

  /** The day after `d`, or None past the last representable date. */
  function NextDay(d: Date): (r: Option<Date>)
    requires ValidDate(d)
    ensures r.None? <==> d == Date(MaxYear, 12, 31)
    ensures r.Some? ==> ValidDate(r.value) && Ordinal(r.value) == Ordinal(d) + 1
  {
    if d.day < DaysInMonth(d.year, d.month) then
      Some(Date(d.year, d.month, d.day + 1))
    else if d.month < 12 then
      MonthLength(d.year, d.month);
      Some(Date(d.year, d.month + 1, 1))
    else if d.year < MaxYear then
      YearLength(d.year);
      Some(Date(d.year + 1, 1, 1))
    else
      None
  }

  /** `d + timedelta(days=n)`: None when Python raises OverflowError. */
  function AddDays(d: Date, n: nat): (r: Option<Date>)
    requires ValidDate(d)
    ensures r.Some? ==> ValidDate(r.value) && Ordinal(r.value) == Ordinal(d) + n
    decreases n
  {
    if n == 0 then Some(d)
    else
      match NextDay(d)
      case None => None
      case Some(d') => AddDays(d', n - 1)
  }

  /** `d.replace(day=day)`. */
  function ReplaceDay(d: Date, day: int): (r: Date)
    requires ValidDate(d) && 1 <= day <= DaysInMonth(d.year, d.month)
    ensures ValidDate(r) && r.year == d.year && r.month == d.month && r.day == day
  {
    d.(day := day)
  }

  /** The first day of the month `d` falls in: same year and month, on or before `d`. */
  function MonthStart(d: Date): (r: Date)
    requires ValidDate(d)
    ensures ValidDate(r) && r.year == d.year && r.month == d.month && r.day == 1
    ensures DateLe(r, d)
  {
    ReplaceDay(d, 1)
  }

  /**
   * `(start.replace(day=28) + timedelta(days=4)).replace(day=1) - start`,
   * in days; None when the addition overflows.
   */
  function DaysToNextMonth(start: Date): Option<int>
    requires ValidDate(start)
  {
    var next := AddDays(ReplaceDay(start, 28), 4);
    if next.None? then None else Some(Ordinal(ReplaceDay(next.value, 1)) - Ordinal(start))
  }

  /**
   * Four days after the 28th is always in the following month, on day
   * 32 minus the length of this month; only December 9999 has no following month.
   */
  lemma FourDaysAfter28(y: int, m: int)
    requires MinYear <= y <= MaxYear && 1 <= m <= 12
    ensures var d := Date(y, m, 28);
      ValidDate(d)
      && (if y == MaxYear && m == 12 then AddDays(d, 4).None?
          else if m == 12 then AddDays(d, 4) == Some(Date(y + 1, 1, 32 - DaysInMonth(y, m)))
          else AddDays(d, 4) == Some(Date(y, m + 1, 32 - DaysInMonth(y, m))))
  {
    var n := DaysInMonth(y, m);
    var d0 := Date(y, m, 28);
    var ny, nm := if m == 12 then y + 1 else y, if m == 12 then 1 else m + 1;
    if n == 28 {
      assert NextDay(d0) == Some(Date(ny, nm, 1));
      assert NextDay(Date(ny, nm, 1)) == Some(Date(ny, nm, 2));
      assert NextDay(Date(ny, nm, 2)) == Some(Date(ny, nm, 3));
      assert NextDay(Date(ny, nm, 3)) == Some(Date(ny, nm, 4));
      assert AddDays(Date(ny, nm, 3), 1) == Some(Date(ny, nm, 4));
      assert AddDays(Date(ny, nm, 2), 2) == Some(Date(ny, nm, 4));
    } else if n == 29 {
      assert NextDay(d0) == Some(Date(y, m, 29));
      assert NextDay(Date(y, m, 29)) == Some(Date(ny, nm, 1));
      assert NextDay(Date(ny, nm, 1)) == Some(Date(ny, nm, 2));
      assert NextDay(Date(ny, nm, 2)) == Some(Date(ny, nm, 3));
      assert AddDays(Date(ny, nm, 2), 1) == Some(Date(ny, nm, 3));
      assert AddDays(Date(ny, nm, 1), 2) == Some(Date(ny, nm, 3));
    } else if n == 30 {
      assert NextDay(d0) == Some(Date(y, m, 29));
      assert NextDay(Date(y, m, 29)) == Some(Date(y, m, 30));
      assert NextDay(Date(y, m, 30)) == Some(Date(ny, nm, 1));
      assert NextDay(Date(ny, nm, 1)) == Some(Date(ny, nm, 2));
      assert AddDays(Date(ny, nm, 1), 1) == Some(Date(ny, nm, 2));
      assert AddDays(Date(y, m, 30), 2) == Some(Date(ny, nm, 2));
    } else if y == MaxYear && m == 12 {
      assert NextDay(d0) == Some(Date(y, m, 29));
      assert NextDay(Date(y, m, 29)) == Some(Date(y, m, 30));
      assert NextDay(Date(y, m, 30)) == Some(Date(y, m, 31));
      assert NextDay(Date(y, m, 31)).None?;
      assert AddDays(Date(y, m, 31), 1).None?;
      assert AddDays(Date(y, m, 30), 2).None?;
    } else {
      assert NextDay(d0) == Some(Date(y, m, 29));
      assert NextDay(Date(y, m, 29)) == Some(Date(y, m, 30));
      assert NextDay(Date(y, m, 30)) == Some(Date(y, m, 31));
      assert NextDay(Date(y, m, 31)) == Some(Date(ny, nm, 1));
      assert AddDays(Date(y, m, 31), 1) == Some(Date(ny, nm, 1));
      assert AddDays(Date(y, m, 30), 2) == Some(Date(ny, nm, 1));
    }
  }

  /**
   * The source's days-in-month formula gives the Gregorian length of the
   * month minus the days already gone before `start` (so exactly the length
   * of the month when `start` is its first day), except in December 9999,
   * where the addition overflows.
   */
  lemma {:induction false} DaysToNextMonthIsGregorian(start: Date)
    requires ValidDate(start)
    ensures DaysToNextMonth(start) ==
      if start.year == MaxYear && start.month == 12 then None
      else Some(DaysInMonth(start.year, start.month) - start.day + 1)
  {
    var y, m := start.year, start.month;
    var d28 := ReplaceDay(start, 28);
    assert d28 == Date(y, m, 28);
    FourDaysAfter28(y, m);
    if y == MaxYear && m == 12 {
      assert AddDays(d28, 4).None?;
    } else if m == 12 {
      var next := Date(y + 1, 1, 32 - DaysInMonth(y, m));
      assert AddDays(d28, 4) == Some(next);
      YearLength(y);
      assert Ordinal(ReplaceDay(next, 1)) - Ordinal(start) == DaysInMonth(y, m) - start.day + 1;
    } else {
      var next := Date(y, m + 1, 32 - DaysInMonth(y, m));
      assert AddDays(d28, 4) == Some(next);
      MonthLength(y, m);
      assert Ordinal(ReplaceDay(next, 1)) - Ordinal(start) == DaysInMonth(y, m) - start.day + 1;
    }
  }
}
