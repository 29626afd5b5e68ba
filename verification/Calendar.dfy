/** The proleptic Gregorian calendar as a count of days, and ISO 8601 weeks. */
module Calendar {

  predicate IsLeap(y: int) {
    y % 4 == 0 && (y % 100 != 0 || y % 400 == 0)
  }

  function DaysInMonth(y: int, m: int): nat
    requires 1 <= m <= 12
  {
    if m == 2 then (if IsLeap(y) then 29 else 28)
    else if m == 4 || m == 6 || m == 9 || m == 11 then 30
    else 31
  }

  predicate IsDate(y: int, m: int, d: int) {
    1 <= m <= 12 && 1 <= d <= DaysInMonth(y, m)
  }

  /** Days from the start of year 0 to the start of year `y`. */
  function YearStart(y: int): int {
    365 * y + (y - 1) / 4 - (y - 1) / 100 + (y - 1) / 400 + 1
  }

  function MonthStart(y: int, m: int): nat
    requires 1 <= m <= 13
  {
    if m == 1 then 0 else MonthStart(y, m - 1) + DaysInMonth(y, m - 1)
  }

  function DayNumber(y: int, m: int, d: int): int
    requires IsDate(y, m, d)
  {
    YearStart(y) + MonthStart(y, m) + d - 1
  }

  lemma FourthYears(y: int)
    ensures y / 4 - (y - 1) / 4 == if y % 4 == 0 then 1 else 0
  {
  }

  lemma Centuries(y: int)
    ensures y / 100 - (y - 1) / 100 == if y % 100 == 0 then 1 else 0
    ensures y % 100 == 0 ==> y % 4 == 0
  {
    assert y == 100 * (y / 100) + y % 100;
    assert y % 100 == 0 ==> y == 4 * (25 * (y / 100));
  }

  lemma FourthCenturies(y: int)
    ensures y / 400 - (y - 1) / 400 == if y % 400 == 0 then 1 else 0
    ensures y % 400 == 0 ==> y % 100 == 0
  {
    assert y == 400 * (y / 400) + y % 400;
    assert y % 400 == 0 ==> y == 100 * (4 * (y / 400));
  }

  lemma YearLength(y: int)
    ensures YearStart(y + 1) - YearStart(y) == if IsLeap(y) then 366 else 365
  {
    FourthYears(y);
    Centuries(y);
    FourthCenturies(y);
  }

  lemma MonthsFillYear(y: int)
    ensures MonthStart(y, 13) == if IsLeap(y) then 366 else 365
  {
    assert MonthStart(y, 2) == 31;
    assert MonthStart(y, 4) == 31 + DaysInMonth(y, 2) + 31;
    assert MonthStart(y, 6) == MonthStart(y, 4) + 61;
    assert MonthStart(y, 8) == MonthStart(y, 6) + 61;
    assert MonthStart(y, 10) == MonthStart(y, 8) + 61;
    assert MonthStart(y, 12) == MonthStart(y, 10) + 61;
  }

  lemma {:induction false} MonthsGrow(y: int, m: int, k: int)
    requires 1 <= m <= k <= 13
    ensures MonthStart(y, m) <= MonthStart(y, k)
    decreases k
  {
    if m < k {
      MonthsGrow(y, m, k - 1);
    }
  }

  /** A date lies in its year. */
  lemma DateInYear(y: int, m: int, d: int)
    requires IsDate(y, m, d)
    ensures YearStart(y) <= DayNumber(y, m, d) < YearStart(y + 1)
  {
    YearLength(y);
    MonthsFillYear(y);
    MonthsGrow(y, m + 1, 13);
  }

  /** From March on, month starts follow the 153-day pattern of five months. */
  lemma MonthStartClosedForm(y: int, m: int)
    requires 1 <= m <= 12
    ensures MonthStart(y, m) ==
      if m <= 2 then 31 * (m - 1) else 59 + (153 * (m - 3) + 2) / 5 + if IsLeap(y) then 1 else 0
  {
    assert MonthStart(y, 2) == 31 && MonthStart(y, 3) == 31 + DaysInMonth(y, 2);
    assert MonthStart(y, 5) == MonthStart(y, 3) + 61;
    assert MonthStart(y, 7) == MonthStart(y, 5) + 61;
    assert MonthStart(y, 9) == MonthStart(y, 7) + 62;
    assert MonthStart(y, 11) == MonthStart(y, 9) + 61;
    assert MonthStart(y, 12) == MonthStart(y, 11) + 30;
  }

  // ----- weeks -----

  /** Days since Monday; day 0 is a Saturday. */
  function Weekday(n: int): nat {
    (n + 5) % 7
  }

  function MondayOf(n: int): int {
    n - Weekday(n)
  }

  /** Week 1 of a year is the week that holds its 4 January. */
  function FirstMonday(y: int): int {
    MondayOf(YearStart(y) + 3)
  }

  function WeeksIn(y: int): int {
    (FirstMonday(y + 1) - FirstMonday(y)) / 7
  }

  datatype IsoWeek = IsoWeek(year: int, week: int)

  /** The ISO week of a day in calendar year `y`: the year its Thursday lies in, and which Thursday of that year it is. */
  function IsoWeekOf(y: int, n: int): IsoWeek {
    var thursday := MondayOf(n) + 3;
    var year := if thursday < YearStart(y) then y - 1 else if thursday >= YearStart(y + 1) then y + 1 else y;
    IsoWeek(year, (thursday - YearStart(year)) / 7 + 1)
  }

  /** The Monday a (year, week) pair names, if the year has that week. */
  function MondayOfWeek(w: IsoWeek): int {
    FirstMonday(w.year) + 7 * (w.week - 1)
  }

  predicate IsIsoWeek(w: IsoWeek) {
    1 <= w.week <= WeeksIn(w.year)
  }

  /** Mondays are whole weeks apart. */
  lemma MondayStep(a: int, b: int) returns (q: int)
    ensures MondayOf(a) == MondayOf(b) + 7 * q
    ensures a - 6 <= MondayOf(a) <= a
  {
    assert MondayOf(a) == 7 * ((a + 5) / 7) - 5;
    assert MondayOf(b) == 7 * ((b + 5) / 7) - 5;
    q := (a + 5) / 7 - (b + 5) / 7;
  }

  /** In a year from `start` to before `next`, the week of the n-th Thursday starts n - 1 weeks after the first one. */
  lemma ThursdayCounts(start: int, next: int, n: int)
    requires start <= MondayOf(n) + 3 < next
    ensures var week := (MondayOf(n) + 3 - start) / 7 + 1;
            && 1 <= week <= (MondayOf(next + 3) - MondayOf(start + 3)) / 7
            && MondayOf(start + 3) + 7 * (week - 1) == MondayOf(n)
            && (next - start <= 366 ==> week <= 53)
  {
    var first := MondayOf(start + 3);
    var q := MondayStep(n, start + 3);
    var weeks := MondayStep(next + 3, start + 3);
    var _ := MondayStep(start + 3, n);
    assert 0 <= first + 3 - start <= 6;
    assert MondayOf(n) + 3 - start == (first + 3 - start) + 7 * q;
    assert (MondayOf(n) + 3 - start) / 7 == q;
    assert (MondayOf(next + 3) - first) / 7 == weeks;
  }

  lemma ThursdayNear(n: int)
    ensures n - 3 <= MondayOf(n) + 3 <= n + 3
  {
  }

  /** The Thursday of a day's week lies in the year the week is counted in. */
  lemma ThursdayInYear(y: int, n: int)
    requires YearStart(y) <= n < YearStart(y + 1)
    ensures var w := IsoWeekOf(y, n).year; y - 1 <= w <= y + 1 && YearStart(w) <= MondayOf(n) + 3 < YearStart(w + 1)
  {
    var t := MondayOf(n) + 3;
    ThursdayNear(n);
    ThursdayAround(y, n, t, YearStart(y - 1), YearStart(y), YearStart(y + 1), YearStart(y + 2));
  }

  lemma ThursdayAround(y: int, n: int, t: int, a: int, b: int, c: int, d: int)
    requires a == YearStart(y - 1) && b == YearStart(y) && c == YearStart(y + 1) && d == YearStart(y + 2)
    requires b <= n < c && n - 3 <= t <= n + 3
    ensures (t < b ==> a <= t) && (t >= c ==> t < d)
  {
    YearsAround(y, a, b, c, d);
  }

  lemma YearsAround(y: int, a: int, b: int, c: int, d: int)
    requires a == YearStart(y - 1) && b == YearStart(y) && c == YearStart(y + 1) && d == YearStart(y + 2)
    ensures a + 365 <= b && b + 365 <= c && c + 365 <= d
  {
    YearLength(y - 1);
    YearLength(y);
    YearLength(y + 1);
  }

  /** `ThursdayCounts` in the terms of a week of a year. */
  lemma WeekOfYear(w: IsoWeek, n: int, start: int, next: int)
    requires start == YearStart(w.year) && next == YearStart(w.year + 1)
    requires start <= MondayOf(n) + 3 < next <= start + 366
    requires w.week == (MondayOf(n) + 3 - start) / 7 + 1
    ensures IsIsoWeek(w) && w.week <= 53 && MondayOfWeek(w) == MondayOf(n)
  {
    ThursdayCounts(start, next, n);
  }

  /** Naming the week of a day and taking that week's Monday gives the Monday on or before the day. */
  lemma WeekRoundTrip(y: int, n: int)
    requires YearStart(y) <= n < YearStart(y + 1)
    ensures var w := IsoWeekOf(y, n);
            && IsIsoWeek(w) && w.week <= 53 && MondayOfWeek(w) == MondayOf(n)
            && y - 1 <= w.year <= y + 1
  {
    var w := IsoWeekOf(y, n);
    ThursdayInYear(y, n);
    YearLength(w.year);
    WeekOfYear(w, n, YearStart(w.year), YearStart(w.year + 1));
  }

  // ----- which days these are -----

  /**
   What fixes the weekday of every day: 1 January 1970 was a Thursday, and the days of
   the week follow each other.
   */
  lemma WeekdaysFollow(n: int)
    ensures Weekday(DayNumber(1970, 1, 1)) == 3
    ensures Weekday(n) < 7 && Weekday(n + 1) == if Weekday(n) == 6 then 0 else Weekday(n) + 1
  {
  }

  /** Week 1 of a year starts on a Monday and holds 4 January. */
  lemma WeekOneHoldsFourth(y: int)
    ensures Weekday(FirstMonday(y)) == 0
    ensures FirstMonday(y) <= DayNumber(y, 1, 4) < FirstMonday(y) + 7
  {
    MondaysAreMondays(YearStart(y) + 3);
  }

  lemma MondaysAreMondays(n: int)
    ensures Weekday(MondayOf(n)) == 0 && MondayOf(n) <= n < MondayOf(n) + 7
  {
    assert n + 5 == 7 * ((n + 5) / 7) + (n + 5) % 7;
    assert MondayOf(n) + 5 == 7 * ((n + 5) / 7);
  }

  /**
   The week of a day, as ISO 8601 has it: it runs from the Monday on or before the day,
   belongs to the year its Thursday lies in, and is numbered from the week with 4 January.
   */
  lemma WeekIsIso(y: int, n: int) returns (monday: int)
    requires YearStart(y) <= n < YearStart(y + 1)
    ensures Weekday(monday) == 0 && monday <= n < monday + 7
    ensures var w := IsoWeekOf(y, n);
            && YearStart(w.year) <= monday + 3 < YearStart(w.year + 1)
            && FirstMonday(w.year) <= DayNumber(w.year, 1, 4) < FirstMonday(w.year) + 7
            && monday == FirstMonday(w.year) + 7 * (w.week - 1) && 1 <= w.week <= 53
  {
    monday := MondayOf(n);
    MondaysAreMondays(n);
    ThursdayInYear(y, n);
    WeekRoundTrip(y, n);
    WeekOneHoldsFourth(IsoWeekOf(y, n).year);
  }

  /** Two known days: 2026-11-17 is a Tuesday of week 47, and 2021-01-03 is still in the last week of 2020. */
  lemma KnownWeeks()
    ensures Weekday(DayNumber(2026, 11, 17)) == 1 && IsoWeekOf(2026, DayNumber(2026, 11, 17)) == IsoWeek(2026, 47)
    ensures Weekday(DayNumber(2021, 1, 3)) == 6 && IsoWeekOf(2021, DayNumber(2021, 1, 3)) == IsoWeek(2020, 53)
  {
    MonthStartClosedForm(2026, 11);
    assert YearStart(2026) == 739982 && YearStart(2027) == 740347 && DayNumber(2026, 11, 17) == 740302;
    assert MondayOf(740302) == 740301;
    assert YearStart(2020) == 737790 && YearStart(2021) == 738156 && DayNumber(2021, 1, 3) == 738158;
    assert MondayOf(738158) == 738152;
  }
}
