/** The proleptic Gregorian calendar of `datetime`, with days counted from year 1. */
module Calendar {

  datatype Date = Date(year: int, month: int, day: int)

  const MAX_YEAR := 9999

  predicate IsLeap(y: int) {
    y % 4 == 0 && (y % 100 != 0 || y % 400 == 0)
  }

  function DaysIn(y: int, m: int): int {
    if m == 2 then if IsLeap(y) then 29 else 28
    else if m == 4 || m == 6 || m == 9 || m == 11 then 30
    else 31
  }

  /** The most days a month ever has. */
  function LongestMonth(m: int): int {
    if m == 2 then 29 else DaysIn(1, m)
  }

  predicate IsDate(d: Date) {
    1 <= d.year <= MAX_YEAR && 1 <= d.month <= 12 && 1 <= d.day <= DaysIn(d.year, d.month)
  }

  const LAST_DATE := Date(MAX_YEAR, 12, 31)

  function NextDay(d: Date): (n: Date)
    requires IsDate(d) && d != LAST_DATE
    ensures IsDate(n)
  {
    if d.day < DaysIn(d.year, d.month) then d.(day := d.day + 1)
    else if d.month < 12 then Date(d.year, d.month + 1, 1)
    else Date(d.year + 1, 1, 1)
  }

  // ---------------------------------------------------------------- ordinals

  function DaysBeforeYear(y: int): int {
    var p := y - 1;
    p * 365 + p / 4 - p / 100 + p / 400
  }

  function DaysBeforeMonth(y: int, m: int): int {
    if m <= 1 then 0 else DaysBeforeMonth(y, m - 1) + DaysIn(y, m - 1)
  }

  function Ordinal(d: Date): int {
    DaysBeforeYear(d.year) + DaysBeforeMonth(d.year, d.month) + d.day
  }

  /** Sunday is 0, as cron counts; `datetime.weekday()` counts from Monday and is shifted by one. */
  function CronWeekday(d: Date): int {
    Ordinal(d) % 7
  }

  function YearLength(y: int): int {
    if IsLeap(y) then 366 else 365
  }

  lemma FourYears(y: int)
    ensures y / 4 == (y - 1) / 4 + (if y % 4 == 0 then 1 else 0)
  {
  }

  lemma Century(y: int)
    ensures y / 100 == (y - 1) / 100 + (if y % 100 == 0 then 1 else 0)
    ensures y % 100 == 0 ==> y % 4 == 0
  {
  }

  lemma FourCenturies(y: int)
    ensures y / 400 == (y - 1) / 400 + (if y % 400 == 0 then 1 else 0)
    ensures y % 400 == 0 ==> y % 100 == 0
  {
  }

  lemma YearStep(y: int)
    ensures DaysBeforeYear(y + 1) == DaysBeforeYear(y) + YearLength(y)
  {
    FourYears(y);
    Century(y);
    FourCenturies(y);
    YearStepOf(y, y % 4 == 0, y % 100 == 0, y % 400 == 0);
  }

  lemma YearStepOf(y: int, four: bool, century: bool, centuries: bool)
    requires y / 4 == (y - 1) / 4 + (if four then 1 else 0)
    requires y / 100 == (y - 1) / 100 + (if century then 1 else 0)
    requires y / 400 == (y - 1) / 400 + (if centuries then 1 else 0)
    requires (centuries ==> century) && (century ==> four)
    ensures DaysBeforeYear(y + 1) == DaysBeforeYear(y) + if four && (!century || centuries) then 366 else 365
  {
  }

  lemma MonthOffsets(y: int)
    ensures var leap := if IsLeap(y) then 1 else 0;
            && DaysBeforeMonth(y, 1) == 0 && DaysBeforeMonth(y, 2) == 31
            && DaysBeforeMonth(y, 3) == 59 + leap && DaysBeforeMonth(y, 4) == 90 + leap
            && DaysBeforeMonth(y, 5) == 120 + leap && DaysBeforeMonth(y, 6) == 151 + leap
            && DaysBeforeMonth(y, 7) == 181 + leap && DaysBeforeMonth(y, 8) == 212 + leap
            && DaysBeforeMonth(y, 9) == 243 + leap && DaysBeforeMonth(y, 10) == 273 + leap
            && DaysBeforeMonth(y, 11) == 304 + leap && DaysBeforeMonth(y, 12) == 334 + leap
  {
  }

  lemma DayOfYearRange(d: Date)
    requires IsDate(d)
    ensures 1 <= DaysBeforeMonth(d.year, d.month) + d.day <= YearLength(d.year)
  {
    MonthOffsets(d.year);
  }

  /** The calendar steps one day at a time. */
  lemma OrdinalOfNext(d: Date)
    requires IsDate(d) && d != LAST_DATE
    ensures Ordinal(NextDay(d)) == Ordinal(d) + 1
  {
    if d.day == DaysIn(d.year, d.month) && d.month == 12 {
      YearStep(d.year);
      MonthOffsets(d.year);
      MonthOffsets(d.year + 1);
    }
  }

  lemma {:induction false} YearsAscend(y: int, z: int)
    requires y <= z
    ensures DaysBeforeYear(y) + 365 * (z - y) <= DaysBeforeYear(z) <= DaysBeforeYear(y) + 366 * (z - y)
    decreases z - y
  {
    if y < z {
      YearStep(z - 1);
      YearsAscend(y, z - 1);
    }
  }

  /** A later year is a later day. */
  lemma LaterYear(a: Date, b: Date)
    requires IsDate(a) && IsDate(b) && a.year < b.year
    ensures Ordinal(a) < Ordinal(b)
  {
    DayOfYearRange(a);
    DayOfYearRange(b);
    YearStep(a.year);
    YearsAscend(a.year + 1, b.year);
  }

  /** Ordinals name dates uniquely. */
  lemma OrdinalIsInjective(a: Date, b: Date)
    requires IsDate(a) && IsDate(b) && Ordinal(a) == Ordinal(b)
    ensures a == b
  {
    if a.year < b.year {
      LaterYear(a, b);
    } else if b.year < a.year {
      LaterYear(b, a);
    } else {
      MonthOffsets(a.year);
    }
  }

  /** No date lies beyond the last one. */
  lemma LastIsLast(d: Date)
    requires IsDate(d)
    ensures Ordinal(d) <= Ordinal(LAST_DATE)
  {
    if d.year < MAX_YEAR {
      LaterYear(d, LAST_DATE);
    } else {
      DayOfYearRange(d);
      MonthOffsets(MAX_YEAR);
    }
  }

  // ----------------------------------------------------------- landmark days

  /** Any month and day that occurs every year occurs again within two years. */
  lemma OccursSoon(from: Date, m: int, d: int)
    requires IsDate(from) && from.year < MAX_YEAR && 1 <= m <= 12 && 1 <= d <= DaysIn(1, m)
    ensures var next := Date(from.year + 1, m, d);
            IsDate(next) && Ordinal(from) < Ordinal(next) <= Ordinal(from) + 731
  {
    var next := Date(from.year + 1, m, d);
    assert DaysIn(1, m) <= DaysIn(from.year + 1, m);
    DayOfYearRange(from);
    DayOfYearRange(next);
    YearStep(from.year);
    LaterYear(from, next);
  }

  /** Days from the start of a year divisible by four to the start of the next. */
  lemma FourYearsOn(y: int)
    requires y % 4 == 0
    ensures DaysBeforeYear(y + 4) == DaysBeforeYear(y) + YearLength(y) + 1095
  {
    hide DaysBeforeYear;
    YearStep(y);
    YearStep(y + 1);
    YearStep(y + 2);
    YearStep(y + 3);
    assert !IsLeap(y + 1) && !IsLeap(y + 2) && !IsLeap(y + 3);
  }

  predicate Before(a: Date, b: Date) {
    a.year < b.year || (a.year == b.year && (a.month < b.month || (a.month == b.month && a.day < b.day)))
  }

  /** The first year divisible by 100 from `y` on. */
  function CenturyFrom(y: int): int {
    (y + 99) / 100 * 100
  }

  lemma CenturyIs(y: int, z: int)
    requires z % 100 == 0 && y <= z < y + 100
    ensures CenturyFrom(y) == z
  {
    var c := z / 100;
    assert z == 100 * c && (y + 99) / 100 == c;
  }

  lemma CenturyAhead(y: int)
    ensures CenturyFrom(y) % 100 == 0 && y <= CenturyFrom(y) < y + 100
  {
  }

  predicate IsLeapDay(d: Date) {
    d.month == 2 && d.day == 29
  }

  /** Eight years around a century year that has no leap day: the days from which the next one is out of reach. */
  predicate LeapGap(d: Date) {
    var z := CenturyFrom(d.year);
    z % 400 != 0 && !Before(d, Date(z - 4, 2, 29)) && Before(d, Date(z, 2, 26))
  }

  /** From 1901 to 2095 there is no such gap. */
  lemma NoGapThisCentury(d: Date)
    requires 1901 <= d.year <= 2095
    ensures !LeapGap(d)
  {
  }

  /** The next year divisible by four. */
  function NextFourth(y: int): int {
    y + (4 - y % 4)
  }

  /** Outside the gaps a leap day is at most four years away. */
  lemma LeapDaySoon(from: Date) returns (leap: Date)
    requires IsDate(from) && from.year + 4 <= MAX_YEAR && !LeapGap(from)
    ensures IsDate(leap) && IsLeapDay(leap)
    ensures Ordinal(from) < Ordinal(leap) < Ordinal(from) + 1464
  {
    hide DaysBeforeYear, DaysBeforeMonth, LeapGap;
    var y := from.year;
    MonthOffsets(y);
    DayOfYearRange(from);
    if Before(from, Date(y, 2, 29)) && IsLeap(y) {
      leap := Date(y, 2, 29);
    } else if Before(from, Date(y, 2, 29)) && y % 4 == 0 {
      FromLateFebruary(from);
      FourYearsOn(y);
      leap := Date(y + 4, 2, 29);
      MonthOffsets(y + 4);
    } else {
      leap := Date(NextFourth(y), 2, 29);
      NextFourthIsLeap(from);
      MonthOffsets(leap.year);
      if y % 4 == 0 {
        FourYearsOn(y);
      } else {
        YearsAscend(y, leap.year);
      }
    }
  }

  lemma FromLateFebruary(from: Date)
    requires IsDate(from) && !LeapGap(from) && from.year % 4 == 0 && !IsLeap(from.year)
    ensures !Before(from, Date(from.year, 2, 26)) && IsLeap(from.year + 4)
  {
    CenturyIs(from.year, from.year);
    AroundCentury(from.year);
  }

  lemma AroundCentury(z: int)
    requires z % 100 == 0
    ensures z % 4 == 0 && IsLeap(z - 4) && IsLeap(z + 4)
  {
    var c := z / 100;
    assert z == 4 * (25 * c);
  }

  lemma NextFourthIsLeap(from: Date)
    requires IsDate(from) && !LeapGap(from) && !(Before(from, Date(from.year, 2, 29)) && from.year % 4 == 0)
    ensures IsLeap(NextFourth(from.year))
  {
    hide CenturyFrom, IsLeap;
    var n := NextFourth(from.year);
    if !IsLeap(n) {
      FourthButNotLeap(n);
      CenturyIs(from.year, n);
      assert false;
    }
  }

  lemma FourthButNotLeap(n: int)
    requires n % 4 == 0 && !IsLeap(n)
    ensures n % 100 == 0 && n % 400 != 0
  {
  }

  /** Inside a gap every later leap day lies beyond the horizon. */
  lemma NoLeapDayInGap(from: Date, leap: Date)
    requires IsDate(from) && LeapGap(from) && IsDate(leap) && IsLeapDay(leap) && Ordinal(from) < Ordinal(leap)
    ensures Ordinal(from) + 1464 <= Ordinal(leap)
  {
    hide DaysBeforeYear, DaysBeforeMonth;
    var z := CenturyFrom(from.year);
    LeapYearAfterGap(from, leap);
    var first := Date(z + 4, 2, 29);
    FourYearsOn(z);
    MonthOffsets(z);
    MonthOffsets(z + 4);
    if from.year < z {
      LaterYear(from, Date(z, 1, 1));
    } else {
      MonthOffsets(from.year);
    }
    if leap.year > first.year {
      LaterYear(first, leap);
    }
  }

  lemma LeapYearAfterGap(from: Date, leap: Date)
    requires IsDate(from) && LeapGap(from) && IsDate(leap) && IsLeapDay(leap) && Ordinal(from) < Ordinal(leap)
    ensures var z := CenturyFrom(from.year);
            && z % 4 == 0 && !IsLeap(z) && IsLeap(z + 4) && from.year <= z && z + 4 <= leap.year
  {
    hide DaysBeforeYear, DaysBeforeMonth, CenturyFrom;
    var z := CenturyFrom(from.year);
    CenturyAhead(from.year);
    AroundCentury(z);
    if leap.year < from.year {
      LaterYear(leap, from);
    } else if leap.year == from.year {
      MonthOffsets(from.year);
    }
    LeapYearsAround(z, leap.year);
  }

  lemma LeapYearsAround(z: int, y: int)
    requires z % 4 == 0 && !IsLeap(z) && IsLeap(y) && z - 4 < y
    ensures z + 4 <= y
  {
  }
}
