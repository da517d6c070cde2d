/**
 The day rule of a cron expression: with both day fields restricted the expression is the union of two simpler ones,
 and so is its next firing; otherwise both fields must agree. Weekdays are the calendar's.
 */
module CronHalves {
  import opened Envelope
  import opened Calendar
  import opened Cron

  /** The expression with weekday `*`. */
  function AnyWeekday(s: CronSpec): CronSpec {
    s.(daysOfWeek := {0, 1, 2, 3, 4, 5, 6}, dowRestricted := false)
  }

  /** The expression with day-of-month `*`. */
  function AnyDay(s: CronSpec): CronSpec {
    s.(daysOfMonth := {1, 2, 3, 4, 5, 6, 7, 8, 9, 10, 11, 12, 13, 14, 15, 16,
                       17, 18, 19, 20, 21, 22, 23, 24, 25, 26, 27, 28, 29, 30, 31},
       domRestricted := false)
  }

  lemma HalvesAreSpecs(s: CronSpec)
    requires IsSpec(s)
    ensures IsSpec(AnyWeekday(s)) && IsSpec(AnyDay(s))
  {
    assert 0 in AnyWeekday(s).daysOfWeek && 1 in AnyDay(s).daysOfMonth;
  }

  // --------------------------------------------------------------- weekdays

  /** The weekday moves on with the date, from Saturday to Sunday. */
  lemma WeekdayFollows(d: Date)
    requires IsDate(d) && d != LAST_DATE
    ensures CronWeekday(NextDay(d)) == (CronWeekday(d) + 1) % 7
  {
    hide Ordinal, NextDay, IsDate;
    OrdinalOfNext(d);
    NextOfSeven(Ordinal(d));
  }

  lemma NextOfSeven(n: int)
    ensures (n + 1) % 7 == (n % 7 + 1) % 7
  {
    assert n == 7 * (n / 7) + n % 7;
    if n % 7 == 6 {
      assert n + 1 == 7 * (n / 7 + 1);
    } else {
      assert n + 1 == 7 * (n / 7) + (n % 7 + 1);
    }
  }

  /** Thursday, 15 January 2026; Saturday, 1 January 2000; Monday, 1 January 1900. */
  lemma KnownWeekdays()
    ensures CronWeekday(Date(2026, 1, 15)) == 4 && CronWeekday(Date(2000, 1, 1)) == 6 && CronWeekday(Date(1900, 1, 1)) == 1
  {
  }

  // -------------------------------------------------------------- the rule

  /** When an expression fires, field by field. */
  lemma FiresExactly(s: CronSpec, t: Local)
    ensures Fires(s, t) <==>
              && IsLocal(t) && t.micros == 0
              && t.minute in s.minutes && t.hour in s.hours && t.date.month in s.months
              && (if s.domRestricted && s.dowRestricted
                  then t.date.day in s.daysOfMonth || CronWeekday(t.date) in s.daysOfWeek
                  else t.date.day in s.daysOfMonth && CronWeekday(t.date) in s.daysOfWeek)
  {
  }

  /** Both day fields restricted: it fires when either half does. */
  lemma UnionOfHalves(s: CronSpec, t: Local)
    requires s.domRestricted && s.dowRestricted
    ensures Fires(s, t) <==> Fires(AnyWeekday(s), t) || Fires(AnyDay(s), t)
  {
    hide Ordinal, DaysIn;
    assert 0 <= CronWeekday(t.date) <= 6;
    if IsLocal(t) {
      DayInMonth(t.date);
    }
  }

  lemma DayInMonth(d: Date)
    requires IsDate(d)
    ensures 1 <= d.day <= 31
  {
  }

  /** One of them `*`: it fires when both halves do. */
  lemma IntersectionOfHalves(s: CronSpec, t: Local)
    requires IsSpec(s) && !(s.domRestricted && s.dowRestricted)
    ensures Fires(s, t) <==> Fires(AnyWeekday(s), t) && Fires(AnyDay(s), t)
  {
    hide Ordinal, DaysIn;
    assert 0 <= CronWeekday(t.date) <= 6;
    if IsLocal(t) {
      DayInMonth(t.date);
    }
  }

  // ------------------------------------------------------- the next firing

  /** What a search that starts at `from` finds: the next firing, or none within the horizon. */
  ghost predicate FirstWithin(s: CronSpec, after: Local, from: Date, r: Option<Local>) {
    match r
    case Some(t) => IsNext(s, after, t) && Ordinal(t.date) < Ordinal(from) + SEARCH_LIMIT_DAYS
    case None => NeverWithin(s, after, from)
  }

  function Earlier(a: Option<Local>, b: Option<Local>): Option<Local> {
    if a.None? then b else if b.None? || Minutes(a.value) <= Minutes(b.value) then a else b
  }

  /** Whatever fires within the horizon is not before the next firing. */
  lemma NotBeforeFirst(s: CronSpec, after: Local, from: Date, r: Option<Local>, u: Local)
    requires FirstWithin(s, after, from, r) && Fires(s, u) && Later(u, after)
    ensures if r.Some? then Minutes(r.value) <= Minutes(u) else Ordinal(u.date) >= Ordinal(from) + SEARCH_LIMIT_DAYS
  {
  }

  lemma FiringOf(s: CronSpec, t: Local)
    requires Fires(s, t)
    ensures IsLocal(t)
  {
  }

  lemma BeyondHorizon(t: Local, u: Local, limit: int)
    requires IsLocal(t) && IsLocal(u) && Ordinal(t.date) < limit <= Ordinal(u.date)
    ensures Minutes(t) <= Minutes(u)
  {
    MinutesOrder(t, u);
  }

  /** The next firing is the earlier of the two halves' next firings; there is none exactly when neither has one. */
  lemma NextOfHalves(s: CronSpec, after: Local, from: Date, a: Option<Local>, b: Option<Local>)
    requires s.domRestricted && s.dowRestricted
    requires FirstWithin(AnyWeekday(s), after, from, a) && FirstWithin(AnyDay(s), after, from, b)
    ensures FirstWithin(s, after, from, Earlier(a, b))
  {
    hide Fires, Later, Minutes, Ordinal, AnyWeekday, AnyDay, IsLocal;
    var r := Earlier(a, b);
    if r.Some? {
      UnionOfHalves(s, r.value);
    }
    forall u | Fires(s, u) && Later(u, after)
      ensures if r.Some? then Minutes(r.value) <= Minutes(u) else Ordinal(u.date) >= Ordinal(from) + SEARCH_LIMIT_DAYS
    {
      UnionOfHalves(s, u);
      if Fires(AnyWeekday(s), u) {
        NotBeforeFirst(AnyWeekday(s), after, from, a, u);
        FirstIsNotAfter(AnyWeekday(s), AnyDay(s), after, from, a, b, u);
      } else {
        NotBeforeFirst(AnyDay(s), after, from, b, u);
        FirstIsNotAfter(AnyDay(s), AnyWeekday(s), after, from, b, a, u);
      }
    }
  }

  /** A firing of the one half is not before the earlier of both. */
  lemma FirstIsNotAfter(s: CronSpec, other: CronSpec, after: Local, from: Date, a: Option<Local>, b: Option<Local>, u: Local)
    requires FirstWithin(s, after, from, a) && FirstWithin(other, after, from, b) && Fires(s, u) && Later(u, after)
    ensures a.Some? ==> Minutes(a.value) <= Minutes(u)
    ensures a.None? && b.Some? ==> Minutes(b.value) <= Minutes(u)
  {
    hide Fires, Later, Minutes, Ordinal, IsLocal;
    NotBeforeFirst(s, after, from, a, u);
    if a.None? && b.Some? {
      FiringOf(s, u);
      FiringOf(other, b.value);
      BeyondHorizon(b.value, u, Ordinal(from) + SEARCH_LIMIT_DAYS);
    }
  }
}
