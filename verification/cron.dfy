/** Five-field cron expressions: parsing, and the search for the next matching minute. */
module Cron {
  import opened Envelope
  import opened Calendar

  datatype CronSpec = CronSpec(
    minutes: set<int>, hours: set<int>, daysOfMonth: set<int>, months: set<int>, daysOfWeek: set<int>,
    domRestricted: bool, dowRestricted: bool)

  ghost predicate Within(s: set<int>, lo: int, hi: int) {
    s != {} && forall v :: v in s ==> lo <= v <= hi
  }

  ghost predicate Full(s: set<int>, lo: int, hi: int) {
    forall v :: lo <= v <= hi ==> v in s
  }

  /** What parsing establishes. */
  ghost predicate IsSpec(s: CronSpec) {
    && Within(s.minutes, 0, 59) && Within(s.hours, 0, 23)
    && Within(s.daysOfMonth, 1, 31) && Within(s.months, 1, 12) && Within(s.daysOfWeek, 0, 6)
    && (!s.domRestricted ==> Full(s.daysOfMonth, 1, 31))
    && (!s.dowRestricted ==> Full(s.daysOfWeek, 0, 6))
  }

  // ----------------------------------------------------------------- moments

  /** A local time: a whole minute and the microseconds into it. */
  datatype Local = Local(date: Date, hour: int, minute: int, micros: int)

  predicate IsLocal(t: Local) {
    IsDate(t.date) && 0 <= t.hour <= 23 && 0 <= t.minute <= 59 && 0 <= t.micros < 60_000_000
  }

  /** Minutes since year 1, for comparison. */
  function Minutes(t: Local): int {
    Ordinal(t.date) * 1440 + t.hour * 60 + t.minute
  }

  predicate Later(a: Local, b: Local) {
    Minutes(a) > Minutes(b) || (Minutes(a) == Minutes(b) && a.micros > b.micros)
  }

  predicate MatchesDay(s: CronSpec, d: Date) {
    if d.month !in s.months then false
    else
      var domOk := d.day in s.daysOfMonth;
      var dowOk := CronWeekday(d) in s.daysOfWeek;
      if s.domRestricted && s.dowRestricted then domOk || dowOk else domOk && dowOk
  }

  /** A whole minute all of whose fields match. */
  predicate Fires(s: CronSpec, t: Local) {
    IsLocal(t) && t.micros == 0 && MatchesDay(s, t.date) && t.hour in s.hours && t.minute in s.minutes
  }

  /** `t` is the least matching minute strictly after `after`. */
  ghost predicate IsNext(s: CronSpec, after: Local, t: Local) {
    && Fires(s, t) && Later(t, after)
    && forall u :: Fires(s, u) && Later(u, after) ==> Minutes(t) <= Minutes(u)
  }

  const SEARCH_LIMIT_DAYS := 366 * 4

  datatype Found = Fire(at: Local) | Never | Overflow

  /** The whole minute the search starts from; none past the last representable minute. */
  function Candidate(after: Local): (c: Option<Local>)
    requires IsLocal(after)
    ensures c.Some? ==> IsLocal(c.value) && c.value.micros == 0
  {
    if after.minute < 59 then Some(Local(after.date, after.hour, after.minute + 1, 0))
    else if after.hour < 23 then Some(Local(after.date, after.hour + 1, 0, 0))
    else if after.date != LAST_DATE then Some(Local(NextDay(after.date), 0, 0, 0))
    else None
  }

  lemma CandidateIsNextMinute(after: Local)
    requires IsLocal(after)
    ensures Candidate(after).Some? ==> Minutes(Candidate(after).value) == Minutes(after) + 1
    ensures Candidate(after).None? ==> forall u :: IsLocal(u) ==> Minutes(u) <= Minutes(after)
  {
    if after.minute == 59 && after.hour == 23 {
      if after.date != LAST_DATE {
        OrdinalOfNext(after.date);
      } else {
        forall u | IsLocal(u) ensures Minutes(u) <= Minutes(after) {
          LastIsLast(u.date);
        }
      }
    }
  }

  /** Whole minutes later than `after` are exactly those from the candidate on; the inner test never rejects. */
  lemma LaterMeansFromCandidate(after: Local, t: Local)
    requires IsLocal(after) && IsLocal(t) && t.micros == 0 && Candidate(after).Some?
    ensures Later(t, after) <==> Minutes(t) >= Minutes(Candidate(after).value)
  {
    CandidateIsNextMinute(after);
  }

  /** Minutes compare by day, then by time of day. */
  lemma MinutesOrder(a: Local, b: Local)
    requires IsLocal(a) && IsLocal(b)
    ensures Ordinal(a.date) < Ordinal(b.date) ==> Minutes(a) < Minutes(b)
    ensures Minutes(a) == Minutes(b) && a.micros == b.micros ==> a == b
  {
    if Minutes(a) == Minutes(b) {
      assert Ordinal(a.date) == Ordinal(b.date);
      OrdinalIsInjective(a.date, b.date);
    }
  }

  // ------------------------------------------------------------- the search

  /** `sorted` of one field. */
  method SortedValues(s: set<int>, lo: int, hi: int) returns (vs: seq<int>)
    requires lo <= hi + 1 && forall v :: v in s ==> lo <= v <= hi
    ensures forall v :: v in vs <==> v in s
    ensures forall i, j :: 0 <= i < j < |vs| ==> vs[i] < vs[j]
  {
    vs := [];
    for v := lo to hi + 1
      invariant forall x :: x in vs <==> x in s && x < v
      invariant forall i, j :: 0 <= i < j < |vs| ==> vs[i] < vs[j]
    {
      assert forall i :: 0 <= i < |vs| ==> vs[i] in vs;
      if v in s {
        vs := vs + [v];
      }
    }
  }

  /** No match at or after the candidate comes before day `o`. */
  ghost predicate NoneBeforeDay(s: CronSpec, from: Local, o: int) {
    forall u :: Fires(s, u) && Minutes(u) >= Minutes(from) ==> Ordinal(u.date) >= o
  }

  /** The first matching minute of one matching day at or after the candidate, if there is one. */
  method SearchDay(s: CronSpec, day: Date, after: Local, from: Local, hours: seq<int>, minutes: seq<int>)
    returns (r: Option<Local>)
    requires IsSpec(s) && IsDate(day) && MatchesDay(s, day)
    requires IsLocal(after) && Candidate(after) == Some(from) && Ordinal(from.date) <= Ordinal(day)
    requires forall v :: v in hours <==> v in s.hours
    requires forall v :: v in minutes <==> v in s.minutes
    requires forall i, j :: 0 <= i < j < |hours| ==> hours[i] < hours[j]
    requires forall i, j :: 0 <= i < j < |minutes| ==> minutes[i] < minutes[j]
    ensures r.Some? ==> Fires(s, r.value) && r.value.date == day && Minutes(r.value) >= Minutes(from)
    ensures r.Some? ==> forall u :: Fires(s, u) && u.date == day && Minutes(u) >= Minutes(from) ==> Minutes(r.value) <= Minutes(u)
    ensures r.None? ==> forall u :: Fires(s, u) && u.date == day ==> Minutes(u) < Minutes(from)
  {
    var firstDay := day == from.date;
    if !firstDay && Ordinal(from.date) == Ordinal(day) {
      OrdinalIsInjective(from.date, day);
    }
    for i := 0 to |hours|
      invariant forall u :: Fires(s, u) && u.date == day && Minutes(u) >= Minutes(from) ==> u.hour !in hours[..i]
    {
      var hour := hours[i];
      assert hour in hours;
      assert hours[..i + 1] == hours[..i] + [hour];
      if !(firstDay && hour < from.hour) {
        for j := 0 to |minutes|
          invariant forall u :: Fires(s, u) && u.date == day && u.hour == hour && Minutes(u) >= Minutes(from) ==>
                      u.minute !in minutes[..j]
        {
          var minute := minutes[j];
          assert minute in minutes;
          assert minutes[..j + 1] == minutes[..j] + [minute];
          if !(firstDay && hour == from.hour && minute < from.minute) {
            var fire := Local(day, hour, minute, 0);
            LaterMeansFromCandidate(after, fire);
            FirstIsLeast(s, day, from, hours, minutes, i, j);
            if Later(fire, after) {
              return Some(fire);
            }
          }
        }
      }
    }
    assert hours[..|hours|] == hours;
    r := None;
  }

  lemma PrefixMembers(vs: seq<int>, i: nat)
    requires i <= |vs|
    ensures forall k :: 0 <= k < i ==> vs[k] in vs[..i]
  {
    forall k | 0 <= k < i ensures vs[k] in vs[..i] {
      assert vs[..i][k] == vs[k];
    }
  }

  lemma FirstIsLeast(s: CronSpec, day: Date, from: Local, hours: seq<int>, minutes: seq<int>, i: nat, j: nat)
    requires i < |hours| && j < |minutes| && Within(s.minutes, 0, 59)
    requires forall v :: v in hours <==> v in s.hours
    requires forall v :: v in minutes <==> v in s.minutes
    requires forall a, b :: 0 <= a < b < |hours| ==> hours[a] < hours[b]
    requires forall a, b :: 0 <= a < b < |minutes| ==> minutes[a] < minutes[b]
    requires forall u :: Fires(s, u) && u.date == day && Minutes(u) >= Minutes(from) ==> u.hour !in hours[..i]
    requires forall u :: Fires(s, u) && u.date == day && u.hour == hours[i] && Minutes(u) >= Minutes(from) ==>
               u.minute !in minutes[..j]
    ensures forall u :: Fires(s, u) && u.date == day && Minutes(u) >= Minutes(from) ==>
              Minutes(Local(day, hours[i], minutes[j], 0)) <= Minutes(u)
  {
    PrefixMembers(hours, i);
    PrefixMembers(minutes, j);
    forall u | Fires(s, u) && u.date == day && Minutes(u) >= Minutes(from)
      ensures Minutes(Local(day, hours[i], minutes[j], 0)) <= Minutes(u)
    {
      var k :| 0 <= k < |hours| && hours[k] == u.hour;
      var l :| 0 <= l < |minutes| && minutes[l] == u.minute;
      assert minutes[j] in minutes && u.minute in s.minutes;
    }
  }

  /**
   Whichever way the search ends, it says exactly what the horizon holds: the least match, none at all, or nothing
   before the calendar itself runs out (`Overflow`, an error of the caller's date library).
   */
  method NextFire(s: CronSpec, after: Local) returns (r: Found)
    requires IsSpec(s) && IsLocal(after)
    ensures r.Fire? ==>
              && IsNext(s, after, r.at)
              && Candidate(after).Some? && Ordinal(r.at.date) < Ordinal(Candidate(after).value.date) + SEARCH_LIMIT_DAYS
    ensures r.Never? ==>
              && Candidate(after).Some?
              && forall u :: Fires(s, u) && Later(u, after) ==>
                   Ordinal(u.date) >= Ordinal(Candidate(after).value.date) + SEARCH_LIMIT_DAYS
    ensures r.Overflow? ==>
              && (Candidate(after).Some? ==> Ordinal(LAST_DATE) < Ordinal(Candidate(after).value.date) + SEARCH_LIMIT_DAYS)
              && forall u :: Fires(s, u) ==> !Later(u, after)
  {
    CandidateIsNextMinute(after);
    if Candidate(after).None? {
      return Overflow;
    }
    var from := Candidate(after).value;
    var hours := SortedValues(s.hours, 0, 23);
    var minutes := SortedValues(s.minutes, 0, 59);
    var day := from.date;
    NoneBeforeStart(s, from);
    for offset := 0 to SEARCH_LIMIT_DAYS
      invariant IsDate(day)
      invariant offset == 0 ==> day == from.date
      invariant offset > 0 ==> Ordinal(day) == Ordinal(from.date) + offset - 1
      invariant NoneBeforeDay(s, from, Ordinal(from.date) + offset)
    {
      if offset > 0 {
        if day == LAST_DATE {
          NoneAfterLast(s, after, from);
          return Overflow;
        }
        OrdinalOfNext(day);
        day := NextDay(day);
      }
      var found: Option<Local> := None;
      if MatchesDay(s, day) {
        found := SearchDay(s, day, after, from, hours, minutes);
      }
      if found.Some? {
        LeastOfAll(s, after, from, day, found.value);
        return Fire(found.value);
      }
      DayDone(s, from, day);
    }
    NoneLaterBefore(s, after, from, Ordinal(from.date) + SEARCH_LIMIT_DAYS);
    r := Never;
  }

  lemma NoneBeforeStart(s: CronSpec, from: Local)
    requires IsLocal(from)
    ensures NoneBeforeDay(s, from, Ordinal(from.date))
  {
    forall u | Fires(s, u) && Minutes(u) >= Minutes(from) ensures Ordinal(u.date) >= Ordinal(from.date) {
      MinutesOrder(u, from);
    }
  }

  lemma DayDone(s: CronSpec, from: Local, day: Date)
    requires IsDate(day) && NoneBeforeDay(s, from, Ordinal(day))
    requires MatchesDay(s, day) ==> forall u :: Fires(s, u) && u.date == day ==> Minutes(u) < Minutes(from)
    ensures NoneBeforeDay(s, from, Ordinal(day) + 1)
  {
    forall u | Fires(s, u) && Minutes(u) >= Minutes(from) ensures Ordinal(u.date) >= Ordinal(day) + 1 {
      if Ordinal(u.date) == Ordinal(day) {
        OrdinalIsInjective(u.date, day);
      }
    }
  }

  lemma NoneLaterBefore(s: CronSpec, after: Local, from: Local, o: int)
    requires IsLocal(after) && Candidate(after) == Some(from) && NoneBeforeDay(s, from, o)
    ensures forall u :: Fires(s, u) && Later(u, after) ==> Ordinal(u.date) >= o
  {
    forall u | Fires(s, u) && Later(u, after) ensures Ordinal(u.date) >= o {
      LaterMeansFromCandidate(after, u);
    }
  }

  lemma NoneAfterLast(s: CronSpec, after: Local, from: Local)
    requires IsLocal(after) && Candidate(after) == Some(from) && NoneBeforeDay(s, from, Ordinal(LAST_DATE) + 1)
    ensures forall u :: Fires(s, u) ==> !Later(u, after)
  {
    NoneLaterBefore(s, after, from, Ordinal(LAST_DATE) + 1);
    forall u | Fires(s, u) ensures !Later(u, after) {
      LastIsLast(u.date);
    }
  }

  lemma LeastOfAll(s: CronSpec, after: Local, from: Local, day: Date, t: Local)
    requires IsLocal(after) && Candidate(after) == Some(from) && IsDate(day)
    requires NoneBeforeDay(s, from, Ordinal(day)) && Fires(s, t) && t.date == day && Minutes(t) >= Minutes(from)
    requires forall u :: Fires(s, u) && u.date == day && Minutes(u) >= Minutes(from) ==> Minutes(t) <= Minutes(u)
    ensures IsNext(s, after, t)
  {
    LaterMeansFromCandidate(after, t);
    forall u | Fires(s, u) && Later(u, after) ensures Minutes(t) <= Minutes(u) {
      LaterMeansFromCandidate(after, u);
      if u.date != day {
        if Ordinal(u.date) == Ordinal(day) {
          OrdinalIsInjective(u.date, day);
        }
        MinutesOrder(t, u);
      }
    }
  }

  /** The next firing is unique. */
  lemma NextIsUnique(s: CronSpec, after: Local, t: Local, u: Local)
    requires IsNext(s, after, t) && IsNext(s, after, u)
    ensures t == u
  {
    MinutesOrder(t, u);
  }

  function Previous(after: Local, fires: seq<Local>, i: nat): Local
    requires i <= |fires|
  {
    if i == 0 then after else fires[i - 1]
  }

  /** Each firing was found from the one before it. */
  ghost predicate Chain(s: CronSpec, after: Local, fires: seq<Local>) {
    forall i :: 0 <= i < |fires| ==> Link(s, after, fires, i)
  }

  ghost predicate Link(s: CronSpec, after: Local, fires: seq<Local>, i: nat)
    requires i < |fires|
  {
    IsNext(s, Previous(after, fires, i), fires[i])
  }

  /** Following the next firings enumerates every matching minute once, in order. */
  lemma IterationEnumerates(s: CronSpec, after: Local, fires: seq<Local>, u: Local)
    requires Chain(s, after, fires) && fires != []
    requires Fires(s, u) && Later(u, after) && Minutes(u) <= Minutes(fires[|fires| - 1])
    ensures exists i :: 0 <= i < |fires| && fires[i] == u && forall j :: 0 <= j < |fires| && fires[j] == u ==> j == i
  {
    hide Fires, Minutes, Later;
    Ascending(s, after, fires);
    var i := 0;
    while Minutes(fires[i]) < Minutes(u)
      invariant 0 <= i < |fires| && Later(u, Previous(after, fires, i))
      decreases |fires| - i
    {
      LaterByMinutes(fires[i], u);
      i := i + 1;
    }
    assert Link(s, after, fires, i);
    SameMinute(s, fires[i], u);
  }

  lemma LaterByMinutes(a: Local, b: Local)
    requires Minutes(a) < Minutes(b)
    ensures Later(b, a)
  {
  }

  lemma SameMinute(s: CronSpec, a: Local, b: Local)
    requires Fires(s, a) && Fires(s, b) && Minutes(a) == Minutes(b)
    ensures a == b
  {
    MinutesOrder(a, b);
  }

  lemma FiringsApart(s: CronSpec, a: Local, b: Local)
    requires Fires(s, a) && Fires(s, b) && Later(b, a)
    ensures Minutes(a) < Minutes(b)
  {
  }

  lemma {:induction false} AscendingAt(s: CronSpec, after: Local, fires: seq<Local>, i: nat, j: nat)
    requires Chain(s, after, fires) && i < j < |fires|
    ensures Minutes(fires[i]) < Minutes(fires[j])
    decreases j
  {
    hide Fires, Minutes;
    if i < j - 1 {
      AscendingAt(s, after, fires, i, j - 1);
    }
    assert Link(s, after, fires, j - 1) && Link(s, after, fires, j);
    FiringsApart(s, fires[j - 1], fires[j]);
  }

  lemma Ascending(s: CronSpec, after: Local, fires: seq<Local>)
    requires Chain(s, after, fires)
    ensures forall i, j :: 0 <= i < j < |fires| ==> Minutes(fires[i]) < Minutes(fires[j])
    ensures forall i :: 0 <= i < |fires| ==> Fires(s, fires[i])
  {
    hide Fires, Minutes, Later;
    forall i, j | 0 <= i < j < |fires| ensures Minutes(fires[i]) < Minutes(fires[j]) {
      AscendingAt(s, after, fires, i, j);
    }
    forall i | 0 <= i < |fires| ensures Fires(s, fires[i]) {
      assert Link(s, after, fires, i);
    }
  }

  // ---------------------------------------------------------- never firing

  /** Some listed day exists in some listed month, counting 29 days for February. */
  ghost predicate SomeDayExists(s: CronSpec) {
    exists m, d :: m in s.months && d in s.daysOfMonth && d <= LongestMonth(m)
  }

  /** Nothing matches between `after` and the end of the horizon. */
  ghost predicate NeverWithin(s: CronSpec, after: Local, from: Date) {
    forall u :: Fires(s, u) && Later(u, after) ==> Ordinal(u.date) >= Ordinal(from) + SEARCH_LIMIT_DAYS
  }

  lemma AnyOf<T>(s: set<T>) returns (v: T)
    requires s != {}
    ensures v in s
  {
    v :| v in s;
  }

  /** A matching day after the candidate's day holds a later matching minute. */
  lemma MatchingDayFires(s: CronSpec, after: Local, from: Local, day: Date)
    requires IsSpec(s) && IsLocal(after) && Candidate(after) == Some(from)
    requires IsDate(day) && MatchesDay(s, day)
    requires Ordinal(from.date) < Ordinal(day) < Ordinal(from.date) + SEARCH_LIMIT_DAYS
    ensures !NeverWithin(s, after, from.date)
  {
    var h := AnyOf(s.hours);
    var m := AnyOf(s.minutes);
    var u := Local(day, h, m, 0);
    LaterMeansFromCandidate(after, u);
    MinutesOrder(from, u);
    assert Fires(s, u) && Later(u, after);
  }

  /** A restricted weekday always finds a day in the first week of a listed month next year. */
  lemma WeekdayFires(s: CronSpec, from: Date) returns (day: Date)
    requires IsSpec(s) && IsDate(from) && from.year < MAX_YEAR && s.dowRestricted
    ensures IsDate(day) && MatchesDay(s, day) && Ordinal(from) < Ordinal(day) < Ordinal(from) + SEARCH_LIMIT_DAYS
  {
    var m := AnyOf(s.months);
    var w := AnyOf(s.daysOfWeek);
    OccursSoon(from, m, 1);
    day := InFirstWeek(from.year + 1, m, w);
  }

  lemma InFirstWeek(y: int, m: int, w: int) returns (day: Date)
    requires 1 <= y <= MAX_YEAR && 1 <= m <= 12 && 0 <= w <= 6
    ensures IsDate(day) && day.month == m && CronWeekday(day) == w
    ensures Ordinal(Date(y, m, 1)) <= Ordinal(day) < Ordinal(Date(y, m, 1)) + 7
  {
    var k := (w - Ordinal(Date(y, m, 1))) % 7;
    day := Date(y, m, 1 + k);
    assert Ordinal(day) == Ordinal(Date(y, m, 1)) + k;
  }

  /** Every listed day that exists is 29 February. */
  ghost predicate OnlyLeapDays(s: CronSpec) {
    forall m, d :: m in s.months && d in s.daysOfMonth && d <= LongestMonth(m) ==> m == 2 && d == 29
  }

  /** A listed time of day at or after that of `from`. */
  ghost predicate TimeLeft(s: CronSpec, from: Local) {
    exists h, m :: h in s.hours && m in s.minutes && h * 60 + m >= from.hour * 60 + from.minute
  }

  /** Only leap days would do, and from here on the next is out of reach: a century year without one lies ahead. */
  ghost predicate MissesLeapDay(s: CronSpec, from: Local) {
    OnlyLeapDays(s) && LeapGap(from.date) && (IsLeapDay(from.date) ==> !TimeLeft(s, from))
  }

  /** A listed day that exists every year comes up within the horizon. */
  lemma YearlyDayFires(s: CronSpec, from: Date) returns (day: Date)
    requires IsSpec(s) && IsDate(from) && from.year < MAX_YEAR && !s.dowRestricted && !OnlyLeapDays(s)
    ensures IsDate(day) && MatchesDay(s, day) && Ordinal(from) < Ordinal(day) < Ordinal(from) + SEARCH_LIMIT_DAYS
  {
    var m, d :| m in s.months && d in s.daysOfMonth && d <= LongestMonth(m) && !(m == 2 && d == 29);
    OccursSoon(from, m, d);
    day := Date(from.year + 1, m, d);
    assert 0 <= CronWeekday(day) <= 6;
  }

  lemma OnlyLeapDaysMatch(s: CronSpec, d: Date)
    requires IsSpec(s) && IsDate(d) && !s.dowRestricted && OnlyLeapDays(s)
    ensures MatchesDay(s, d) ==> IsLeapDay(d)
    ensures SomeDayExists(s) && IsLeapDay(d) ==> MatchesDay(s, d)
  {
    assert 0 <= CronWeekday(d) <= 6 && d.day <= LongestMonth(d.month);
  }

  /** Only leap days would do, and one is within reach: a later day, or this one if a listed time is left. */
  lemma LeapDayFires(s: CronSpec, after: Local, from: Local)
    requires IsSpec(s) && IsLocal(after) && Candidate(after) == Some(from) && from.date.year + 4 <= MAX_YEAR
    requires !s.dowRestricted && SomeDayExists(s) && OnlyLeapDays(s) && !MissesLeapDay(s, from)
    ensures !NeverWithin(s, after, from.date)
  {
    hide LeapGap, MatchesDay, OnlyLeapDays, SomeDayExists;
    if LeapGap(from.date) {
      var h, m :| h in s.hours && m in s.minutes && h * 60 + m >= from.hour * 60 + from.minute;
      var u := Local(from.date, h, m, 0);
      OnlyLeapDaysMatch(s, u.date);
      LaterMeansFromCandidate(after, u);
      assert Fires(s, u) && Later(u, after);
    } else {
      var day := LeapDaySoon(from.date);
      OnlyLeapDaysMatch(s, day);
      MatchingDayFires(s, after, from, day);
    }
  }

  lemma SameDayTime(s: CronSpec, from: Local, u: Local)
    requires Fires(s, u) && u.date == from.date && Minutes(u) >= Minutes(from)
    ensures TimeLeft(s, from)
  {
    assert u.hour * 60 + u.minute >= from.hour * 60 + from.minute;
  }

  /** In the gap nothing is found. */
  lemma LeapDayIsMissed(s: CronSpec, after: Local, from: Local)
    requires IsSpec(s) && IsLocal(after) && Candidate(after) == Some(from)
    requires !s.dowRestricted && MissesLeapDay(s, from)
    ensures NeverWithin(s, after, from.date)
  {
    hide LeapGap, MatchesDay, OnlyLeapDays, TimeLeft, Ordinal, IsSpec;
    forall u | Fires(s, u) && Later(u, after) ensures Ordinal(u.date) >= Ordinal(from.date) + SEARCH_LIMIT_DAYS {
      OnlyLeapDaysMatch(s, u.date);
      LaterMeansFromCandidate(after, u);
      MinutesOrder(u, from);
      if Ordinal(u.date) == Ordinal(from.date) {
        OrdinalIsInjective(u.date, from.date);
        SameDayTime(s, from, u);
      }
      NoLeapDayInGap(from.date, u.date);
    }
  }

  lemma NoDayMatches(s: CronSpec, d: Date)
    requires IsDate(d) && !s.dowRestricted && !SomeDayExists(s)
    ensures !MatchesDay(s, d)
  {
    assert d.day <= LongestMonth(d.month);
  }

  /**
   Never firing is decided exactly, for every start whose horizon lies in the calendar: nothing is found if and only
   if the weekday field is `*` and either no listed day exists in any listed month, or only 29 February does and
   the start lies in the gap around a century year that has none.
   */
  lemma NeverFiresExactly(s: CronSpec, after: Local, from: Local)
    requires IsSpec(s) && IsLocal(after) && Candidate(after) == Some(from) && from.date.year + 4 <= MAX_YEAR
    ensures NeverWithin(s, after, from.date) <==> !s.dowRestricted && (!SomeDayExists(s) || MissesLeapDay(s, from))
  {
    hide MissesLeapDay, MatchesDay, OnlyLeapDays, NeverWithin, Ordinal;
    if s.dowRestricted {
      var day := WeekdayFires(s, from.date);
      MatchingDayFires(s, after, from, day);
    } else if !SomeDayExists(s) {
      NoDayFires(s, after, from);
    } else if !OnlyLeapDays(s) {
      var day := YearlyDayFires(s, from.date);
      MatchingDayFires(s, after, from, day);
      MissingNeedsLeapDays(s, from);
    } else if MissesLeapDay(s, from) {
      LeapDayIsMissed(s, after, from);
    } else {
      LeapDayFires(s, after, from);
    }
  }

  lemma MissingNeedsLeapDays(s: CronSpec, from: Local)
    ensures MissesLeapDay(s, from) ==> OnlyLeapDays(s)
  {
  }

  lemma NoDayFires(s: CronSpec, after: Local, from: Local)
    requires !s.dowRestricted && !SomeDayExists(s)
    ensures NeverWithin(s, after, from.date)
  {
    forall u ensures !Fires(s, u) {
      if IsLocal(u) {
        NoDayMatches(s, u.date);
      }
    }
  }

  /** So from 1901 to 2095 a search fails exactly for a weekday `*` and days that never exist. */
  lemma NeverFiresThisCentury(s: CronSpec, after: Local, from: Local)
    requires IsSpec(s) && IsLocal(after) && Candidate(after) == Some(from) && 1901 <= from.date.year <= 2095
    ensures NeverWithin(s, after, from.date) <==> !s.dowRestricted && !SomeDayExists(s)
  {
    NeverFiresExactly(s, after, from);
    NoGapThisCentury(from.date);
  }

  /** Every February 29 is a real schedule, yet a search starting on 1 March 1896 does not find one. */
  lemma LeapDayBeforeCenturyIsMissed(s: CronSpec, after: Local)
    requires IsSpec(s) && s.daysOfMonth == {29} && s.months == {2} && !s.dowRestricted
    requires after == Local(Date(1896, 2, 29), 23, 59, 0)
    ensures SomeDayExists(s) && Candidate(after) == Some(Local(Date(1896, 3, 1), 0, 0, 0))
    ensures NeverWithin(s, after, Date(1896, 3, 1))
  {
    assert 2 in s.months && 29 in s.daysOfMonth && 29 <= LongestMonth(2);
    NeverFiresExactly(s, after, Local(Date(1896, 3, 1), 0, 0, 0));
  }

  /** Up to 2095 the search never runs off the end of the calendar. */
  lemma FarFromOverflow(from: Date)
    requires IsDate(from) && from.year <= 2095
    ensures Ordinal(from) + SEARCH_LIMIT_DAYS <= Ordinal(LAST_DATE)
  {
    DayOfYearRange(from);
    DayOfYearRange(LAST_DATE);
    YearStep(from.year);
    YearsAscend(from.year + 1, MAX_YEAR);
  }

  // ----------------------------------------------------------------- parsing

  /** Turns a token into a number; None stands for the `ValueError` of `int`. */
  type Lexer = string -> Option<int>

  datatype Parsed<T> = Good(value: T) | Bad

  function IndexOf(s: string, c: char): (i: int)
    ensures -1 <= i < |s|
    ensures i >= 0 ==> s[i] == c && c !in s[..i]
    ensures i < 0 ==> c !in s
  {
    if s == "" then -1
    else if s[0] == c then 0
    else
      var i := IndexOf(s[1..], c);
      if i < 0 then
        assert s == [s[0]] + s[1..];
        -1
      else
        assert s[..i + 1] == [s[0]] + s[1..][..i];
        i + 1
  }

  /** `str.partition`: what precedes the first separator and what follows it (both whole when absent). */
  function Partition(s: string, c: char): (string, string) {
    var i := IndexOf(s, c);
    if i < 0 then (s, "") else (s[..i], s[i + 1..])
  }

  function Value(token: string, names: map<string, int>, lex: Lexer): Option<int> {
    if token in names then Some(names[token]) else lex(token)
  }

  predicate OnStep(v: int, start: int, step: int)
    requires step >= 1
  {
    (v - start) % step == 0
  }

  /** The values `start`, `start + step`, ... up to `end`. */
  function Progression(start: int, end: int, step: int): (s: set<int>)
    requires step >= 1
  {
    set v | start <= v < end + 1 && OnStep(v, start, step)
  }

  lemma ProgressionWithin(start: int, end: int, step: int)
    requires step >= 1
    ensures forall v :: v in Progression(start, end, step) ==> start <= v <= end
  {
  }

  /** What one comma-separated part denotes: bounds and step, or an error. */
  function Meaning(part: string, lo: int, hi: int, names: map<string, int>, lex: Lexer): Option<(int, int, int)> {
    var (body, stepText) := Partition(part, '/');
    var step := if stepText == "" then Some(1) else lex(stepText);
    if part == "" || step.None? || step.value < 1 then None
    else if body == "*" then Some((lo, hi, step.value))
    else if '-' in body then
      var (a, b) := Partition(body, '-');
      var start, end := Value(a, names, lex), Value(b, names, lex);
      if start.None? || end.None? || start.value > end.value || start.value < lo || end.value > hi then None
      else Some((start.value, end.value, step.value))
    else
      var v := Value(body, names, lex);
      if v.None? || v.value < lo || (stepText == "" && v.value > hi) then None
      else Some((v.value, if stepText != "" then hi else v.value, step.value))
  }

  method ParsePart(part: string, lo: int, hi: int, names: map<string, int>, lex: Lexer) returns (r: Parsed<set<int>>)
    requires lo <= hi
    ensures r.Bad? <==> Meaning(part, lo, hi, names, lex).None?
    ensures r.Good? ==>
              var m := Meaning(part, lo, hi, names, lex).value;
              m.2 >= 1 && r.value == Progression(m.0, m.1, m.2) && forall v :: v in r.value ==> lo <= v <= hi
  {
    hide IndexOf, Partition, Value, Progression, OnStep;
    if part == "" {
      return Bad;
    }
    var (body, stepText) := Partition(part, '/');
    var step := 1;
    if stepText != "" {
      var n := lex(stepText);
      if n.None? || n.value < 1 {
        return Bad;
      }
      step := n.value;
    }
    var start, end := lo, hi;
    if body != "*" {
      if '-' in body {
        var (a, b) := Partition(body, '-');
        var first, last := Value(a, names, lex), Value(b, names, lex);
        if first.None? || last.None? {
          return Bad;
        }
        start, end := first.value, last.value;
        if start > end {
          return Bad;
        }
      } else {
        var v := Value(body, names, lex);
        if v.None? {
          return Bad;
        }
        start, end := v.value, if stepText != "" then hi else v.value;
      }
    }
    if start < lo || end > hi {
      return Bad;
    }
    ProgressionWithin(start, end, step);
    r := Good(Progression(start, end, step));
  }

  /** An oversized value with a step denotes nothing, so beside another part it passes unnoticed. */
  lemma OversizedStepIsSilent(part: string, v: int, lo: int, hi: int, names: map<string, int>, lex: Lexer)
    requires var (body, stepText) := Partition(part, '/');
             && body != "*" && '-' !in body && Value(body, names, lex) == Some(v)
             && stepText != "" && lex(stepText).Some? && lex(stepText).value >= 1
    requires part != "" && lo <= hi < v
    ensures var m := Meaning(part, lo, hi, names, lex);
            m.Some? && Progression(m.value.0, m.value.1, m.value.2) == {}
  {
  }

  function Split(s: string, c: char): (parts: seq<string>)
    ensures parts != []
    decreases |s|
  {
    var i := IndexOf(s, c);
    if i < 0 then [s] else [s[..i]] + Split(s[i + 1..], c)
  }

  function Denotation(parts: seq<string>, lo: int, hi: int, names: map<string, int>, lex: Lexer): Option<set<int>> {
    if parts == [] then Some({})
    else
      var m := Meaning(parts[|parts| - 1], lo, hi, names, lex);
      var rest := Denotation(parts[..|parts| - 1], lo, hi, names, lex);
      if m.None? || rest.None? || m.value.2 < 1 then None
      else Some(rest.value + Progression(m.value.0, m.value.1, m.value.2))
  }

  lemma {:induction false} DenotationFails(parts: seq<string>, k: nat, lo: int, hi: int, names: map<string, int>, lex: Lexer)
    requires k <= |parts| && Denotation(parts[..k], lo, hi, names, lex).None?
    ensures Denotation(parts, lo, hi, names, lex).None?
  {
    if k < |parts| {
      assert parts[..|parts| - 1][..k] == parts[..k];
      DenotationFails(parts[..|parts| - 1], k, lo, hi, names, lex);
    } else {
      assert parts[..k] == parts;
    }
  }

  lemma DenotationGrows(parts: seq<string>, i: nat, lo: int, hi: int, names: map<string, int>, lex: Lexer)
    requires i < |parts|
    ensures var m, rest := Meaning(parts[i], lo, hi, names, lex), Denotation(parts[..i], lo, hi, names, lex);
            Denotation(parts[..i + 1], lo, hi, names, lex) ==
              if m.None? || rest.None? || m.value.2 < 1 then None
              else Some(rest.value + Progression(m.value.0, m.value.1, m.value.2))
  {
    hide Meaning, Progression;
    assert parts[..i + 1][..i] == parts[..i];
  }

  lemma NoParts(parts: seq<string>, lo: int, hi: int, names: map<string, int>, lex: Lexer)
    ensures Denotation(parts[..0], lo, hi, names, lex) == Some({})
  {
  }

  /** The field does not parse, or names no value. */
  predicate Nothing(field: string, lo: int, hi: int, names: map<string, int>, lex: Lexer) {
    Denotation(Split(field, ','), lo, hi, names, lex) in {None, Some({})}
  }

  /** A field is the union of its parts; it must parse in full and name at least one value. */
  method ParseField(field: string, lo: int, hi: int, names: map<string, int>, lex: Lexer) returns (r: Parsed<set<int>>)
    requires lo <= hi
    ensures r.Good? ==> Within(r.value, lo, hi) && Denotation(Split(field, ','), lo, hi, names, lex) == Some(r.value)
    ensures r.Bad? <==> Nothing(field, lo, hi, names, lex)
  {
    hide Meaning, Progression;
    var parts := Split(field, ',');
    r := JoinParts(parts, lo, hi, names, lex);
    if r.Good? && r.value == {} {
      r := Bad;
    }
  }

  method JoinParts(parts: seq<string>, lo: int, hi: int, names: map<string, int>, lex: Lexer)
    returns (r: Parsed<set<int>>)
    requires lo <= hi
    ensures r.Bad? <==> Denotation(parts, lo, hi, names, lex).None?
    ensures r.Good? ==> Denotation(parts, lo, hi, names, lex) == Some(r.value) && forall v :: v in r.value ==> lo <= v <= hi
  {
    hide Meaning, Progression, Denotation;
    var values: set<int> := {};
    NoParts(parts, lo, hi, names, lex);
    for i := 0 to |parts|
      invariant Denotation(parts[..i], lo, hi, names, lex) == Some(values)
      invariant forall v :: v in values ==> lo <= v <= hi
    {
      var one := ParsePart(parts[i], lo, hi, names, lex);
      DenotationGrows(parts, i, lo, hi, names, lex);
      if one.Bad? {
        DenotationFails(parts, i + 1, lo, hi, names, lex);
        return Bad;
      }
      values := values + one.value;
    }
    assert parts[..|parts|] == parts;
    r := Good(values);
  }

  const MONTH_NAMES: map<string, int> := map[
    "jan" := 1, "feb" := 2, "mar" := 3, "apr" := 4, "may" := 5, "jun" := 6,
    "jul" := 7, "aug" := 8, "sep" := 9, "oct" := 10, "nov" := 11, "dec" := 12]

  const DOW_NAMES: map<string, int> := map[
    "sun" := 0, "mon" := 1, "tue" := 2, "wed" := 3, "thu" := 4, "fri" := 5, "sat" := 6]

  /** Both 0 and 7 mean Sunday. */
  function FoldSunday(dow: set<int>): set<int> {
    if 7 in dow then (dow + {0}) - {7} else dow
  }

  lemma SundayStays(dow: set<int>)
    requires Within(dow, 0, 7)
    ensures Within(FoldSunday(dow), 0, 6) && (Full(dow, 0, 7) ==> Full(FoldSunday(dow), 0, 6))
  {
    var d := AnyOf(dow);
    assert (if d == 7 then 0 else d) in FoldSunday(dow);
  }

  lemma StarIsFull(lo: int, hi: int, names: map<string, int>, lex: Lexer)
    requires lo <= hi
    ensures Denotation(Split("*", ','), lo, hi, names, lex) == Some(Progression(lo, hi, 1))
    ensures Full(Progression(lo, hi, 1), lo, hi)
  {
    assert IndexOf("*", ',') == -1 && IndexOf("*", '/') == -1;
    assert Split("*", ',') == ["*"];
    assert Meaning("*", lo, hi, names, lex) == Some((lo, hi, 1));
    assert ["*"][..0] == [];
    assert Denotation([], lo, hi, names, lex) == Some({});
    assert {} + Progression(lo, hi, 1) == Progression(lo, hi, 1);
    forall v | lo <= v <= hi ensures v in Progression(lo, hi, 1) {
      assert OnStep(v, lo, 1);
    }
  }

  /** Some field is missing, does not parse or names nothing. */
  predicate Malformed(fields: seq<string>, lex: Lexer) {
    || |fields| != 5
    || Nothing(fields[0], 0, 59, map[], lex) || Nothing(fields[1], 0, 23, map[], lex)
    || Nothing(fields[2], 1, 31, map[], lex) || Nothing(fields[3], 1, 12, MONTH_NAMES, lex)
    || Nothing(fields[4], 0, 7, DOW_NAMES, lex)
  }

  /** The specification holds exactly what the five fields denote. */
  ghost predicate Denotes(fields: seq<string>, lex: Lexer, s: CronSpec) {
    && |fields| == 5
    && Denotation(Split(fields[0], ','), 0, 59, map[], lex) == Some(s.minutes)
    && Denotation(Split(fields[1], ','), 0, 23, map[], lex) == Some(s.hours)
    && Denotation(Split(fields[2], ','), 1, 31, map[], lex) == Some(s.daysOfMonth)
    && Denotation(Split(fields[3], ','), 1, 12, MONTH_NAMES, lex) == Some(s.months)
    && (exists dow :: Denotation(Split(fields[4], ','), 0, 7, DOW_NAMES, lex) == Some(dow)
                      && s.daysOfWeek == FoldSunday(dow))
    && s.domRestricted == (fields[2] != "*") && s.dowRestricted == (fields[4] != "*")
  }

  /** Parses lower-cased, whitespace-separated fields; whatever parses satisfies the search's assumptions. */
  method ParseCron(fields: seq<string>, lex: Lexer) returns (r: Parsed<CronSpec>)
    ensures r.Good? ==> IsSpec(r.value) && Denotes(fields, lex, r.value)
    ensures r.Bad? <==> Malformed(fields, lex)
  {
    hide Denotation, Split, Progression, IndexOf, Nothing, Within;
    if |fields| != 5 {
      return Bad;
    }
    var minutes := ParseField(fields[0], 0, 59, map[], lex);
    var hours := ParseField(fields[1], 0, 23, map[], lex);
    var dom := ParseField(fields[2], 1, 31, map[], lex);
    var months := ParseField(fields[3], 1, 12, MONTH_NAMES, lex);
    var dow := ParseField(fields[4], 0, 7, DOW_NAMES, lex);
    if minutes.Bad? || hours.Bad? || dom.Bad? || months.Bad? || dow.Bad? {
      return Bad;
    }
    StarIsFull(1, 31, map[], lex);
    StarIsFull(0, 7, DOW_NAMES, lex);
    SundayStays(dow.value);
    r := Good(CronSpec(minutes.value, hours.value, dom.value, months.value, FoldSunday(dow.value),
                       fields[2] != "*", fields[4] != "*"));
  }
}
