/**
 The scheduler: creation, firing by the loop and by hand, interleaved at the launches' awaits, and restarts
 that recompute every next run.
 */
module Scheduler {
  import opened Envelope
  import opened Calendar
  import opened Cron

  /** The search from `now` stays inside the calendar (the last four years of `datetime` are excluded). */
  ghost predicate InCalendar(now: Local) {
    && IsLocal(now) && Candidate(now).Some?
    && Ordinal(Candidate(now).value.date) + SEARCH_LIMIT_DAYS <= Ordinal(LAST_DATE)
  }

  /** What `next_fire` returns as a schedule's next run. */
  ghost predicate IsNextRun(s: CronSpec, now: Local, next: Option<Local>)
    requires InCalendar(now)
  {
    match next
    case Some(t) => IsNext(s, now, t) && Ordinal(t.date) < Ordinal(Candidate(now).value.date) + SEARCH_LIMIT_DAYS
    case None => NeverWithin(s, now, Candidate(now).value.date)
  }

  lemma NextRunIsUnique(s: CronSpec, now: Local, a: Option<Local>, b: Option<Local>)
    requires InCalendar(now) && IsNextRun(s, now, a) && IsNextRun(s, now, b)
    ensures a == b
  {
    if a.Some? && b.Some? {
      NextIsUnique(s, now, a.value, b.value);
    }
  }

  // -------------------------------------------------------- order of moments

  lemma CandidatesAscend(a: Local, b: Local)
    requires InCalendar(a) && InCalendar(b) && !Later(a, b)
    ensures Ordinal(Candidate(a).value.date) <= Ordinal(Candidate(b).value.date)
  {
    CandidateIsNextMinute(a);
    CandidateIsNextMinute(b);
    MinutesOrder(Candidate(b).value, Candidate(a).value);
  }

  /** Recomputing later but before the pending run finds the same run. */
  lemma EarlyRecomputeIsStable(s: CronSpec, at: Local, now: Local, next: Local, again: Option<Local>)
    requires InCalendar(at) && InCalendar(now) && !Later(at, now)
    requires IsNextRun(s, at, Some(next)) && Later(next, now) && IsNextRun(s, now, again)
    ensures again == Some(next)
  {
    CandidatesAscend(at, now);
    assert IsNextRun(s, now, Some(next));
    NextRunIsUnique(s, now, again, Some(next));
  }

  // -------------------------------------------------------- the interleavings

  /**
   One schedule object. `at` (auxiliary) is the time its next run was computed from, `peak` the last next run
   it ever had, `fired` the due times consumed by the loop.
   */
  datatype Entry = Entry(spec: CronSpec, next: Option<Local>, at: Local, peak: Local, fired: seq<Local>)

  datatype World = World(
    clock: Local, objects: map<Ulid, Entry>, listed: set<Ulid>,
    loopNow: Local, toVisit: seq<Ulid>)

  datatype Action =
    | Tick(now: Local)
    | Create(id: Ulid, spec: CronSpec, first: Local)
    | Delete(id: Ulid)
    | TriggerNow(id: Ulid, next: Option<Local>)
    | PassBegins(order: seq<Ulid>)
    | Visit(next: Option<Local>)
    | Restart(nexts: map<Ulid, Option<Local>>)

  predicate Due(e: Entry, now: Local) {
    e.next.Some? && !Later(e.next.value, now)
  }

  function Recomputed(e: Entry, now: Local, next: Option<Local>): Entry {
    e.(next := next, at := now, peak := if next.Some? then next.value else e.peak)
  }

  /** A pass works on a snapshot: deleting a schedule does not take it off the list being visited. */
  ghost predicate WellFormed(w: World) {
    && InCalendar(w.clock) && InCalendar(w.loopNow)
    && w.listed <= w.objects.Keys && forall id :: id in w.toVisit ==> id in w.objects
  }

  /** The `next` an action carries is what `next_fire` computes there. */
  ghost predicate Enabled(w: World, a: Action)
    requires WellFormed(w)
  {
    match a
    case Tick(now) => InCalendar(now) && !Later(w.clock, now)
    case Create(id, spec, first) => id !in w.objects && IsSpec(spec) && IsNextRun(spec, w.clock, Some(first))
    case Delete(id) => id in w.listed
    case TriggerNow(id, next) => id in w.listed && IsNextRun(w.objects[id].spec, w.clock, next)
    case PassBegins(order) => w.toVisit == [] && forall id :: id in order <==> id in w.listed
    case Visit(next) => w.toVisit != [] && IsNextRun(w.objects[w.toVisit[0]].spec, w.loopNow, next)
    case Restart(nexts) =>
      nexts.Keys == w.listed && forall id :: id in w.listed ==> IsNextRun(w.objects[id].spec, w.clock, nexts[id])
  }

  ghost function Step(w: World, a: Action): World
    requires WellFormed(w) && Enabled(w, a)
  {
    match a
    case Tick(now) => w.(clock := now)
    case Create(id, spec, first) =>
      w.(objects := w.objects[id := Entry(spec, Some(first), w.clock, first, [])], listed := w.listed + {id})
    case Delete(id) => w.(listed := w.listed - {id})
    case TriggerNow(id, next) => w.(objects := w.objects[id := Recomputed(w.objects[id], w.clock, next)])
    case PassBegins(order) => w.(loopNow := w.clock, toVisit := order)
    case Visit(next) =>
      var id := w.toVisit[0];
      var e := w.objects[id];
      if Due(e, w.loopNow) then
        w.(objects := w.objects[id := Recomputed(e, w.loopNow, next).(fired := e.fired + [e.next.value])],
           toVisit := w.toVisit[1..])
      else w.(toVisit := w.toVisit[1..])
    case Restart(nexts) =>
      w.(objects := map id | id in w.objects ::
                      if id in w.listed then Recomputed(w.objects[id], w.clock, nexts[id]) else w.objects[id],
         loopNow := w.clock, toVisit := [])
  }

  ghost predicate EntryOk(e: Entry, clock: Local) {
    && IsSpec(e.spec) && InCalendar(e.at) && !Later(e.at, clock)
    && IsNextRun(e.spec, e.at, e.next)
    && (if e.next.Some? then e.peak == e.next.value else !Later(e.peak, e.at))
    && (forall i :: 0 <= i < |e.fired| ==> !Later(e.fired[i], e.at))
    && (forall i, j :: 0 <= i < j < |e.fired| ==> Later(e.fired[j], e.fired[i]))
  }

  ghost predicate Inv(w: World) {
    && WellFormed(w) && !Later(w.loopNow, w.clock)
    && forall id :: id in w.objects ==> EntryOk(w.objects[id], w.clock)
  }

  /** What may happen to one schedule in one step. */
  ghost predicate Advances(e: Entry, f: Entry) {
    && !Later(e.peak, f.peak)
    && (e.next.Some? && f.next.Some? ==> !Later(e.next.value, f.next.value))
    && (f.fired == e.fired || (e.next.Some? && f.fired == e.fired + [e.next.value]))
  }

  lemma TriggerOk(e: Entry, clock: Local, next: Option<Local>)
    requires InCalendar(clock) && EntryOk(e, clock) && IsNextRun(e.spec, clock, next)
    ensures EntryOk(Recomputed(e, clock, next), clock) && Advances(e, Recomputed(e, clock, next))
  {
    if e.next.Some? && Later(e.next.value, clock) {
      EarlyRecomputeIsStable(e.spec, e.at, clock, e.next.value, next);
    }
  }

  lemma VisitOk(e: Entry, now: Local, clock: Local, next: Option<Local>)
    requires InCalendar(now) && InCalendar(clock) && !Later(now, clock)
    requires EntryOk(e, clock) && Due(e, now) && IsNextRun(e.spec, now, next)
    ensures var f := Recomputed(e, now, next).(fired := e.fired + [e.next.value]);
            && EntryOk(f, clock) && Advances(e, f)
            && (next.Some? ==> Later(next.value, now) && Later(next.value, e.next.value))
  {
    assert Later(e.next.value, e.at);
  }

  lemma LaterClock(e: Entry, clock: Local, now: Local)
    requires EntryOk(e, clock) && !Later(clock, now)
    ensures EntryOk(e, now)
  {
  }

  lemma Unmoved(e: Entry)
    ensures Advances(e, e)
  {
  }

  lemma CreatedOk(spec: CronSpec, first: Local, clock: Local)
    requires InCalendar(clock) && IsSpec(spec) && IsNextRun(spec, clock, Some(first))
    ensures EntryOk(Entry(spec, Some(first), clock, first, []), clock)
  {
  }

  lemma StepEntry(w: World, a: Action, id: Ulid)
    requires Inv(w) && Enabled(w, a) && id in w.objects
    ensures id in Step(w, a).objects
    ensures EntryOk(Step(w, a).objects[id], Step(w, a).clock) && Advances(w.objects[id], Step(w, a).objects[id])
  {
    hide EntryOk, Advances, IsNextRun, InCalendar, Later, IsSpec, Due, Recomputed;
    var e := w.objects[id];
    Unmoved(e);
    match a
    case Tick(now) => LaterClock(e, w.clock, now);
    case TriggerNow(t, next) =>
      if t == id {
        TriggerOk(e, w.clock, next);
      }
    case Visit(next) =>
      if w.toVisit[0] == id && Due(e, w.loopNow) {
        VisitOk(e, w.loopNow, w.clock, next);
      }
    case Restart(nexts) =>
      if id in w.listed {
        TriggerOk(e, w.clock, nexts[id]);
      }
    case _ =>
  }

  lemma StepKeeps(w: World, a: Action)
    requires Inv(w) && Enabled(w, a)
    ensures Inv(Step(w, a))
  {
    hide EntryOk, Advances, IsNextRun, InCalendar, IsSpec, Due, Recomputed;
    var v := Step(w, a);
    forall id | id in v.objects ensures EntryOk(v.objects[id], v.clock) {
      if id in w.objects {
        StepEntry(w, a, id);
      } else {
        CreatedOk(a.spec, a.first, w.clock);
      }
    }
    assert w.objects.Keys <= v.objects.Keys;
    if a.Visit? {
      assert forall id :: id in v.toVisit ==> id in w.toVisit;
    }
  }

  ghost predicate IsRun(worlds: seq<World>, actions: seq<Action>) {
    && |worlds| == |actions| + 1
    && InCalendar(worlds[0].clock) && worlds[0] == World(worlds[0].clock, map[], {}, worlds[0].clock, [])
    && forall i :: 0 <= i < |actions| ==>
         WellFormed(worlds[i]) && Enabled(worlds[i], actions[i]) && worlds[i + 1] == Step(worlds[i], actions[i])
  }

  lemma {:induction false} RunKeeps(worlds: seq<World>, actions: seq<Action>, i: nat)
    requires IsRun(worlds, actions) && i < |worlds|
    ensures Inv(worlds[i])
  {
    if i > 0 {
      RunKeeps(worlds, actions, i - 1);
      StepKeeps(worlds[i - 1], actions[i - 1]);
    }
  }

  lemma {:induction false} PeakNeverDecreases(worlds: seq<World>, actions: seq<Action>, i: nat, j: nat, id: Ulid)
    requires IsRun(worlds, actions) && i <= j < |worlds| && id in worlds[i].objects
    ensures id in worlds[j].objects && !Later(worlds[i].objects[id].peak, worlds[j].objects[id].peak)
    decreases j
  {
    hide EntryOk, Step, IsNextRun, InCalendar, Enabled, IsSpec;
    if i < j {
      PeakNeverDecreases(worlds, actions, i, j - 1, id);
      RunKeeps(worlds, actions, j - 1);
      StepEntry(worlds[j - 1], actions[j - 1], id);
    }
  }

  /** Over any run a schedule's next run never decreases, even across restarts and periods without one. */
  lemma NextRunNeverDecreases(worlds: seq<World>, actions: seq<Action>, i: nat, j: nat, id: Ulid)
    requires IsRun(worlds, actions) && i <= j < |worlds| && id in worlds[i].objects
    ensures id in worlds[j].objects
    ensures worlds[i].objects[id].next.Some? && worlds[j].objects[id].next.Some? ==>
              !Later(worlds[i].objects[id].next.value, worlds[j].objects[id].next.value)
  {
    PeakNeverDecreases(worlds, actions, i, j, id);
    RunKeeps(worlds, actions, i);
    RunKeeps(worlds, actions, j);
    assert EntryOk(worlds[i].objects[id], worlds[i].clock);
    assert EntryOk(worlds[j].objects[id], worlds[j].clock);
  }

  /** No slot fires twice from the loop, whatever runs are triggered by hand or restarts come in between. */
  lemma NoSlotFiresTwice(worlds: seq<World>, actions: seq<Action>, i: nat, id: Ulid, a: nat, b: nat)
    requires IsRun(worlds, actions) && i < |worlds| && id in worlds[i].objects
    requires a < |worlds[i].objects[id].fired| && b < |worlds[i].objects[id].fired| && a != b
    ensures worlds[i].objects[id].fired[a] != worlds[i].objects[id].fired[b]
  {
    RunKeeps(worlds, actions, i);
    var fired := worlds[i].objects[id].fired;
    assert if a < b then Later(fired[b], fired[a]) else Later(fired[a], fired[b]);
  }

  /** A backlog collapses: after the loop has visited a schedule, nothing of it is due at the pass's time. */
  lemma BacklogCollapses(w: World, next: Option<Local>)
    requires Inv(w) && Enabled(w, Visit(next))
    ensures var id := w.toVisit[0];
            var v := Step(w, Visit(next));
            && !Due(v.objects[id], w.loopNow)
            && |v.objects[id].fired| <= |w.objects[id].fired| + 1
  {
    var e := w.objects[w.toVisit[0]];
    if Due(e, w.loopNow) {
      VisitOk(e, w.loopNow, w.clock, next);
    }
  }

  /** A due schedule that the loop comes to is launched for its due time and gets its next run; others are left alone. */
  lemma DueIsLaunched(w: World, next: Option<Local>)
    requires Inv(w) && Enabled(w, Visit(next))
    ensures var id := w.toVisit[0];
            var e, v := w.objects[id], Step(w, Visit(next));
            && v.toVisit == w.toVisit[1..] && v.listed == w.listed
            && (forall j :: j in w.objects && j != id ==> j in v.objects && v.objects[j] == w.objects[j])
            && if e.next.Some? && !Later(e.next.value, w.loopNow)
               then v.objects[id].fired == e.fired + [e.next.value] && v.objects[id].next == next && v.objects[id].spec == e.spec
               else v.objects[id] == e
  {
    hide IsNextRun, InCalendar, EntryOk, IsSpec, Later;
  }

  /** Creating lists a schedule with its first run; deleting takes it off the list; a trigger moves its next run only. */
  lemma CommandsInWords(w: World, id: Ulid, spec: CronSpec, first: Local, next: Option<Local>)
    requires Inv(w)
    ensures Enabled(w, Create(id, spec, first)) ==>
              var v := Step(w, Create(id, spec, first));
              && v.listed == w.listed + {id} && v.objects == w.objects[id := v.objects[id]]
              && v.objects[id].spec == spec && v.objects[id].next == Some(first) && v.objects[id].fired == []
    ensures Enabled(w, Delete(id)) ==> Step(w, Delete(id)) == w.(listed := w.listed - {id})
    ensures Enabled(w, TriggerNow(id, next)) ==>
              var v := Step(w, TriggerNow(id, next));
              && v.listed == w.listed && v.objects == w.objects[id := v.objects[id]]
              && v.objects[id].spec == w.objects[id].spec && v.objects[id].next == next
              && v.objects[id].fired == w.objects[id].fired
  {
    hide IsNextRun, InCalendar, EntryOk, IsSpec, Later;
  }

  /** A pass comes to every listed schedule. */
  lemma PassSeesAll(w: World, order: seq<Ulid>)
    requires Inv(w) && Enabled(w, PassBegins(order))
    ensures var v := Step(w, PassBegins(order));
            v.loopNow == w.clock && v.objects == w.objects && forall id :: id in w.listed ==> id in v.toVisit
  {
    hide IsNextRun, InCalendar, EntryOk, IsSpec, Later;
  }

  /** A restart sets the next run of every listed schedule anew from the clock, whatever was missed. */
  lemma RestartRecomputes(w: World, nexts: map<Ulid, Option<Local>>)
    requires Inv(w) && Enabled(w, Restart(nexts))
    ensures var v := Step(w, Restart(nexts));
            forall id :: id in w.listed ==>
              && id in v.objects && IsNextRun(w.objects[id].spec, w.clock, v.objects[id].next)
              && v.objects[id].fired == w.objects[id].fired && v.objects[id].spec == w.objects[id].spec
  {
    hide IsNextRun, InCalendar, EntryOk, IsSpec, Later;
  }

  // ------------------------------------------------------------------- sleep

  /** Microseconds since year 1. */
  function Micros(t: Local): int {
    Minutes(t) * 60_000_000 + t.micros
  }

  /** The sleep ends when `t` is due, or `t` is due already and there is none. */
  predicate DueAfter(t: Local, now: Local, sleep: nat) {
    Micros(t) == Micros(now) + sleep || (Micros(t) <= Micros(now) && sleep == 0)
  }

  /** The loop wakes by the poll cap, and by the earliest due time when that comes first. */
  method SleepMicros(upcoming: seq<Local>, now: Local, cap: nat) returns (sleep: nat)
    ensures sleep <= cap
    ensures forall t :: t in upcoming ==>
              Micros(now) + sleep <= if Micros(t) > Micros(now) then Micros(t) else Micros(now)
    ensures sleep == cap || exists t :: t in upcoming && DueAfter(t, now, sleep)
  {
    if upcoming == [] {
      return cap;
    }
    var first := upcoming[0];
    for i := 1 to |upcoming|
      invariant first in upcoming
      invariant forall t :: t in upcoming[..i] ==> Micros(first) <= Micros(t)
    {
      assert upcoming[..i + 1] == upcoming[..i] + [upcoming[i]];
      if Micros(upcoming[i]) < Micros(first) {
        first := upcoming[i];
      }
    }
    assert upcoming[..|upcoming|] == upcoming;
    var delta := Micros(first) - Micros(now);
    var waiting: nat := if delta > 0 then delta else 0;
    sleep := if waiting < cap then waiting else cap;
  }

  // ----------------------------------------------------------------- service

  class Schedule {
    const id: Ulid
    const spec: CronSpec
    var nextRunAt: Option<Local>
    var lastTriggeredAt: Option<Local>

    constructor (id: Ulid, spec: CronSpec, first: Local)
      ensures this.id == id && this.spec == spec && nextRunAt == Some(first) && lastTriggeredAt == None
    {
      this.id, this.spec, nextRunAt, lastTriggeredAt := id, spec, Some(first), None;
    }
  }

  datatype Launch = Launched(session: Ulid) | LaunchFailed

  datatype Fact =
    | ScheduleCreated(id: Ulid, spec: CronSpec, first: Local)
    | ScheduleDeleted(id: Ulid)
    | ScheduleTriggered(id: Ulid, launch: Launch)

  datatype Creation = Unparsable | NeverFires(rejected: CronSpec) | Created(schedule: Schedule)

  ghost predicate InExactYears(now: Local)
    requires InCalendar(now)
  {
    1901 <= Candidate(now).value.date.year <= 2095
  }

  /** A listed day exists, and from here on one is within reach. */
  ghost predicate CanFire(s: CronSpec, now: Local)
    requires InCalendar(now)
  {
    s.dowRestricted || (SomeDayExists(s) && !MissesLeapDay(s, Candidate(now).value))
  }

  lemma FourYearsLeft(now: Local)
    requires InCalendar(now)
    ensures Candidate(now).value.date.year + 4 <= MAX_YEAR
  {
    var d := Candidate(now).value.date;
    if d.year + 4 > MAX_YEAR {
      LateStart(d);
    }
  }

  lemma LateStart(d: Date)
    requires IsDate(d) && d.year + 3 >= MAX_YEAR
    ensures Ordinal(d) + SEARCH_LIMIT_DAYS > Ordinal(LAST_DATE)
  {
    DayOfYearRange(d);
    DayOfYearRange(LAST_DATE);
    YearsAscend(d.year, MAX_YEAR);
  }

  method FirstRun(spec: CronSpec, now: Local) returns (r: Option<Local>)
    requires InCalendar(now) && IsSpec(spec)
    ensures IsNextRun(spec, now, r) && (r.Some? <==> CanFire(spec, now))
    ensures InExactYears(now) ==> (r.Some? <==> spec.dowRestricted || SomeDayExists(spec))
  {
    var found := NextFire(spec, now);
    r := if found.Fire? then Some(found.at) else None;
    FourYearsLeft(now);
    NeverFiresExactly(spec, now, Candidate(now).value);
    if InExactYears(now) {
      NoGapThisCentury(Candidate(now).value.date);
    }
  }

  class SchedulerService {
    var schedules: map<Ulid, Schedule>
    var wake: bool   // the sleeping loop has been told to look again

    ghost predicate Valid()
      reads this
    {
      forall id :: id in schedules ==> schedules[id].id == id && IsSpec(schedules[id].spec)
    }

    constructor ()
      ensures Valid() && schedules == map[] && !wake
    {
      schedules, wake := map[], false;
    }

    /**
     Rejects what does not parse and what never fires, which is decided exactly (`CanFire`); for clocks from 1901 to
     2095 the latter means: weekday `*` and no listed day exists in any listed month. Only a new schedule is
     announced and wakes the loop.
     */
    method CreateSchedule(id: Ulid, fields: seq<string>, lex: Lexer, now: Local)
      returns (r: Creation, issued: Option<Fact>)
      requires Valid() && InCalendar(now)
      modifies this
      ensures Valid()
      ensures !r.Created? ==> schedules == old(schedules) && wake == old(wake) && issued == None
      ensures r.Unparsable? <==> Malformed(fields, lex)
      ensures r.Created? ==>
                && fresh(r.schedule) && r.schedule.id == id && schedules == old(schedules)[id := r.schedule]
                && IsSpec(r.schedule.spec) && Denotes(fields, lex, r.schedule.spec) && r.schedule.nextRunAt.Some?
                && IsNextRun(r.schedule.spec, now, r.schedule.nextRunAt)
                && CanFire(r.schedule.spec, now)
      ensures r.Created? ==> wake && issued == Some(ScheduleCreated(id, r.schedule.spec, r.schedule.nextRunAt.value))
      ensures r.NeverFires? ==>
                && Denotes(fields, lex, r.rejected) && IsSpec(r.rejected) && !CanFire(r.rejected, now)
                && (InExactYears(now) ==> !r.rejected.dowRestricted && !SomeDayExists(r.rejected))
    {
      var parsed := ParseCron(fields, lex);
      if parsed.Bad? {
        return Unparsable, None;
      }
      var first := FirstRun(parsed.value, now);
      if first.None? {
        return NeverFires(parsed.value), None;
      }
      var schedule := new Schedule(id, parsed.value, first.value);
      schedules, wake := schedules[id := schedule], true;
      r, issued := Created(schedule), Some(ScheduleCreated(id, parsed.value, first.value));
    }

    /** An unknown schedule is refused without a trace; a known one goes, is announced and wakes the loop. */
    method DeleteSchedule(id: Ulid) returns (known: bool, issued: Option<Fact>)
      requires Valid()
      modifies this
      ensures Valid() && known == (id in old(schedules))
      ensures schedules == old(schedules) - {id} && wake == (known || old(wake))
      ensures issued == if known then Some(ScheduleDeleted(id)) else None
    {
      known, issued := id in schedules, None;
      if known {
        schedules, wake := schedules - {id}, true;
        issued := Some(ScheduleDeleted(id));
      }
    }

    /** One firing up to its launch: both time fields change before anything is awaited. */
    method Fire(schedule: Schedule, now: Local)
      requires InCalendar(now) && IsSpec(schedule.spec)
      modifies schedule
      ensures schedule.lastTriggeredAt == Some(now)
      ensures IsNextRun(schedule.spec, now, schedule.nextRunAt)
    {
      schedule.lastTriggeredAt := Some(now);
      var next := FirstRun(schedule.spec, now);
      schedule.nextRunAt := next;
    }

    /**
     Fires by hand, on the same path as the loop; an unknown schedule changes nothing. A launch that fails is
     announced like one that succeeds, and the schedule stays fired.
     */
    method TriggerNow(id: Ulid, now: Local, launch: Launch) returns (known: bool, issued: Option<Fact>)
      requires Valid() && InCalendar(now)
      modifies schedules.Values
      ensures known == (id in schedules)
      ensures issued == if known then Some(ScheduleTriggered(id, launch)) else None
      ensures known ==> schedules[id].lastTriggeredAt == Some(now)
                        && IsNextRun(schedules[id].spec, now, schedules[id].nextRunAt)
      ensures forall s :: s in schedules.Values && (known ==> s != schedules[id]) ==>
                s.nextRunAt == old(s.nextRunAt) && s.lastTriggeredAt == old(s.lastTriggeredAt)
    {
      known, issued := id in schedules, None;
      if known {
        Fire(schedules[id], now);
        issued := Some(ScheduleTriggered(id, launch));
      }
    }

    /** The end of a rebuild: every next run is recomputed from now, whatever was missed while down. */
    method RecomputeRuns(all: seq<Schedule>, now: Local)
      requires InCalendar(now) && forall s :: s in all ==> IsSpec(s.spec)
      modifies all
      ensures forall s :: s in all ==>
                IsNextRun(s.spec, now, s.nextRunAt) && s.lastTriggeredAt == old(s.lastTriggeredAt)
    {
      for i := 0 to |all|
        invariant forall s :: s in all ==> s.lastTriggeredAt == old(s.lastTriggeredAt)
        invariant forall k :: 0 <= k < i ==> IsNextRun(all[k].spec, now, all[k].nextRunAt)
      {
        var next := FirstRun(all[i].spec, now);
        all[i].nextRunAt := next;
      }
    }

    /** One undisturbed pass over the snapshot: exactly the due schedules fire, once, and none stays due. */
    method RunPass(snapshot: seq<Schedule>, now: Local)
      requires InCalendar(now) && forall s :: s in snapshot ==> IsSpec(s.spec)
      requires forall i, j :: 0 <= i < j < |snapshot| ==> snapshot[i] != snapshot[j]
      modifies snapshot
      ensures forall i :: 0 <= i < |snapshot| ==>
                var s := snapshot[i];
                var due := old(s.nextRunAt).Some? && !Later(old(s.nextRunAt).value, now);
                if due then s.lastTriggeredAt == Some(now) && IsNextRun(s.spec, now, s.nextRunAt)
                else s.lastTriggeredAt == old(s.lastTriggeredAt) && s.nextRunAt == old(s.nextRunAt)
      ensures forall s :: s in snapshot ==> s.nextRunAt.Some? ==> Later(s.nextRunAt.value, now)
    {
      for i := 0 to |snapshot|
        invariant forall k :: i <= k < |snapshot| ==>
                    && snapshot[k].nextRunAt == old(snapshot[k].nextRunAt)
                    && snapshot[k].lastTriggeredAt == old(snapshot[k].lastTriggeredAt)
        invariant forall k :: 0 <= k < i ==>
                    var s := snapshot[k];
                    var due := old(s.nextRunAt).Some? && !Later(old(s.nextRunAt).value, now);
                    if due then s.lastTriggeredAt == Some(now) && IsNextRun(s.spec, now, s.nextRunAt)
                    else s.lastTriggeredAt == old(s.lastTriggeredAt) && s.nextRunAt == old(s.nextRunAt)
      {
        var s := snapshot[i];
        if s.nextRunAt.Some? && !Later(s.nextRunAt.value, now) {
          Fire(s, now);
        }
      }
    }
  }
}
