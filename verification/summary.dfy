/** The periodic digest: each run counts the events since the previous run, at most one period back. */
module Summary {
  import opened Envelope
  import opened EventLog
  import R = Retention

  /** Instants are microseconds; the id boundary of one is cut down to its millisecond. */
  type Instant = nat

  function Boundary(t: Instant): Ulid { R.MinUlidAt(t / 1000) }

  /** Both ends are exclusive. */
  function Window(start: Instant, end: Instant): Query {
    Query(Some(Boundary(start)), Some(Boundary(end)), "*", None, None, 500, false)
  }

  function Digested(log: seq<Event>, start: Instant, end: Instant): seq<Event> {
    Select(Window(start, end), log)
  }

  /** One period back, but not behind the previous run. */
  function StartOf(last: Option<Instant>, now: Instant, period: nat): Instant {
    var back := if now < period then 0 else now - period;
    if last.Some? && last.value > back then last.value else back
  }

  /** The start is the later of the previous run and one period ago. */
  lemma StartExactly(last: Option<Instant>, now: Instant, period: nat)
    ensures var start := StartOf(last, now, period);
            && now <= start + period && (last.Some? ==> last.value <= start)
            && (start == 0 || start + period == now || last == Some(start))
  {
  }

  // ------------------------------------------------------------------- tally

  datatype Counts = Counts(total: nat, completed: nat, failed: nat, requested: nat, answered: nat,
                           timedOut: nat, triggers: nat)

  const ZERO := Counts(0, 0, 0, 0, 0, 0, 0)

  function Add(a: Counts, b: Counts): Counts {
    Counts(a.total + b.total, a.completed + b.completed, a.failed + b.failed, a.requested + b.requested,
           a.answered + b.answered, a.timedOut + b.timedOut, a.triggers + b.triggers)
  }

  function One(b: Body): Counts {
    var t := TypeOf(b);
    if t == "session.completed" then ZERO.(total := 1, completed := 1)
    else if t == "session.failed" then ZERO.(total := 1, failed := 1)
    else if t == "interaction.requested" then ZERO.(total := 1, requested := 1)
    else if t == "interaction.answered" then ZERO.(total := 1, answered := 1)
    else if t == "interaction.timed_out" then ZERO.(total := 1, timedOut := 1)
    else if t == "schedule.triggered" then ZERO.(total := 1, triggers := 1)
    else ZERO.(total := 1)
  }

  /** The sum over a log of what one event adds. */
  function Sum(one: Body -> Counts, events: seq<Event>): Counts {
    if events == [] then ZERO else Add(Sum(one, events[..|events| - 1]), one(events[|events| - 1].body))
  }

  function Tally(events: seq<Event>): Counts { Sum(One, events) }

  lemma SumLast(one: Body -> Counts, events: seq<Event>, e: Event)
    ensures Sum(one, events + [e]) == Add(Sum(one, events), one(e.body))
  {
    assert (events + [e])[..|events|] == events;
  }

  /** How many events of a log are of a type. */
  function OfType(events: seq<Event>, name: string): nat {
    if events == [] then 0
    else OfType(events[..|events| - 1], name) + if TypeOf(events[|events| - 1].body) == name then 1 else 0
  }

  /** Each counter counts the events of one type; the total counts all. */
  lemma {:induction false} TallyExactly(events: seq<Event>)
    ensures Tally(events) ==
              Counts(|events|, OfType(events, "session.completed"), OfType(events, "session.failed"),
                     OfType(events, "interaction.requested"), OfType(events, "interaction.answered"),
                     OfType(events, "interaction.timed_out"), OfType(events, "schedule.triggered"))
  {
    hide One, TypeOf, OfType;
    if events == [] {
      NoneOfType(events);
    } else {
      var front, e := events[..|events| - 1], events[|events| - 1];
      TallyExactly(front);
      assert events == front + [e];
      SumLast(One, front, e);
      OneExactly(e);
      OneMore(events, "session.completed");
      OneMore(events, "session.failed");
      OneMore(events, "interaction.requested");
      OneMore(events, "interaction.answered");
      OneMore(events, "interaction.timed_out");
      OneMore(events, "schedule.triggered");
    }
  }

  lemma NoneOfType(events: seq<Event>)
    requires events == []
    ensures forall name :: OfType(events, name) == 0
  {
  }

  lemma OneMore(events: seq<Event>, name: string)
    requires events != []
    ensures var n := |events| - 1;
            OfType(events, name) == OfType(events[..n], name) + if TypeOf(events[n].body) == name then 1 else 0
  {
  }

  lemma OneExactly(e: Event)
    ensures var t := TypeOf(e.body);
            One(e.body) == Counts(1, if t == "session.completed" then 1 else 0, if t == "session.failed" then 1 else 0,
                                  if t == "interaction.requested" then 1 else 0, if t == "interaction.answered" then 1 else 0,
                                  if t == "interaction.timed_out" then 1 else 0, if t == "schedule.triggered" then 1 else 0)
  {
    hide TypeOf;
  }

  /** A digest holds the ids above the first id of the start's millisecond and below the end's millisecond. */
  lemma DigestedExactly(log: seq<Event>, start: Instant, end: Instant, e: Event)
    ensures e in Digested(log, start, end) <==>
              e in log && e.id > start / 1000 * ULID_RANDOM_RANGE && e.id / ULID_RANDOM_RANGE < end / 1000
  {
    SelectMember(Window(start, end), log, e);
  }

  // ----------------------------------------------------------------- service

  class SummaryService {
    const store: SqliteEventStore
    var lastRunAt: Option<Instant>

    constructor (s: SqliteEventStore)
      ensures store == s && lastRunAt == None
    {
      store, lastRunAt := s, None;
    }

    /** The statistics of one digest; the previous run's instant is replaced before the log is read. */
    method RunOnce(now: Instant, period: nat) returns (start: Instant, counts: Counts)
      requires store.Valid()
      modifies this
      ensures start == StartOf(old(lastRunAt), now, period) && lastRunAt == Some(now)
      ensures counts == Tally(Digested(store.rows, start, now))
      ensures now <= start + period && (old(lastRunAt).Some? ==> old(lastRunAt).value <= start)
      ensures start == 0 || start == now - period || old(lastRunAt) == Some(start)
    {
      start := if now < period then 0 else now - period;
      if lastRunAt.Some? && lastRunAt.value > start {
        start := lastRunAt.value;
      }
      lastRunAt := Some(now);
      counts := Fold(start, now);
    }

    method Fold(start: Instant, end: Instant) returns (counts: Counts)
      requires store.Valid()
      ensures counts == Tally(Digested(store.rows, start, end))
    {
      counts := ZERO;
      ghost var seen: seq<Event> := [];
      var at := Window(start, end);
      var batch := store.Fetch(at);
      while batch != []
        invariant !at.newestFirst && batch == Page(at, store.rows) && counts == Sum(One, seen)
        invariant seen + Select(at, store.rows) == Digested(store.rows, start, end)
        decreases |Select(at, store.rows)|
      {
        PageStep(at, store.rows);
        Assoc(seen, batch, Select(NextPage(at, batch), store.rows));
        counts := TallyBatch(One, counts, batch, seen);
        seen := seen + batch;
        at := NextPage(at, batch);
        batch := store.Fetch(at);
      }
      assert seen + [] == seen;
    }
  }

  lemma Assoc(a: seq<Event>, b: seq<Event>, c: seq<Event>)
    ensures a + (b + c) == (a + b) + c
  {
  }

  method TallyBatch(one: Body -> Counts, counts: Counts, batch: seq<Event>, ghost seen: seq<Event>)
    returns (sum: Counts)
    requires counts == Sum(one, seen)
    ensures sum == Sum(one, seen + batch)
  {
    sum := counts;
    assert seen + batch[..0] == seen;
    for i := 0 to |batch|
      invariant sum == Sum(one, seen + batch[..i])
    {
      SumLast(one, seen + batch[..i], batch[i]);
      assert (seen + batch[..i]) + [batch[i]] == seen + batch[..i + 1];
      sum := Add(sum, one(batch[i].body));
    }
    assert batch[..|batch|] == batch;
  }

  // ------------------------------------------------------------------ tiling

  /** The instants of successive runs, one period long each, the first without a predecessor. */
  function Start(runs: seq<Instant>, i: nat, period: nat): Instant
    requires i < |runs|
  {
    StartOf(if i == 0 then None else Some(runs[i - 1]), runs[i], period)
  }

  predicate ClockForward(runs: seq<Instant>) {
    forall i, j :: 0 <= i < j < |runs| ==> runs[i] <= runs[j]
  }

  lemma BoundaryMonotone(a: Instant, b: Instant)
    requires a <= b
    ensures Boundary(a) <= Boundary(b)
  {
    assert a / 1000 <= b / 1000;
  }

  /** With a clock that does not run backward no event is in two digests, whatever the log. */
  lemma NeverTwice(log: seq<Event>, runs: seq<Instant>, period: nat, i: nat, j: nat, e: Event)
    requires ClockForward(runs) && i < j < |runs|
    requires e in Digested(log, Start(runs, i, period), runs[i])
    ensures e !in Digested(log, Start(runs, j, period), runs[j])
  {
    SelectMember(Window(Start(runs, i, period), runs[i]), log, e);
    SelectMember(Window(Start(runs, j, period), runs[j]), log, e);
    BoundaryMonotone(runs[i], Start(runs, j, period));
  }

  ghost predicate Shared(log: seq<Event>, e: Event, runs: seq<Instant>, period: nat, i: nat, j: nat)
    requires i < |runs| && j < |runs|
  {
    && e in Digested(log, Start(runs, i, period), runs[i])
    && e in Digested(log, Start(runs, j, period), runs[j])
  }

  /** Two windows have a millisecond in common: the later start comes before the earlier end. */
  predicate Overlap(runs: seq<Instant>, period: nat, i: nat, j: nat)
    requires i < |runs| && j < |runs|
  {
    && Start(runs, i, period) / 1000 < runs[i] / 1000 && Start(runs, i, period) / 1000 < runs[j] / 1000
    && Start(runs, j, period) / 1000 < runs[i] / 1000 && Start(runs, j, period) / 1000 < runs[j] / 1000
  }

  lemma BoundaryGap(a: Instant, b: Instant)
    ensures Boundary(a) + 1 < Boundary(b) <==> a / 1000 < b / 1000
    ensures Boundary(a) < Boundary(b) <==> a / 1000 < b / 1000
  {
    var x, y := a / 1000, b / 1000;
    if x < y {
      assert (x + 1) * ULID_RANDOM_RANGE <= y * ULID_RANDOM_RANGE;
    } else {
      assert y * ULID_RANDOM_RANGE <= x * ULID_RANDOM_RANGE;
    }
  }

  /** Exactly when some log has an event that both digests count, whatever the clock has been doing. */
  lemma CountedTwiceExactly(runs: seq<Instant>, period: nat, i: nat, j: nat)
    requires i < |runs| && j < |runs|
    ensures (exists log: seq<Event>, e: Event :: Shared(log, e, runs, period, i, j)) <==> Overlap(runs, period, i, j)
  {
    hide Boundary, Start;
    var a, b := Start(runs, i, period), Start(runs, j, period);
    BoundaryGap(a, runs[i]);
    BoundaryGap(a, runs[j]);
    BoundaryGap(b, runs[i]);
    BoundaryGap(b, runs[j]);
    if Overlap(runs, period, i, j) {
      var later := if Boundary(a) < Boundary(b) then Boundary(b) else Boundary(a);
      var e := Event(later + 1, "n", None, AdapterError(""));
      SelectMember(Window(a, runs[i]), [e], e);
      SelectMember(Window(b, runs[j]), [e], e);
      assert Shared([e], e, runs, period, i, j);
    }
    forall log: seq<Event>, e: Event | Shared(log, e, runs, period, i, j)
      ensures Overlap(runs, period, i, j)
    {
      SelectMember(Window(a, runs[i]), log, e);
      SelectMember(Window(b, runs[j]), log, e);
    }
  }

  /** A clock set back by a run in between makes the next run count again. */
  lemma SetBackCountsTwice(log: seq<Event>, t: Instant, back: Instant, period: nat, e: Event)
    requires period <= t && back <= t && e in log && Boundary(back) < e.id < Boundary(t)
    requires Boundary(t - period) < e.id
    ensures var runs := [t, back, t];
            && e in Digested(log, Start(runs, 0, period), t)
            && e in Digested(log, Start(runs, 2, period), t)
  {
    var runs := [t, back, t];
    SelectMember(Window(Start(runs, 0, period), t), log, e);
    SelectMember(Window(Start(runs, 2, period), t), log, e);
  }

  /** The event whose id is the boundary itself: neither side counts it. */
  function OnBoundary(log: seq<Event>, start: Instant, at: Instant, end: Instant): seq<Event> {
    if Boundary(start) < Boundary(at) < Boundary(end) then Select(JustAt(Boundary(at)), log) else []
  }

  function JustAt(id: Ulid): Query
    requires id > 0
  {
    Query(Some(id - 1), Some(id + 1), "*", None, None, 500, false)
  }

  /** Two adjoining windows and the boundary between them make up the joint window, in log order. */
  lemma {:induction false} WindowsAdjoin(log: seq<Event>, a: Instant, b: Instant, c: Instant)
    requires Sorted(log) && a <= b <= c
    ensures Digested(log, a, c) == Digested(log, a, b) + OnBoundary(log, a, b, c) + Digested(log, b, c)
  {
    BoundaryMonotone(a, b);
    BoundaryMonotone(b, c);
    if log != [] {
      var rest, last := log[..|log| - 1], log[|log| - 1];
      WindowsAdjoin(rest, a, b, c);
      SelectLast(Window(a, c), log);
      SelectLast(Window(a, b), log);
      SelectLast(Window(b, c), log);
      if Boundary(a) < Boundary(b) < Boundary(c) {
        SelectLast(JustAt(Boundary(b)), log);
      }
      if last.id > Boundary(b) {
        Assoc(Digested(rest, a, b) + OnBoundary(rest, a, b, c), Digested(rest, b, c),
              if last.id < Boundary(c) then [last] else []);
      } else {
        NothingAfter(rest, b, c, last.id);
      }
    }
  }

  lemma NothingAfter(log: seq<Event>, b: Instant, c: Instant, id: Ulid)
    requires id <= Boundary(b) && forall e :: e in log ==> e.id < id
    ensures Digested(log, b, c) == []
    ensures forall at: Ulid :: at >= id && at > 0 ==> Select(JustAt(at), log) == []
  {
    SelectNone(Window(b, c), log);
    forall at: Ulid | at >= id && at > 0
      ensures Select(JustAt(at), log) == []
    {
      SelectNone(JustAt(at), log);
    }
  }

  /** Runs at most one period apart. */
  predicate Frequent(runs: seq<Instant>, period: nat) {
    forall i :: 0 < i < |runs| ==> runs[i] - runs[i - 1] <= period
  }

  /** The first `n` digests one after the other, with the events on the boundaries between them. */
  function Tiles(log: seq<Event>, runs: seq<Instant>, period: nat, n: nat): seq<Event>
    requires 0 < n <= |runs|
  {
    var digest := Digested(log, Start(runs, n - 1, period), runs[n - 1]);
    if n == 1 then digest
    else Tiles(log, runs, period, n - 1) + OnBoundary(log, Start(runs, 0, period), runs[n - 2], runs[n - 1]) + digest
  }

  /**
   Digests of a clock that does not run backward and of runs at most one period apart tile the log: nothing is
   counted twice and nothing is skipped, but for an id exactly on the boundary between two windows.
   */
  lemma {:induction false} DigestsTile(log: seq<Event>, runs: seq<Instant>, period: nat, n: nat)
    requires Sorted(log) && ClockForward(runs) && Frequent(runs, period) && 0 < n <= |runs|
    ensures Tiles(log, runs, period, n) == Digested(log, Start(runs, 0, period), runs[n - 1])
  {
    if n > 1 {
      DigestsTile(log, runs, period, n - 1);
      assert runs[n - 1] - runs[n - 2] <= period && runs[0] <= runs[n - 2] <= runs[n - 1];
      assert Start(runs, n - 1, period) == runs[n - 2];
      WindowsAdjoin(log, Start(runs, 0, period), runs[n - 2], runs[n - 1]);
    }
  }
}
