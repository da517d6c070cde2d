/**
 Mirroring a machine whose recorder may store events in any order. The hub reads forward by id, so an own event
 that is stored below where the hub already is never reaches it.
 */
module LateRows {
  import opened Envelope
  import opened EventLog
  import opened ReadModel
  import opened NodeSync

  /** As in `NodeSync`, except that the machine may store any event at any time. */
  predicate Can(w: World, a: Action) {
    a.MachineAppends? || Enabled(w, a)
  }

  function Do(w: World, node: string, a: Action): World
    requires Can(w, a)
  {
    if a.MachineAppends? then w.(log := Insert(w.log, a.e)) else Step(w, node, a)
  }

  ghost predicate IsAnyOrderRun(node: string, worlds: seq<World>, actions: seq<Action>) {
    && |worlds| == |actions| + 1
    && worlds[0] == INITIAL
    && forall i :: 0 <= i < |actions| ==> Can(worlds[i], actions[i]) && worlds[i + 1] == Do(worlds[i], node, actions[i])
  }

  // -------------------------------------------------------------- ascending

  predicate Above(cursor: Option<Ulid>, id: Ulid) {
    cursor.Some? ==> cursor.value < id
  }

  /** Cursor, publish and batch of a loop ascend. */
  ghost predicate Ascends(l: Loop) {
    && Sorted(l.batch)
    && (forall x :: x in l.batch ==> Above(l.cursor, x.id))
    && (l.publishing.Some? ==>
          Above(l.cursor, l.publishing.value.id) && forall x :: x in l.batch ==> l.publishing.value.id < x.id)
  }

  ghost predicate Tidy(w: World) {
    Sorted(w.log) && Sorted(w.stored) && (w.loop.Some? ==> Ascends(w.loop.value))
  }

  lemma PageAscends(cursor: Option<Ulid>, limit: int, log: seq<Event>)
    requires Sorted(log)
    ensures var page := Page(PageAfter(cursor, limit), log); Sorted(page) && forall x :: x in page ==> Above(cursor, x.id)
  {
    var q := PageAfter(cursor, limit);
    SelectSorted(q, log);
    forall x | x in Page(q, log) ensures Above(cursor, x.id) {
      assert x in Select(q, log);
      SelectMember(q, log, x);
    }
  }

  lemma TidyStays(node: string, w: World, a: Action)
    requires Tidy(w) && Can(w, a)
    ensures Tidy(Do(w, node, a))
  {
    hide Page, PageAfter, Insert, Apply, Fold;
    match a
    case MachineAppends(e) => InsertSorted(w.log, e);
    case Record => InsertSorted(w.stored, w.queue[0]);
    case Fetch(limit) => PageAscends(w.loop.value.cursor, limit, w.log);
    case FoldNext => TailAscends(w.loop.value.batch);
    case _ =>
  }

  lemma TailAscends(batch: seq<Event>)
    requires batch != [] && Sorted(batch)
    ensures Sorted(batch[1..]) && forall x :: x in batch[1..] ==> x in batch && batch[0].id < x.id
  {
  }

  lemma {:induction false} RunIsTidy(node: string, worlds: seq<World>, actions: seq<Action>, i: nat)
    requires IsAnyOrderRun(node, worlds, actions) && i < |worlds|
    ensures Tidy(worlds[i])
  {
    if i > 0 {
      hide Tidy, Can, Do;
      RunIsTidy(node, worlds, actions, i - 1);
      TidyStays(node, worlds[i - 1], actions[i - 1]);
    } else {
      assert Tidy(INITIAL);
    }
  }

  // ----------------------------------------------------------------- passed

  /** The hub is past the event: its rows and its loop stand above, and it has not got it. */
  ghost predicate Passed(w: World, e: Event) {
    && w.stored != [] && e.id < LastId(w.stored) && !HasId(w.stored, e.id)
    && (forall x :: x in w.queue ==> x.id != e.id)
    && (w.loop.Some? ==> w.loop.value.cursor.Some? && e.id < w.loop.value.cursor.value)
  }

  lemma NewestStays(rows: seq<Event>, x: Event, id: Ulid)
    requires Sorted(rows) && rows != [] && id < LastId(rows) && !HasId(rows, id) && x.id != id
    ensures Insert(rows, x) != [] && id < LastId(Insert(rows, x)) && !HasId(Insert(rows, x), id)
  {
    InsertSorted(rows, x);
    var more := Insert(rows, x);
    var last := rows[|rows| - 1];
    assert last in rows && last in more;
    assert more[|more| - 1] in more;
    forall i | 0 <= i < |more| ensures more[i].id != id {
      assert more[i] in more;
    }
  }

  lemma PassedStays(node: string, w: World, a: Action, e: Event)
    requires Tidy(w) && Passed(w, e) && Can(w, a)
    ensures Passed(Do(w, node, a), e)
  {
    hide Page, PageAfter, Insert, Apply, Fold, HasId, Sorted;
    if a.Record? {
      assert w.queue[0] in w.queue;
      NewestStays(w.stored, w.queue[0], e.id);
    }
  }

  /**
   An event that the machine stores below where the hub stands is never mirrored: from then on, in every run, it is
   neither stored nor queued nor on any page, whatever the loops, the recorder and the hub do.
   */
  lemma {:induction false} LateRowIsNeverMirrored(node: string, worlds: seq<World>, actions: seq<Action>, i: nat, j: nat,
                                                  e: Event)
    requires IsAnyOrderRun(node, worlds, actions) && i <= j < |worlds| && Passed(worlds[i], e)
    ensures var w := worlds[j];
            && Passed(w, e) && !HasId(w.stored, e.id) && e !in w.queue
            && (w.loop.Some? ==> forall x :: x in w.loop.value.batch ==> x.id != e.id)
    decreases j
  {
    hide Can, Do;
    RunIsTidy(node, worlds, actions, j);
    if i < j {
      LateRowIsNeverMirrored(node, worlds, actions, i, j - 1, e);
      RunIsTidy(node, worlds, actions, j - 1);
      hide Tidy, Passed;
      PassedStays(node, worlds[j - 1], actions[j - 1], e);
    }
    NotGot(worlds[j], e);
  }

  lemma NotGot(w: World, e: Event)
    requires Tidy(w) && Passed(w, e)
    ensures !HasId(w.stored, e.id) && e !in w.queue
    ensures w.loop.Some? ==> forall x :: x in w.loop.value.batch ==> x.id != e.id
  {
  }

  /** A newly stored event is ahead of a loop exactly when its id is above the cursor. */
  lemma StillAheadExactly(log: seq<Event>, e: Event, cursor: Option<Ulid>, limit: int)
    requires Sorted(log) && !HasId(log, e.id)
    ensures e in Select(PageAfter(cursor, limit), Insert(log, e)) <==> Above(cursor, e.id)
  {
    InsertSorted(log, e);
    SelectMember(PageAfter(cursor, limit), Insert(log, e), e);
  }

  // ----------------------------------------------------------------- it happens

  function Named(node: string, id: Ulid): Event {
    Event(id, node, None, AdapterError("some"))
  }

  ghost predicate Reachable(node: string, w: World) {
    exists worlds: seq<World>, actions: seq<Action> ::
      IsAnyOrderRun(node, worlds, actions) && worlds[|actions|] == w
  }

  lemma Start(node: string)
    ensures Reachable(node, INITIAL)
  {
    assert IsAnyOrderRun(node, [INITIAL], []) && [INITIAL][0] == INITIAL;
  }

  lemma Reach(node: string, w: World, a: Action) returns (v: World)
    requires Reachable(node, w) && Can(w, a)
    ensures v == Do(w, node, a) && Reachable(node, v)
  {
    hide Can, Do;
    v := Do(w, node, a);
    var worlds: seq<World>, actions: seq<Action> :| IsAnyOrderRun(node, worlds, actions) && worlds[|actions|] == w;
    var worlds', actions' := worlds + [v], actions + [a];
    assert IsAnyOrderRun(node, worlds', actions') && worlds'[|actions'|] == v;
  }

  /** The loop has mirrored the only event so far, and the recorder has stored it. */
  lemma OneMirrored(node: string, b: Event) returns (w: World)
    requires b.node == node
    ensures Reachable(node, w) && w.log == [b] && w.stored == [b] && w.queue == []
    ensures w.loop.Some? && w.loop.value.cursor == Some(b.id)
  {
    hide Reachable, Apply, Page, PageAfter;
    Start(node);
    w := Reach(node, INITIAL, MachineAppends(b));
    w := Reach(node, w, LoopStarts);
    assert w.log == [b] && w.loop.value.cursor == None;
    OnlyPage(b);
    w := Reach(node, w, Fetch(1));
    assert w.loop.value.batch == [b];
    w := Reach(node, w, FoldNext);
    w := Reach(node, w, Enqueue);
    w := Reach(node, w, PublishReturns);
    w := Reach(node, w, Record);
  }

  lemma OnlyPage(b: Event)
    ensures Page(PageAfter(None, 1), [b]) == [b]
  {
    SelectAll(1, [b]);
  }

  /** The second of two events is stored first and mirrored; then the first is stored. */
  lemma SomeRowIsMissed(node: string) returns (w: World, e: Event)
    ensures Reachable(node, w) && e in w.log && e.node == node && Passed(w, e)
  {
    hide Reachable;
    var b := Named(node, 2);
    e := Named(node, 1);
    var v := OneMirrored(node, b);
    w := Reach(node, v, MachineAppends(e));
    assert w.log == [e, b];
  }
}
