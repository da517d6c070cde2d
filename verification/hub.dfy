/**
 The hub as a whole: its own commands, one mirror for each machine, one store and one read-model, with loops that
 end and resume, recording in any order across machines, and boots that rebuild from the store. A loop starts at or
 below just after the last event folded: `SkippedStart.StartIsSafeExactly` shows what happens otherwise.
 */
module Hub {
  import opened Envelope
  import opened EventLog
  import opened ReadModel
  import Y = NodeSync

  /** Event ids, too, belong to one machine each. */
  datatype Fleet = Fleet(hub: string, owns: Ownership, ofEvent: Ulid -> string)

  datatype World = World(
    mirrors: map<string, Y.World>,   // one for each other machine
    rows: seq<Event>,                // the hub's store
    ownQueue: seq<Event>,            // the hub's own events on their way to the recorder
    applied: seq<Event>,             // auxiliary: what the model was folded from since the last boot
    model: Model)

  datatype Action =
    | Mirror(machine: string, a: Y.Action)
    | OwnEvent(e: Event)
    | OwnRecord(k: nat)
    | Crash

  function Initial(machines: set<string>): World {
    World(map m | m in machines :: Y.INITIAL, [], [], [], EMPTY)
  }

  /** An event of the machine itself that writes only what is its own. */
  ghost predicate Fine(f: Fleet, machine: string, e: Event) {
    e.node == machine && f.ofEvent(e.id) == machine && WritesOwn(f.owns, e)
  }

  ghost predicate Enabled(f: Fleet, w: World, a: Action) {
    match a
    case Mirror(m, b) =>
      && m in w.mirrors && !b.HubCrashes? && Y.Enabled(w.mirrors[m], b) && Y.Resumes(w.mirrors[m], b)
      && (b.MachineAppends? && b.e.node == m ==> Fine(f, m, b.e))
    case OwnEvent(e) => Fine(f, f.hub, e) && forall x :: x in w.applied && x.node == f.hub ==> x.id < e.id
    case OwnRecord(k) => k < |w.ownQueue|
    case Crash => true
  }

  /** Whether the action folds an event into the read-model. */
  predicate Folds(w: World, m: string, b: Y.Action)
    requires m in w.mirrors && Y.Enabled(w.mirrors[m], b)
  {
    b.FoldNext? && w.mirrors[m].loop.value.batch[0].node == m
  }

  function Put(w: World, e: Event): World {
    w.(applied := w.applied + [e], model := Apply(w.model, e))
  }

  function Step(w: World, a: Action): World
    requires a.Mirror? ==> a.machine in w.mirrors && Y.Enabled(w.mirrors[a.machine], a.a)
    requires a.OwnRecord? ==> a.k < |w.ownQueue|
  {
    match a
    case Mirror(m, b) =>
      var v := w.(mirrors := w.mirrors[m := Y.Step(w.mirrors[m], m, b)]);
      if Folds(w, m, b) then Put(v, w.mirrors[m].loop.value.batch[0])
      else if b.Record? then v.(rows := Insert(w.rows, w.mirrors[m].queue[0]))
      else v
    case OwnEvent(e) => Put(w, e).(ownQueue := w.ownQueue + [e])
    case OwnRecord(k) =>
      w.(rows := Insert(w.rows, w.ownQueue[k]), ownQueue := w.ownQueue[..k] + w.ownQueue[k + 1..])
    case Crash =>
      World(map m | m in w.mirrors :: Y.Step(w.mirrors[m], m, Y.HubCrashes), w.rows, [], w.rows, Fold(EMPTY, w.rows))
  }

  ghost predicate IsRun(f: Fleet, machines: set<string>, worlds: seq<World>, actions: seq<Action>) {
    && f.hub !in machines && |worlds| == |actions| + 1
    && worlds[0] == Initial(machines)
    && forall i :: 0 <= i < |actions| ==> Enabled(f, worlds[i], actions[i]) && worlds[i + 1] == Step(worlds[i], actions[i])
  }

  // -------------------------------------------------------------- one mirror

  /** Some run of one machine's mirror, whose loops all start where they may, leads here. */
  ghost predicate Mirrors(m: string, y: Y.World) {
    exists ys: seq<Y.World>, bs: seq<Y.Action> ::
      Y.IsRun(m, ys, bs) && AllResume(ys, bs) && ys[|bs|] == y
  }

  predicate AllResume(ys: seq<Y.World>, bs: seq<Y.Action>) {
    |ys| == |bs| + 1 && forall j :: 0 <= j < |bs| ==> Y.Resumes(ys[j], bs[j])
  }

  lemma MirrorsFirst(m: string)
    ensures Mirrors(m, Y.INITIAL)
  {
    assert Y.IsRun(m, [Y.INITIAL], []) && AllResume([Y.INITIAL], []) && [Y.INITIAL][0] == Y.INITIAL;
  }

  lemma MirrorsNext(m: string, y: Y.World, b: Y.Action)
    requires Mirrors(m, y) && Y.Enabled(y, b) && Y.Resumes(y, b)
    ensures Mirrors(m, Y.Step(y, m, b))
  {
    hide Y.Step, Y.Enabled, Y.Resumes;
    var ys: seq<Y.World>, bs: seq<Y.Action> :| Y.IsRun(m, ys, bs) && AllResume(ys, bs) && ys[|bs|] == y;
    var z := Y.Step(y, m, b);
    var ys', bs' := ys + [z], bs + [b];
    assert Y.IsRun(m, ys', bs') && AllResume(ys', bs') && ys'[|bs'|] == z;
  }

  lemma MirrorInv(m: string, y: Y.World)
    requires Mirrors(m, y)
    ensures Y.Inv(m, y)
  {
    hide Y.Inv, AllResume;
    var ys: seq<Y.World>, bs: seq<Y.Action> :| Y.IsRun(m, ys, bs) && AllResume(ys, bs) && ys[|bs|] == y;
    Y.RunKeeps(m, ys, bs, |bs|);
  }

  /** A caught-up mirror's read-model is the fold of the machine's own events up to where it stands. */
  lemma MirrorModel(m: string, y: Y.World)
    requires Mirrors(m, y) && StableKeys(Y.Own(m, y.log)) && y.upto == y.high
    ensures y.upto <= |Y.Own(m, y.log)| && y.model == Fold(EMPTY, Y.Own(m, y.log)[..y.upto])
  {
    hide Fold, Y.Own, StableKeys;
    var ys: seq<Y.World>, bs: seq<Y.Action> :| Y.IsRun(m, ys, bs) && AllResume(ys, bs) && ys[|bs|] == y;
    Y.ModelIsFoldOfPrefix(m, ys, bs, |bs|);
  }

  // --------------------------------------------------------------- invariant

  /** The machine's own events in its log, and those on their way through the mirror, are fine. */
  ghost predicate AllFine(f: Fleet, m: string, y: Y.World) {
    && (forall e :: e in y.log && e.node == m ==> Fine(f, m, e))
    && (forall e :: e in y.queue ==> Fine(f, m, e))
    && (y.loop.Some? && y.loop.value.publishing.Some? ==> Fine(f, m, y.loop.value.publishing.value))
  }

  /** What the hub stores and has folded of one machine is what that machine's mirror says. */
  ghost predicate Agrees(w: World, m: string, y: Y.World) {
    && y.stored == Select(FromNode(m), w.rows)
    && y.model == Fold(EMPTY, Select(FromNode(m), w.applied))
  }

  ghost predicate MirrorOk(f: Fleet, w: World, m: string)
    requires m in w.mirrors
  {
    Mirrors(m, w.mirrors[m]) && AllFine(f, m, w.mirrors[m]) && Agrees(w, m, w.mirrors[m])
  }

  ghost predicate FineRow(f: Fleet, machines: set<string>, e: Event) {
    (e.node == f.hub || e.node in machines) && Fine(f, e.node, e)
  }

  ghost predicate SharedOk(f: Fleet, w: World) {
    && Sorted(w.rows) && w.model == Fold(EMPTY, w.applied)
    && (forall e :: e in w.rows ==> FineRow(f, w.mirrors.Keys, e))
    && (forall e :: e in w.applied ==> FineRow(f, w.mirrors.Keys, e))
    && (forall e :: e in w.ownQueue ==> Fine(f, f.hub, e))
  }

  /** The hub's own events were applied in id order, and each of them is stored or on its way. */
  ghost predicate OwnOk(f: Fleet, w: World) {
    && Sorted(Select(FromNode(f.hub), w.applied))
    && forall e :: e in Select(FromNode(f.hub), w.applied) <==> e in Select(FromNode(f.hub), w.rows) || e in w.ownQueue
  }

  ghost predicate Inv(f: Fleet, w: World) {
    && f.hub !in w.mirrors && SharedOk(f, w) && OwnOk(f, w)
    && forall m :: m in w.mirrors ==> MirrorOk(f, w, m)
  }

  // ------------------------------------------------- selecting and inserting

  lemma Head(rows: seq<Event>, e: Event, m: string)
    requires rows != []
    ensures Select(FromNode(m), [e] + rows) == (if e.node == m then [e] else []) + Select(FromNode(m), rows)
  {
    assert ([e] + rows)[1..] == rows;
    StarMatches(e);
  }

  lemma StarMatches(e: Event)
    ensures forall m :: Selects(FromNode(m), e) <==> e.node == m
  {
  }

  /** No stored event of another machine has this id. */
  predicate NoClash(rows: seq<Event>, e: Event) {
    forall x :: x in rows && x.id == e.id ==> x.node == e.node
  }

  lemma FineRowsDoNotClash(f: Fleet, machines: set<string>, rows: seq<Event>, e: Event)
    requires FineRow(f, machines, e) && forall x :: x in rows ==> FineRow(f, machines, x)
    ensures NoClash(rows, e)
  {
    hide WritesOwn;
  }

  /** Recording an event changes what is selected of its own machine, as that machine's rows alone would. */
  lemma {:induction false} SelectInsert(rows: seq<Event>, e: Event, m: string)
    requires Sorted(rows) && NoClash(rows, e)
    ensures Select(FromNode(m), Insert(rows, e)) ==
              if e.node == m then Insert(Select(FromNode(m), rows), e) else Select(FromNode(m), rows)
    decreases |rows|
  {
    StarMatches(e);
    if rows == [] {
      assert [e] + [] == [e] && [e][1..] == [];
    } else if e.id < rows[0].id {
      Head(rows, e, m);
      BelowAll(rows, e, m);
    } else if e.id == rows[0].id {
      InsertHere(rows, e, m);
    } else {
      SelectInsertLater(rows[0], rows[1..], e, m);
    }
  }

  lemma InsertHere(rows: seq<Event>, e: Event, m: string)
    requires rows != [] && e.id == rows[0].id && NoClash(rows, e)
    ensures Insert(rows, e) == rows
    ensures e.node == m ==> Insert(Select(FromNode(m), rows), e) == Select(FromNode(m), rows)
  {
    StarMatches(rows[0]);
    assert rows[0] in rows;
  }

  lemma {:induction false} SelectInsertLater(x: Event, rest: seq<Event>, e: Event, m: string)
    requires Sorted([x] + rest) && x.id < e.id && NoClash([x] + rest, e)
    ensures Select(FromNode(m), Insert([x] + rest, e)) ==
              if e.node == m then Insert(Select(FromNode(m), [x] + rest), e) else Select(FromNode(m), [x] + rest)
    decreases |rest| + 1, 0
  {
    var rows := [x] + rest;
    assert rows[1..] == rest;
    forall y | y in rest ensures y in rows {
    }
    SelectInsert(rest, e, m);
    InsertLater(x, rest, e);
    InsertLater(x, Select(FromNode(m), rest), e);
    hide Select, Insert, Sorted;
    SelectHead(x, Insert(rest, e), m);
    SelectHead(x, rest, m);
    assert [] + Select(FromNode(m), rest) == Select(FromNode(m), rest);
    assert [] + Select(FromNode(m), Insert(rest, e)) == Select(FromNode(m), Insert(rest, e));
  }

  lemma InsertLater(x: Event, rest: seq<Event>, e: Event)
    requires x.id < e.id
    ensures Insert([x] + rest, e) == [x] + Insert(rest, e)
  {
    assert ([x] + rest)[1..] == rest;
  }

  lemma SelectHead(x: Event, rest: seq<Event>, m: string)
    ensures Select(FromNode(m), [x] + rest) == (if x.node == m then [x] else []) + Select(FromNode(m), rest)
  {
    assert ([x] + rest)[1..] == rest;
    StarMatches(x);
  }

  lemma BelowAll(rows: seq<Event>, e: Event, m: string)
    requires Sorted(rows) && rows != [] && e.id < rows[0].id
    ensures Insert(Select(FromNode(m), rows), e) == [e] + Select(FromNode(m), rows)
  {
    var s := Select(FromNode(m), rows);
    if s != [] {
      assert s[0] in s;
      SelectMember(FromNode(m), rows, s[0]);
      assert forall i :: 0 <= i < |rows| ==> rows[0].id <= rows[i].id;
    }
  }

  lemma SelectMore(rows: seq<Event>, e: Event, m: string)
    ensures Select(FromNode(m), rows + [e]) == Select(FromNode(m), rows) + if e.node == m then [e] else []
  {
    SelectAppend(FromNode(m), rows, [e]);
    StarMatches(e);
    assert [e] == [e] + [];
    SelectHead(e, [], m);
  }

  // --------------------------------------------------------------- each step

  lemma FoldedIsFine(f: Fleet, m: string, y: Y.World)
    requires Mirrors(m, y) && AllFine(f, m, y) && Y.Enabled(y, Y.FoldNext) && y.loop.value.batch[0].node == m
    ensures Fine(f, m, y.loop.value.batch[0])
  {
    hide Mirrors, Fine, WritesOwn;
    MirrorInv(m, y);
    Y.FoldKeeps(m, y);
    var e := y.loop.value.batch[0];
    assert e in Y.Own(m, y.log);
    SelectMember(FromNode(m), y.log, e);
  }

  lemma AllFineAfter(f: Fleet, m: string, y: Y.World, b: Y.Action)
    requires Mirrors(m, y) && AllFine(f, m, y) && Y.Enabled(y, b)
    requires b.MachineAppends? && b.e.node == m ==> Fine(f, m, b.e)
    ensures AllFine(f, m, Y.Step(y, m, b))
  {
    hide Mirrors, Fine, WritesOwn, Insert, Page, Fold, Apply;
    match b
    case FoldNext =>
      if y.loop.value.batch[0].node == m {
        FoldedIsFine(f, m, y);
      }
    case Record => assert y.queue == [y.queue[0]] + y.queue[1..];
    case _ =>
  }

  /** One more event of some machine is folded: that machine's mirror folds it, the others do not notice. */
  lemma AgreesFolded(w: World, v: World, m: string, e: Event, y: Y.World, z: Y.World)
    requires Agrees(w, m, y) && v.applied == w.applied + [e] && v.rows == w.rows && z.stored == y.stored
    requires z.model == if e.node == m then Apply(y.model, e) else y.model
    ensures Agrees(v, m, z)
  {
    hide Fold, Apply;
    SelectMore(w.applied, e, m);
    FoldStep(EMPTY, Select(FromNode(m), w.applied), e);
    assert Select(FromNode(m), w.applied) + [] == Select(FromNode(m), w.applied);
  }

  /** One more event of some machine is recorded. */
  lemma AgreesRecorded(f: Fleet, w: World, v: World, m: string, e: Event, y: Y.World, z: Y.World)
    requires SharedOk(f, w) && FineRow(f, w.mirrors.Keys, e)
    requires Agrees(w, m, y) && v.rows == Insert(w.rows, e) && v.applied == w.applied && z.model == y.model
    requires z.stored == if e.node == m then Insert(y.stored, e) else y.stored
    ensures Agrees(v, m, z)
  {
    hide Fold, Insert, FineRow;
    FineRowsDoNotClash(f, w.mirrors.Keys, w.rows, e);
    SelectInsert(w.rows, e, m);
  }

  lemma SharedFolded(f: Fleet, w: World, e: Event, v: World)
    requires SharedOk(f, w) && FineRow(f, w.mirrors.Keys, e) && v.mirrors.Keys == w.mirrors.Keys
    requires v.applied == w.applied + [e] && v.model == Apply(w.model, e) && v.rows == w.rows
    requires forall x :: x in v.ownQueue ==> Fine(f, f.hub, x)
    ensures SharedOk(f, v)
  {
    hide Fine, FineRow, Fold, Apply;
    FoldStep(EMPTY, w.applied, e);
  }

  lemma SharedRecorded(f: Fleet, w: World, e: Event, v: World)
    requires SharedOk(f, w) && FineRow(f, w.mirrors.Keys, e) && v.mirrors.Keys == w.mirrors.Keys
    requires v.rows == Insert(w.rows, e) && v.applied == w.applied && v.model == w.model
    requires forall x :: x in v.ownQueue ==> Fine(f, f.hub, x)
    ensures SharedOk(f, v)
  {
    hide Fine, FineRow, Fold, Insert;
    InsertSorted(w.rows, e);
  }

  /** A step of one mirror that neither folds nor records leaves what is shared alone. */
  lemma QuietStep(m: string, y: Y.World, b: Y.Action)
    requires Y.Enabled(y, b) && !b.HubCrashes? && !b.Record?
    requires b.FoldNext? ==> y.loop.value.batch[0].node != m
    ensures Y.Step(y, m, b).stored == y.stored && Y.Step(y, m, b).model == y.model
  {
  }

  lemma MirrorFolds(f: Fleet, w: World, m: string)
    requires Inv(f, w) && Enabled(f, w, Mirror(m, Y.FoldNext)) && Folds(w, m, Y.FoldNext)
    ensures Inv(f, Step(w, Mirror(m, Y.FoldNext)))
  {
    hide Mirrors, AllFine, Agrees, Fine, SharedOk, OwnOk, Y.Step, Apply;
    var y, v := w.mirrors[m], Step(w, Mirror(m, Y.FoldNext));
    var e := y.loop.value.batch[0];
    assert MirrorOk(f, w, m);
    FoldedIsFine(f, m, y);
    FineHere(f, w, m, e);
    OwnQueueIsFine(f, w);
    SharedFolded(f, w, e, v);
    OwnUntouched(f, w, v, e);
    FoldOf(m, y);
    forall k | k in v.mirrors ensures MirrorOk(f, v, k) {
      assert MirrorOk(f, w, k);
      if k == m {
        MirrorsNext(m, y, Y.FoldNext);
        AllFineAfter(f, m, y, Y.FoldNext);
      }
      AgreesFolded(w, v, k, e, w.mirrors[k], v.mirrors[k]);
    }
  }

  lemma FoldOf(m: string, y: Y.World)
    requires Y.Enabled(y, Y.FoldNext) && y.loop.value.batch[0].node == m
    ensures var z := Y.Step(y, m, Y.FoldNext);
            z.stored == y.stored && z.model == Apply(y.model, y.loop.value.batch[0])
  {
  }

  lemma RecordOf(m: string, y: Y.World)
    requires Y.Enabled(y, Y.Record)
    ensures var z := Y.Step(y, m, Y.Record);
            z.stored == Insert(y.stored, y.queue[0]) && z.model == y.model
  {
  }

  lemma FineHere(f: Fleet, w: World, m: string, e: Event)
    requires m in w.mirrors && Fine(f, m, e)
    ensures FineRow(f, w.mirrors.Keys, e) && e.node == m
  {
  }

  lemma OwnQueueIsFine(f: Fleet, w: World)
    requires SharedOk(f, w)
    ensures forall x :: x in w.ownQueue ==> Fine(f, f.hub, x)
  {
  }

  lemma OwnUntouched(f: Fleet, w: World, v: World, e: Event)
    requires OwnOk(f, w) && e.node != f.hub && v.ownQueue == w.ownQueue && v.rows == w.rows
    requires v.applied == w.applied + [e]
    ensures OwnOk(f, v)
  {
    SelectMore(w.applied, e, f.hub);
    assert Select(FromNode(f.hub), w.applied) + [] == Select(FromNode(f.hub), w.applied);
  }

  lemma OwnUntouchedByRecord(f: Fleet, w: World, v: World, e: Event)
    requires SharedOk(f, w) && OwnOk(f, w) && FineRow(f, w.mirrors.Keys, e) && e.node != f.hub
    requires v.ownQueue == w.ownQueue && v.rows == Insert(w.rows, e) && v.applied == w.applied
    ensures OwnOk(f, v)
  {
    hide FineRow, InsertAll;
    FineRowsDoNotClash(f, w.mirrors.Keys, w.rows, e);
    SelectInsert(w.rows, e, f.hub);
  }

  lemma MirrorRecords(f: Fleet, w: World, m: string)
    requires Inv(f, w) && Enabled(f, w, Mirror(m, Y.Record))
    ensures Inv(f, Step(w, Mirror(m, Y.Record)))
  {
    hide Mirrors, AllFine, Agrees, Fine, FineRow, SharedOk, OwnOk, Y.Step, Y.Resumes, Insert;
    var y, v := w.mirrors[m], Step(w, Mirror(m, Y.Record));
    var e := y.queue[0];
    assert MirrorOk(f, w, m);
    QueuedIsFine(f, m, y);
    FineHere(f, w, m, e);
    OwnQueueIsFine(f, w);
    SharedRecorded(f, w, e, v);
    OwnUntouchedByRecord(f, w, v, e);
    RecordOf(m, y);
    forall k | k in v.mirrors ensures MirrorOk(f, v, k) {
      assert MirrorOk(f, w, k);
      if k == m {
        MirrorsNext(m, y, Y.Record);
        AllFineAfter(f, m, y, Y.Record);
      }
      AgreesRecorded(f, w, v, k, e, w.mirrors[k], v.mirrors[k]);
    }
  }

  lemma QueuedIsFine(f: Fleet, m: string, y: Y.World)
    requires AllFine(f, m, y) && y.queue != []
    ensures Fine(f, m, y.queue[0])
  {
    assert y.queue[0] in y.queue;
  }

  lemma MirrorMoves(f: Fleet, w: World, m: string, b: Y.Action)
    requires Inv(f, w) && Enabled(f, w, Mirror(m, b)) && !b.Record? && !Folds(w, m, b)
    ensures Inv(f, Step(w, Mirror(m, b)))
  {
    hide Mirrors, AllFine, Fine, SharedOk, OwnOk, Y.Step;
    var y, v := w.mirrors[m], Step(w, Mirror(m, b));
    assert MirrorOk(f, w, m);
    QuietStep(m, y, b);
    SharedUntouched(f, w, v);
    forall k | k in v.mirrors ensures MirrorOk(f, v, k) {
      assert MirrorOk(f, w, k);
      if k == m {
        MirrorsNext(m, y, b);
        AllFineAfter(f, m, y, b);
      }
    }
  }

  lemma SharedUntouched(f: Fleet, w: World, v: World)
    requires SharedOk(f, w) && OwnOk(f, w) && v == w.(mirrors := v.mirrors) && v.mirrors.Keys == w.mirrors.Keys
    ensures SharedOk(f, v) && OwnOk(f, v)
  {
    hide FineRow, Fine;
  }

  lemma OwnEventOk(f: Fleet, w: World, v: World, e: Event)
    requires OwnOk(f, w) && Fine(f, f.hub, e) && forall x :: x in w.applied && x.node == f.hub ==> x.id < e.id
    requires v.applied == w.applied + [e] && v.rows == w.rows && v.ownQueue == w.ownQueue + [e]
    ensures OwnOk(f, v)
  {
    var own := Select(FromNode(f.hub), w.applied);
    SelectMore(w.applied, e, f.hub);
    forall i | 0 <= i < |own| ensures own[i].id < e.id {
      assert own[i] in own;
      SelectMember(FromNode(f.hub), w.applied, own[i]);
      StarMatches(own[i]);
    }
  }

  lemma OwnEventKeeps(f: Fleet, w: World, e: Event)
    requires Inv(f, w) && Enabled(f, w, OwnEvent(e))
    ensures Inv(f, Step(w, OwnEvent(e)))
  {
    hide Mirrors, AllFine, Agrees, SharedOk, OwnOk, Apply, WritesOwn;
    var v := Step(w, OwnEvent(e));
    OwnQueueIsFine(f, w);
    SharedFolded(f, w, e, v);
    OwnEventOk(f, w, v, e);
    forall k | k in v.mirrors ensures MirrorOk(f, v, k) {
      assert MirrorOk(f, w, k);
      AgreesFolded(w, v, k, e, w.mirrors[k], w.mirrors[k]);
    }
  }

  /** Inserting one of the events of a sorted log adds exactly that event. */
  lemma InsertAdds(rows: seq<Event>, e: Event, log: seq<Event>)
    requires Sorted(rows) && Sorted(log) && e in log && forall x :: x in rows ==> x in log
    ensures forall x :: x in Insert(rows, e) <==> x in rows || x == e
  {
    InsertSorted(rows, e);
    if i: nat :| i < |rows| && rows[i].id == e.id {
      assert rows[i] in rows && rows[i] in log;
    }
  }

  lemma OwnRecordOk(f: Fleet, w: World, v: World, k: nat)
    requires SharedOk(f, w) && OwnOk(f, w) && k < |w.ownQueue| && FineRow(f, w.mirrors.Keys, w.ownQueue[k])
    requires w.ownQueue[k].node == f.hub
    requires v.applied == w.applied && v.rows == Insert(w.rows, w.ownQueue[k])
    requires v.ownQueue == w.ownQueue[..k] + w.ownQueue[k + 1..]
    ensures OwnOk(f, v)
  {
    hide FineRow, Insert;
    var e := w.ownQueue[k];
    FineRowsDoNotClash(f, w.mirrors.Keys, w.rows, e);
    SelectInsert(w.rows, e, f.hub);
    SelectSorted(FromNode(f.hub), w.rows);
    InsertAdds(Select(FromNode(f.hub), w.rows), e, Select(FromNode(f.hub), w.applied));
    Without(w.ownQueue, k);
  }

  lemma Without(queue: seq<Event>, k: nat)
    requires k < |queue|
    ensures forall x :: x in queue <==> x in queue[..k] + queue[k + 1..] || x == queue[k]
  {
    assert queue == queue[..k] + [queue[k]] + queue[k + 1..];
  }

  lemma OwnRecordKeeps(f: Fleet, w: World, k: nat)
    requires Inv(f, w) && Enabled(f, w, OwnRecord(k))
    ensures Inv(f, Step(w, OwnRecord(k)))
  {
    hide Mirrors, AllFine, Agrees, SharedOk, OwnOk, Insert, WritesOwn;
    var v, e := Step(w, OwnRecord(k)), w.ownQueue[k];
    OwnQueueIsFine(f, w);
    Without(w.ownQueue, k);
    assert e in w.ownQueue && e.node == f.hub && FineRow(f, w.mirrors.Keys, e);
    SharedRecorded(f, w, e, v);
    OwnRecordOk(f, w, v, k);
    forall m | m in v.mirrors ensures MirrorOk(f, v, m) {
      assert MirrorOk(f, w, m);
      AgreesRecorded(f, w, v, m, e, w.mirrors[m], w.mirrors[m]);
    }
  }

  lemma CrashedMirror(f: Fleet, w: World, v: World, m: string)
    requires m in w.mirrors && MirrorOk(f, w, m) && v == Step(w, Crash)
    ensures MirrorOk(f, v, m)
  {
    hide Mirrors, Fine;
    MirrorsNext(m, w.mirrors[m], Y.HubCrashes);
    AllFineAfter(f, m, w.mirrors[m], Y.HubCrashes);
  }

  lemma CrashKeeps(f: Fleet, w: World)
    requires Inv(f, w)
    ensures Inv(f, Step(w, Crash))
  {
    var v := Step(w, Crash);
    assert v.mirrors.Keys == w.mirrors.Keys;
    forall k | k in v.mirrors ensures MirrorOk(f, v, k) {
      assert MirrorOk(f, w, k);
      CrashedMirror(f, w, v, k);
    }
    hide MirrorOk, FineRow, Fine;
    SelectSorted(FromNode(f.hub), w.rows);
  }

  lemma StepKeeps(f: Fleet, w: World, a: Action)
    requires Inv(f, w) && Enabled(f, w, a)
    ensures Inv(f, Step(w, a))
  {
    hide Inv, Y.Step, Y.Enabled, Fine;
    match a
    case Mirror(m, b) =>
      if Folds(w, m, b) {
        MirrorFolds(f, w, m);
      } else if b.Record? {
        MirrorRecords(f, w, m);
      } else {
        MirrorMoves(f, w, m, b);
      }
    case OwnEvent(e) => OwnEventKeeps(f, w, e);
    case OwnRecord(k) => OwnRecordKeeps(f, w, k);
    case Crash => CrashKeeps(f, w);
  }

  lemma StartOk(f: Fleet, machines: set<string>)
    requires f.hub !in machines
    ensures Inv(f, Initial(machines))
  {
    var w := Initial(machines);
    forall m | m in w.mirrors ensures MirrorOk(f, w, m) {
      MirrorsFirst(m);
    }
  }

  lemma {:induction false} RunKeeps(f: Fleet, machines: set<string>, worlds: seq<World>, actions: seq<Action>, i: nat)
    requires IsRun(f, machines, worlds, actions) && i < |worlds|
    ensures Inv(f, worlds[i]) && worlds[i].mirrors.Keys == machines
  {
    if i == 0 {
      StartOk(f, machines);
    } else {
      hide Inv, Y.Step, Y.Enabled;
      RunKeeps(f, machines, worlds, actions, i - 1);
      StepKeeps(f, worlds[i - 1], actions[i - 1]);
      MachinesStay(f, worlds[i - 1], actions[i - 1]);
    }
  }

  lemma MachinesStay(f: Fleet, w: World, a: Action)
    requires Enabled(f, w, a)
    ensures Step(w, a).mirrors.Keys == w.mirrors.Keys
  {
    hide Y.Step, Y.Enabled;
  }

  // ---------------------------------------------------------------- the hub

  /** Every mirror has folded up to where it ever was, of a log with stable keys. */
  ghost predicate CaughtUp(w: World) {
    forall m :: m in w.mirrors ==> w.mirrors[m].upto == w.mirrors[m].high && StableKeys(Y.Own(m, w.mirrors[m].log))
  }

  /** `merged` is what the machines have written up to where the hub has folded, in any interleaving. */
  ghost predicate Merges(f: Fleet, w: World, merged: seq<Event>) {
    && (forall e :: e in merged ==> FineRow(f, w.mirrors.Keys, e))
    && Select(FromNode(f.hub), merged) == Select(FromNode(f.hub), w.applied)
    && forall m :: m in w.mirrors ==> Select(FromNode(m), merged) <= Y.Own(m, w.mirrors[m].log)
                                      && |Select(FromNode(m), merged)| == w.mirrors[m].upto
  }

  lemma OneMachine(f: Fleet, w: World, merged: seq<Event>, m: string)
    requires Inv(f, w) && CaughtUp(w) && Merges(f, w, merged)
    ensures Fold(EMPTY, Select(FromNode(m), w.applied)) == Fold(EMPTY, Select(FromNode(m), merged))
  {
    hide Fold, FineRow, Select, Y.Own, StableKeys, Mirrors, OwnOk;
    if m in w.mirrors {
      var y := w.mirrors[m];
      assert MirrorOk(f, w, m) && Agrees(w, m, y);
      MirrorModel(m, y);
      assert Select(FromNode(m), merged) == Y.Own(m, y.log)[..y.upto];
    } else if m != f.hub {
      Stranger(f, w.mirrors.Keys, w.applied, m);
      Stranger(f, w.mirrors.Keys, merged, m);
    }
  }

  lemma Stranger(f: Fleet, machines: set<string>, log: seq<Event>, m: string)
    requires m != f.hub && m !in machines && forall e :: e in log ==> FineRow(f, machines, e)
    ensures Select(FromNode(m), log) == []
  {
    forall e | e in log ensures !Selects(FromNode(m), e) {
      assert FineRow(f, machines, e);
      StarMatches(e);
    }
    SelectNone(FromNode(m), log);
  }

  /**
   The hub shows every machine: own commands, mirrors of any number of machines, loops that end anywhere and start
   again at or below just after the last event folded, and boots interleave in any order; each mirror's queue is
   recorded in its order, the queues among each other and the hub's own events in any. Whenever the mirrors are
   caught up, the hub's one read-model is the fold of what the machines and the hub have written, however merged.
   */
  lemma HubShowsEveryMachine(f: Fleet, machines: set<string>, worlds: seq<World>, actions: seq<Action>, i: nat,
                             merged: seq<Event>)
    requires IsRun(f, machines, worlds, actions) && i < |worlds|
    requires CaughtUp(worlds[i]) && Merges(f, worlds[i], merged)
    ensures worlds[i].model == Fold(EMPTY, merged)
  {
    RunKeeps(f, machines, worlds, actions, i);
    AllTogether(f, worlds[i], merged);
  }

  lemma AllTogether(f: Fleet, w: World, merged: seq<Event>)
    requires Inv(f, w) && CaughtUp(w) && Merges(f, w, merged)
    ensures w.model == Fold(EMPTY, merged)
  {
    hide MirrorOk, Fold, CaughtUp, OwnOk, WritesOwn, Select;
    forall m ensures Fold(EMPTY, Select(FromNode(m), w.applied)) == Fold(EMPTY, Select(FromNode(m), merged)) {
      OneMachine(f, w, merged, m);
    }
    forall e | e in w.applied ensures WritesOwn(f.owns, e) {
      assert FineRow(f, w.mirrors.Keys, e);
    }
    forall e | e in merged ensures WritesOwn(f.owns, e) {
      assert FineRow(f, w.mirrors.Keys, e);
    }
    SameByMachine(f.owns, w.applied, merged);
  }

  /** Everything the hub has folded is stored. */
  predicate Settled(w: World) {
    w.ownQueue == [] && forall m :: m in w.mirrors ==>
      w.mirrors[m].queue == [] && |w.mirrors[m].stored| == w.mirrors[m].upto
  }

  lemma StoredMerges(f: Fleet, w: World)
    requires Inv(f, w) && Settled(w)
    ensures Merges(f, w, w.rows)
  {
    hide FineRow, Select, Fold, AllFine, Mirrors, Y.Own, Sorted;
    SelectSorted(FromNode(f.hub), w.rows);
    SortedUnique(Select(FromNode(f.hub), w.rows), Select(FromNode(f.hub), w.applied));
    forall m | m in w.mirrors
      ensures Select(FromNode(m), w.rows) <= Y.Own(m, w.mirrors[m].log)
      ensures |Select(FromNode(m), w.rows)| == w.mirrors[m].upto
    {
      assert MirrorOk(f, w, m);
      StoredIsOwn(m, w.mirrors[m]);
    }
  }

  lemma StoredIsOwn(m: string, y: Y.World)
    requires Mirrors(m, y) && y.queue == []
    ensures y.stored <= Y.Own(m, y.log)
  {
    MirrorInv(m, y);
    assert y.queue[..0] == [];
    assert InsertAll(y.stored, y.queue[..0]) <= Y.Own(m, y.log);
  }

  /**
   A restart changes nothing that the hub showed: once the recorder has caught up, the read-model rebuilt from the
   id-merged store is the one that was in memory, with the events of all machines and the hub's own.
   */
  lemma RestartShowsTheSame(f: Fleet, machines: set<string>, worlds: seq<World>, actions: seq<Action>, i: nat)
    requires IsRun(f, machines, worlds, actions) && i < |worlds|
    requires CaughtUp(worlds[i]) && Settled(worlds[i])
    ensures Step(worlds[i], Crash).model == worlds[i].model
  {
    RunKeeps(f, machines, worlds, actions, i);
    StoredMerges(f, worlds[i]);
    AllTogether(f, worlds[i], worlds[i].rows);
  }
}
