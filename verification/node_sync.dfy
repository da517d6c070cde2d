/**
 Mirroring one machine's log into the hub: long-poll after a cursor, fold each event, publish it, and
 let the recorder store it later. The cursor is derived from the newest stored row, so a new loop may
 start behind what was already folded and published.
 */
module NodeSync {
  import opened Envelope
  import opened EventLog
  import opened ReadModel
  import S = Sessions
  import M = Mediation
  import H = NodeHost

  /**
   A running sync loop: `publishing` is folded and suspended at its publish, `queued` once the recorder's queue
   has it. `position` (auxiliary) counts the own events at or below the cursor.
   */
  datatype Loop = Loop(
    cursor: Option<Ulid>, batch: seq<Event>, publishing: Option<Event>, queued: bool, position: nat)

  datatype World = World(
    log: seq<Event>,        // the machine's own store, in id order
    stored: seq<Event>,     // the hub's rows for that machine
    queue: seq<Event>,      // published on the hub, not yet recorded
    model: Model,           // what the hub folded of that machine since its last boot
    loop: Option<Loop>,
    upto: nat, high: nat)   // auxiliary: just after the last own event folded, and after the highest ever folded

  const INITIAL := World([], [], [], EMPTY, None, 0, 0)

  datatype Action =
    | MachineAppends(e: Event)
    | LoopStarts
    | Fetch(limit: int)
    | FoldNext
    | Enqueue
    | PublishReturns
    | Record
    | LoopEnds
    | HubCrashes

  function Own(node: string, log: seq<Event>): seq<Event> {
    Select(FromNode(node), log)
  }

  /** Where a loop with these rows stored starts reading; nothing stored means from the beginning. */
  function InitialCursor(stored: seq<Event>): Option<Ulid> {
    if stored == [] then None else Some(LastId(stored))
  }

  function PageAfter(cursor: Option<Ulid>, limit: int): Query {
    Query(cursor, None, "*", None, None, limit, false)
  }

  predicate Enabled(w: World, a: Action) {
    match a
    case MachineAppends(e) => w.log == [] || LastId(w.log) < e.id
    case LoopStarts => w.loop.None?
    case Fetch(_) => w.loop.Some? && w.loop.value.batch == [] && w.loop.value.publishing.None?
    case FoldNext => w.loop.Some? && w.loop.value.batch != [] && w.loop.value.publishing.None?
    case Enqueue => w.loop.Some? && w.loop.value.publishing.Some? && !w.loop.value.queued
    case PublishReturns => w.loop.Some? && w.loop.value.publishing.Some? && w.loop.value.queued
    case Record => w.queue != []
    case LoopEnds => w.loop.Some?
    case HubCrashes => true
  }

  function Step(w: World, node: string, a: Action): World
    requires Enabled(w, a)
  {
    match a
    case MachineAppends(e) => w.(log := w.log + [e])
    case LoopStarts =>
      var n := |w.stored|;
      w.(loop := Some(Loop(InitialCursor(w.stored), [], None, false, n)))
    case Fetch(limit) =>
      w.(loop := Some(w.loop.value.(batch := Page(PageAfter(w.loop.value.cursor, limit), w.log))))
    case FoldNext =>
      var l := w.loop.value;
      var e := l.batch[0];
      if e.node != node then w.(loop := Some(l.(batch := l.batch[1..])))
      else
        var v := w.(model := Apply(w.model, e), upto := l.position + 1,
                    loop := Some(l.(batch := l.batch[1..], publishing := Some(e), queued := false)));
        if l.position < w.high then v else v.(high := l.position + 1)
    case Enqueue =>
      var l := w.loop.value;
      w.(queue := w.queue + [l.publishing.value], loop := Some(l.(queued := true)))
    case PublishReturns =>
      var l := w.loop.value;
      w.(loop := Some(Loop(Some(l.publishing.value.id), l.batch, None, false, l.position + 1)))
    case Record => w.(stored := Insert(w.stored, w.queue[0]), queue := w.queue[1..])
    case LoopEnds => w.(loop := None)
    case HubCrashes =>
      var n := |w.stored|;
      World(w.log, w.stored, [], Fold(EMPTY, w.stored), None, n, n)
  }

  /** A run: any schedule of enabled actions from empty logs on. */
  ghost predicate IsRun(node: string, worlds: seq<World>, actions: seq<Action>) {
    && |worlds| == |actions| + 1
    && worlds[0] == INITIAL
    && forall i :: 0 <= i < |actions| ==>
         Enabled(worlds[i], actions[i]) && worlds[i + 1] == Step(worlds[i], node, actions[i])
  }

  // ------------------------------------------------------ cursors and pages

  function CursorAt(own: seq<Event>, p: nat): Option<Ulid>
    requires p <= |own|
  {
    if p == 0 then None else Some(own[p - 1].id)
  }

  lemma SelectAll(limit: int, rows: seq<Event>)
    ensures Select(PageAfter(None, limit), rows) == rows
  {
    if rows != [] {
      SelectAll(limit, rows[1..]);
    }
  }

  /** The own events of a page's remainder are exactly the own events not yet reached. */
  lemma OwnAfterCursor(node: string, log: seq<Event>, p: nat, limit: int)
    requires Sorted(log) && p <= |Own(node, log)|
    ensures var rest := Select(PageAfter(CursorAt(Own(node, log), p), limit), log);
            Own(node, rest) == Own(node, log)[p..]
  {
    var own := Own(node, log);
    var c := CursorAt(own, p);
    SelectTwice(node, c, limit, log);
    if p == 0 {
      SelectAgree(FromNode(node).(afterId := c), FromNode(node), log);
    } else {
      AdvanceAfter(FromNode(node), log, p - 1);
    }
  }

  /** Filtering by machine after paging is filtering by both at once. */
  lemma {:induction false} SelectTwice(node: string, cursor: Option<Ulid>, limit: int, rows: seq<Event>)
    ensures Own(node, Select(PageAfter(cursor, limit), rows)) ==
              Select(FromNode(node).(afterId := cursor), rows)
  {
    if rows != [] {
      SelectTwice(node, cursor, limit, rows[1..]);
    }
  }

  lemma OwnGrows(node: string, log: seq<Event>, e: Event)
    ensures Own(node, log + [e]) == Own(node, log) + if e.node == node then [e] else []
  {
    SelectAppend(FromNode(node), log, [e]);
  }

  lemma OwnOfPrefix(node: string, a: seq<Event>, b: seq<Event>)
    requires a <= b
    ensures Own(node, a) <= Own(node, b)
  {
    assert b == a + b[|a|..];
    SelectAppend(FromNode(node), a, b[|a|..]);
  }

  // ------------------------------------------------------- stored is a prefix

  /** However much of the queue has been recorded, the rows are a prefix of the machine's own log. */
  ghost predicate Recoverable(own: seq<Event>, stored: seq<Event>, queue: seq<Event>) {
    forall k :: 0 <= k <= |queue| ==> InsertAll(stored, queue[..k]) <= own
  }

  function Folded(l: Loop): nat {
    l.position + if l.publishing.Some? then 1 else 0
  }

  /** How far the rows and the queue reach at least. */
  function Covered(l: Loop): nat {
    l.position + if l.publishing.Some? && l.queued then 1 else 0
  }

  ghost predicate LoopOk(own: seq<Event>, node: string, l: Loop) {
    && Folded(l) <= |own|
    && l.cursor == CursorAt(own, l.position)
    && (l.publishing.Some? ==> l.publishing.value == own[l.position])
    && Own(node, l.batch) <= own[Folded(l)..]
  }

  ghost predicate Inv(node: string, w: World) {
    var own := Own(node, w.log);
    && Sorted(w.log) && Recoverable(own, w.stored, w.queue)
    && |InsertAll(w.stored, w.queue)| <= w.high <= |own|
    && w.upto <= w.high
    && (w.loop.Some? ==>
          && LoopOk(own, node, w.loop.value)
          && Folded(w.loop.value) <= w.high
          && Covered(w.loop.value) <= |InsertAll(w.stored, w.queue)|)
  }

  lemma AllQueued(queue: seq<Event>)
    ensures queue[..|queue|] == queue
  {
  }

  lemma {:induction false} InsertAllSnoc(rows: seq<Event>, es: seq<Event>, e: Event)
    ensures InsertAll(rows, es + [e]) == Insert(InsertAll(rows, es), e)
    decreases es
  {
    if es == [] {
      assert [] + [e] == [e] && [e][1..] == [];
    } else {
      assert (es + [e])[1..] == es[1..] + [e];
      InsertAllSnoc(Insert(rows, es[0]), es[1..], e);
    }
  }

  lemma {:induction false} InsertAllGrows(rows: seq<Event>, es: seq<Event>)
    ensures |InsertAll(rows, es)| >= |rows|
    decreases es
  {
    if es != [] {
      InsertAllGrows(Insert(rows, es[0]), es[1..]);
      InsertLength(rows, es[0]);
    }
  }

  lemma InsertLength(rows: seq<Event>, e: Event)
    ensures |rows| <= |Insert(rows, e)| <= |rows| + 1
  {
    if rows != [] {
      InsertLength(rows[1..], e);
    }
  }

  /** Publishing the next own event once more, or for the first time, keeps every recording a prefix. */
  lemma PublishedOnTop(own: seq<Event>, stored: seq<Event>, queue: seq<Event>, p: nat)
    requires Sorted(own) && Recoverable(own, stored, queue)
    requires p < |own| && p <= |InsertAll(stored, queue)|
    ensures var all := InsertAll(stored, queue + [own[p]]);
            all <= own && |all| == if p < |InsertAll(stored, queue)| then |InsertAll(stored, queue)| else p + 1
  {
    var all, e := InsertAll(stored, queue), own[p];
    AllQueued(queue);
    assert InsertAll(stored, queue[..|queue|]) <= own;
    InsertAllSnoc(stored, queue, e);
    hide InsertAll;
    if p < |all| {
      assert all[p] == e;
      InsertKnown(all, p);
    } else {
      InsertNewest(all, e);
      assert own[..p] + [e] == own[..p + 1];
    }
  }

  lemma RecoverableSnoc(own: seq<Event>, stored: seq<Event>, queue: seq<Event>, e: Event)
    requires Recoverable(own, stored, queue) && InsertAll(stored, queue + [e]) <= own
    ensures Recoverable(own, stored, queue + [e])
  {
    hide InsertAll;
    var more := queue + [e];
    forall k | 0 <= k <= |more| ensures InsertAll(stored, more[..k]) <= own {
      if k <= |queue| {
        assert more[..k] == queue[..k];
      } else {
        assert more[..k] == more;
      }
    }
  }

  lemma ReturnKeeps(node: string, w: World)
    requires Inv(node, w) && Enabled(w, PublishReturns)
    ensures Inv(node, Step(w, node, PublishReturns))
  {
    hide Own, Recoverable, InsertAll, Insert, Sorted;
  }

  lemma EnqueueKeeps(node: string, w: World)
    requires Inv(node, w) && Enabled(w, Enqueue)
    ensures Inv(node, Step(w, node, Enqueue))
  {
    SelectSorted(FromNode(node), w.log);
    hide Own, Recoverable, InsertAll, Insert, Sorted;
    var l := w.loop.value;
    PublishedOnTop(Own(node, w.log), w.stored, w.queue, l.position);
    RecoverableSnoc(Own(node, w.log), w.stored, w.queue, l.publishing.value);
  }

  lemma RecordKeeps(node: string, w: World)
    requires Inv(node, w) && Enabled(w, Record)
    ensures Inv(node, Step(w, node, Record))
  {
    var v := Step(w, node, Record);
    assert w.queue == [w.queue[0]] + v.queue;
    forall k | 0 <= k <= |v.queue| ensures InsertAll(v.stored, v.queue[..k]) <= Own(node, w.log) {
      assert w.queue[..k + 1][1..] == v.queue[..k];
      assert InsertAll(w.stored, w.queue[..k + 1]) == InsertAll(v.stored, v.queue[..k]);
    }
  }

  lemma FetchKeeps(node: string, w: World, limit: int)
    requires Inv(node, w) && Enabled(w, Fetch(limit))
    ensures Inv(node, Step(w, node, Fetch(limit)))
  {
    var l := w.loop.value;
    var rest := Select(PageAfter(l.cursor, limit), w.log);
    OwnAfterCursor(node, w.log, l.position, limit);
    OwnOfPrefix(node, Page(PageAfter(l.cursor, limit), w.log), rest);
  }

  lemma LoopFolds(own: seq<Event>, node: string, l: Loop)
    requires LoopOk(own, node, l) && l.publishing.None? && l.batch != [] && l.batch[0].node == node
    ensures l.position < |own| && l.batch[0] == own[l.position]
    ensures LoopOk(own, node, l.(batch := l.batch[1..], publishing := Some(l.batch[0]), queued := false))
  {
    OwnHead(node, l.batch);
    hide Own;
    DropHead(own, l.position, l.batch[0], Own(node, l.batch[1..]));
  }

  lemma LoopSkips(own: seq<Event>, node: string, l: Loop)
    requires LoopOk(own, node, l) && l.batch != [] && l.batch[0].node != node
    ensures LoopOk(own, node, l.(batch := l.batch[1..]))
  {
    OwnHead(node, l.batch);
    hide Own;
  }

  lemma FoldKeeps(node: string, w: World)
    requires Inv(node, w) && Enabled(w, FoldNext)
    ensures Inv(node, Step(w, node, FoldNext))
    ensures w.loop.value.batch[0].node == node ==>
              && w.loop.value.position < |Own(node, w.log)|
              && w.loop.value.batch[0] == Own(node, w.log)[w.loop.value.position]
  {
    hide Own, LoopOk, Recoverable, InsertAll, Insert, Sorted;
    var l := w.loop.value;
    if l.batch[0].node == node {
      LoopFolds(Own(node, w.log), node, l);
    } else {
      LoopSkips(Own(node, w.log), node, l);
    }
  }

  lemma OwnHead(node: string, batch: seq<Event>)
    requires batch != []
    ensures Own(node, batch) == if batch[0].node == node then [batch[0]] + Own(node, batch[1..]) else Own(node, batch[1..])
  {
  }

  lemma DropHead(own: seq<Event>, n: nat, e: Event, rest: seq<Event>)
    requires n <= |own| && [e] + rest <= own[n..]
    ensures n < |own| && own[n] == e && rest <= own[n + 1..]
  {
    assert own[n..][0] == e && own[n..][1..] == own[n + 1..];
    assert ([e] + rest)[1..] == rest;
  }

  lemma StartKeeps(node: string, w: World)
    requires Inv(node, w) && Enabled(w, LoopStarts)
    ensures Inv(node, Step(w, node, LoopStarts))
  {
    InsertAllGrows(w.stored, w.queue);
    assert w.queue[..0] == [];
    assert InsertAll(w.stored, []) <= Own(node, w.log);
  }

  lemma AppendKeeps(node: string, w: World, e: Event)
    requires Inv(node, w) && Enabled(w, MachineAppends(e))
    ensures Inv(node, Step(w, node, MachineAppends(e)))
  {
    OwnGrows(node, w.log, e);
    var own, grown := Own(node, w.log), Own(node, w.log + [e]);
    forall k | 0 <= k <= |w.queue| ensures InsertAll(w.stored, w.queue[..k]) <= grown {
      assert InsertAll(w.stored, w.queue[..k]) <= own;
    }
  }

  lemma StepKeeps(node: string, w: World, a: Action)
    requires Inv(node, w) && Enabled(w, a)
    ensures Inv(node, Step(w, node, a))
  {
    match a
    case MachineAppends(e) => AppendKeeps(node, w, e);
    case LoopStarts => StartKeeps(node, w);
    case Fetch(limit) => FetchKeeps(node, w, limit);
    case FoldNext => FoldKeeps(node, w);
    case Enqueue => EnqueueKeeps(node, w);
    case PublishReturns => ReturnKeeps(node, w);
    case Record => RecordKeeps(node, w);
    case LoopEnds =>
    case HubCrashes =>
      assert w.queue[..0] == [];
      assert InsertAll(w.stored, []) <= Own(node, w.log);
  }

  lemma {:induction false} RunKeeps(node: string, worlds: seq<World>, actions: seq<Action>, i: nat)
    requires IsRun(node, worlds, actions) && i < |worlds|
    ensures Inv(node, worlds[i])
  {
    if i > 0 {
      RunKeeps(node, worlds, actions, i - 1);
      StepKeeps(node, worlds[i - 1], actions[i - 1]);
    }
  }

  /**
   Mirroring is crash-safe: in every run, with loops ending and hub crashes at any moment, the hub's rows
   for a machine are a prefix of that machine's own events, and stay one however much of the queue is
   recorded before the next crash.
   */
  lemma StoredIsPrefix(node: string, worlds: seq<World>, actions: seq<Action>, i: nat, k: nat)
    requires IsRun(node, worlds, actions) && i < |worlds| && k <= |worlds[i].queue|
    ensures InsertAll(worlds[i].stored, worlds[i].queue[..k]) <= Own(node, worlds[i].log)
  {
    RunKeeps(node, worlds, actions, i);
  }

  // ------------------------------------------------------------- the model

  /** Folding on from `m` to the high-water mark gives what one fold up to there gives. */
  ghost predicate Mends(own: seq<Event>, model: Model, m: nat, high: nat)
    requires m <= high <= |own|
  {
    Fold(model, own[m..high]) == Fold(EMPTY, own[..high])
  }

  /** A loop may resume anywhere up to where the last one stopped, and mend the model. */
  ghost predicate Mended(own: seq<Event>, model: Model, upto: nat, high: nat)
    requires upto <= high <= |own|
  {
    forall m :: 0 <= m <= upto ==> Mends(own, model, m, high)
  }

  lemma MendedAtTop(own: seq<Event>, n: nat)
    requires StableKeys(own) && n <= |own|
    ensures Mended(own, Fold(EMPTY, own[..n]), n, n)
  {
    var p := own[..n];
    assert StableKeys(p);
    forall m | 0 <= m <= n ensures Mends(own, Fold(EMPTY, p), m, n) {
      assert p[m..] == own[m..n];
      SuffixReplay(p, m);
    }
  }

  lemma KeyedPiece(keyOf: Ulid -> NativeKey, own: seq<Event>, a: nat, b: nat)
    requires a <= b <= |own| && KeyedLog(keyOf, own)
    ensures KeyedLog(keyOf, own[a..b])
  {
  }

  /** Re-folding the next event keeps every earlier resumption good, and makes the next position one more. */
  lemma MendedFurther(keyOf: Ulid -> NativeKey, own: seq<Event>, model: Model, upto: nat, high: nat)
    requires upto < high <= |own| && KeyedLog(keyOf, own) && KeyedModel(keyOf, model)
    requires Mended(own, model, upto, high)
    ensures Mended(own, Apply(model, own[upto]), upto + 1, high)
  {
    hide Fold, Apply, KeyedLog, KeyedModel;
    var e := own[upto];
    forall m | 0 <= m <= upto + 1 ensures Mends(own, Apply(model, e), m, high) {
      if m <= upto {
        assert Mends(own, model, m, high);
        assert own[m..high][upto - m] == e;
        KeyedPiece(keyOf, own, m, high);
        AheadIsAbsorbed(keyOf, model, e, own[m..high]);
      } else {
        assert Mends(own, model, upto, high);
        assert own[upto..high] == [e] + own[upto + 1..high];
        FoldConcat(model, [e], own[upto + 1..high]);
        FoldOne(model, e);
      }
    }
  }

  lemma FoldOne(model: Model, e: Event)
    ensures Fold(model, [e]) == Apply(model, e)
  {
    FoldStep(model, [], e);
    assert [] + [e] == [e];
  }

  lemma MendedLower(own: seq<Event>, model: Model, m: nat, upto: nat, high: nat)
    requires m <= upto <= high <= |own| && Mended(own, model, upto, high)
    ensures Mended(own, model, m, high)
  {
  }

  lemma MendedHere(own: seq<Event>, model: Model, high: nat)
    requires high <= |own| && Mended(own, model, high, high)
    ensures model == Fold(EMPTY, own[..high])
  {
    assert Mends(own, model, high, high);
    assert own[high..high] == [];
  }

  lemma MendedLonger(own: seq<Event>, grown: seq<Event>, model: Model, upto: nat, high: nat)
    requires own <= grown && upto <= high <= |own| && Mended(own, model, upto, high)
    ensures Mended(grown, model, upto, high)
  {
    forall m | 0 <= m <= upto ensures Mends(grown, model, m, high) {
      assert Mends(own, model, m, high);
      assert grown[m..high] == own[m..high] && grown[..high] == own[..high];
    }
  }

  ghost predicate ModelOk(keyOf: Ulid -> NativeKey, node: string, w: World) {
    && Inv(node, w) && KeyedModel(keyOf, w.model)
    && Mended(Own(node, w.log), w.model, w.upto, w.high)
    && (w.loop.Some? ==> Folded(w.loop.value) <= w.upto)
  }

  /** A new loop starts at or below just after the last event folded. */
  predicate Resumes(w: World, a: Action) {
    a.LoopStarts? ==> |w.stored| <= w.upto
  }

  lemma ApplyKeyedModel(keyOf: Ulid -> NativeKey, m: Model, e: Event)
    requires KeyedModel(keyOf, m) && M.Keyed(keyOf, e)
    ensures KeyedModel(keyOf, Apply(m, e))
  {
    M.ApplyKeyed(keyOf, m.inbox, e);
  }

  lemma FoldKeepsModel(keyOf: Ulid -> NativeKey, node: string, w: World)
    requires ModelOk(keyOf, node, w) && Enabled(w, FoldNext)
    requires StableKeys(Own(node, w.log)) && KeyedLog(keyOf, Own(node, w.log))
    ensures ModelOk(keyOf, node, Step(w, node, FoldNext))
  {
    hide Own, Recoverable, InsertAll, Insert, Sorted, LoopOk, Fold, Apply, StableKeys, KeyedModel, Mended;
    FoldKeeps(node, w);
    var own, p := Own(node, w.log), w.loop.value.position;
    if w.loop.value.batch[0].node == node {
      var e := own[p];
      ApplyKeyedModel(keyOf, w.model, e);
      if p < w.high {
        MendedLower(own, w.model, p, w.upto, w.high);
        MendedFurther(keyOf, own, w.model, p, w.high);
      } else {
        MendedHere(own, w.model, w.high);
        FoldStep(EMPTY, own[..w.high], e);
        assert own[..w.high + 1] == own[..w.high] + [e];
        MendedAtTop(own, w.high + 1);
      }
    }
  }

  lemma AppendKeepsModel(keyOf: Ulid -> NativeKey, node: string, w: World, e: Event)
    requires ModelOk(keyOf, node, w) && Enabled(w, MachineAppends(e))
    ensures ModelOk(keyOf, node, Step(w, node, MachineAppends(e)))
  {
    hide Own, Recoverable, InsertAll, Sorted, LoopOk, Mended, KeyedModel;
    AppendKeeps(node, w, e);
    OwnGrows(node, w.log, e);
    MendedLonger(Own(node, w.log), Own(node, w.log + [e]), w.model, w.upto, w.high);
  }

  lemma StartKeepsModel(keyOf: Ulid -> NativeKey, node: string, w: World)
    requires ModelOk(keyOf, node, w) && Enabled(w, LoopStarts) && Resumes(w, LoopStarts)
    ensures ModelOk(keyOf, node, Step(w, node, LoopStarts))
  {
    hide Own, Recoverable, InsertAll, Sorted, LoopOk, Mends, KeyedModel;
    StartKeeps(node, w);
  }

  lemma CrashKeepsModel(keyOf: Ulid -> NativeKey, node: string, w: World)
    requires Inv(node, w) && StableKeys(Own(node, w.log)) && KeyedLog(keyOf, Own(node, w.log))
    ensures ModelOk(keyOf, node, Step(w, node, HubCrashes))
  {
    StepKeeps(node, w, HubCrashes);
    assert w.queue[..0] == [] && InsertAll(w.stored, []) <= Own(node, w.log);
    hide Own, Sorted, LoopOk, Recoverable, Mended, StableKeys;
    var own, n := Own(node, w.log), |w.stored|;
    assert w.stored == own[..n];
    KeyedPiece(keyOf, own, 0, n);
    M.FoldKeyed(keyOf, M.EMPTY, w.stored);
    MendedAtTop(own, n);
  }

  lemma ModelStep(keyOf: Ulid -> NativeKey, node: string, w: World, a: Action)
    requires ModelOk(keyOf, node, w) && Enabled(w, a) && Resumes(w, a)
    requires StableKeys(Own(node, w.log)) && KeyedLog(keyOf, Own(node, w.log))
    ensures ModelOk(keyOf, node, Step(w, node, a))
  {
    hide StableKeys, Own, Fold, Insert, Page, Apply, Mended, KeyedModel, KeyedLog, Recoverable, LoopOk, InsertAll;
    StepKeeps(node, w, a);
    match a
    case MachineAppends(e) => AppendKeepsModel(keyOf, node, w, e);
    case LoopStarts => StartKeepsModel(keyOf, node, w);
    case FoldNext => FoldKeepsModel(keyOf, node, w);
    case HubCrashes => CrashKeepsModel(keyOf, node, w);
    case _ =>
  }

  lemma OwnOnlyGrows(node: string, w: World, a: Action)
    requires Enabled(w, a)
    ensures Own(node, w.log) <= Own(node, Step(w, node, a).log)
  {
    if a.MachineAppends? {
      OwnGrows(node, w.log, a.e);
    }
  }

  lemma {:induction false} RunKeepsModel(keyOf: Ulid -> NativeKey, node: string, worlds: seq<World>,
                                         actions: seq<Action>, i: nat)
    requires IsRun(node, worlds, actions) && i < |worlds|
    requires forall j :: 0 <= j < |actions| ==> Resumes(worlds[j], actions[j])
    requires StableKeys(Own(node, worlds[i].log)) && KeyedLog(keyOf, Own(node, worlds[i].log))
    ensures ModelOk(keyOf, node, worlds[i])
  {
    if i == 0 {
      StartsMended(keyOf, node);
    } else {
      var w, a := worlds[i - 1], actions[i - 1];
      OwnOnlyGrows(node, w, a);
      RunKeepsModel(keyOf, node, worlds, actions, i - 1);
      ModelStep(keyOf, node, w, a);
    }
  }

  lemma StartsMended(keyOf: Ulid -> NativeKey, node: string)
    ensures ModelOk(keyOf, node, INITIAL)
  {
    assert Own(node, []) == [];
    MendedAtTop([], 0);
  }

  /**
   Resuming converges: in every run, with hub crashes and loops ending at any moment, whose loops start at or
   below just after the last event folded, folding on from there up to the highest event reached gives the fold
   of the prefix up to there - and once that one was the last folded, the read-model is that fold.
   */
  lemma ModelIsFoldOfPrefix(node: string, worlds: seq<World>, actions: seq<Action>, i: nat)
    requires IsRun(node, worlds, actions) && i < |worlds|
    requires forall j :: 0 <= j < |actions| ==> Resumes(worlds[j], actions[j])
    requires StableKeys(Own(node, worlds[i].log))
    ensures var w, own := worlds[i], Own(node, worlds[i].log);
            && w.upto <= w.high <= |own|
            && Fold(w.model, own[w.upto..w.high]) == Fold(EMPTY, own[..w.high])
            && (w.upto == w.high ==> w.model == Fold(EMPTY, own[..w.upto]))
  {
    var w, own := worlds[i], Own(node, worlds[i].log);
    var keyOf := StableIsKeyed(own);
    RunKeepsModel(keyOf, node, worlds, actions, i);
    assert Mends(own, w.model, w.upto, w.high);
    assert own[w.high..w.high] == [];
  }

  /** The running loop never stands above the last event folded. */
  lemma LoopIsBehind(node: string, worlds: seq<World>, actions: seq<Action>, i: nat)
    requires IsRun(node, worlds, actions) && i < |worlds|
    requires forall j :: 0 <= j < |actions| ==> Resumes(worlds[j], actions[j])
    requires StableKeys(Own(node, worlds[i].log))
    ensures var w := worlds[i];
            w.loop.Some? ==> Folded(w.loop.value) <= w.upto <= w.high <= |Own(node, w.log)|
  {
    hide StableKeys, Own, Step, Enabled, Resumes, Mended, KeyedModel, KeyedLog;
    var keyOf := StableIsKeyed(Own(node, worlds[i].log));
    RunKeepsModel(keyOf, node, worlds, actions, i);
  }

  /** A loop ends (without the hub crashing) only once it has folded up to where the hub already was. */
  predicate Patient(w: World, a: Action) {
    a.LoopEnds? ==> w.upto == w.high
  }

  lemma {:induction false} PatientIsCaughtUp(node: string, worlds: seq<World>, actions: seq<Action>, i: nat)
    requires IsRun(node, worlds, actions) && i < |worlds|
    requires forall j :: 0 <= j < |actions| ==> Patient(worlds[j], actions[j])
    ensures worlds[i].loop.None? ==> worlds[i].upto == worlds[i].high
  {
    if i > 0 {
      PatientIsCaughtUp(node, worlds, actions, i - 1);
      assert Patient(worlds[i - 1], actions[i - 1]);
    }
  }

  /** Loops that are never cut short while re-folding always start where they may. */
  lemma PatientLoopsResume(node: string, worlds: seq<World>, actions: seq<Action>, i: nat)
    requires IsRun(node, worlds, actions) && i < |actions|
    requires forall j :: 0 <= j < |actions| ==> Patient(worlds[j], actions[j])
    ensures Resumes(worlds[i], actions[i])
  {
    PatientIsCaughtUp(node, worlds, actions, i);
    RunKeeps(node, worlds, actions, i);
    InsertAllGrows(worlds[i].stored, worlds[i].queue);
  }

  /** With hub crashes as the only interruption nothing is ever folded twice between two boots. */
  lemma {:induction false} CrashesAloneNeverReplay(node: string, worlds: seq<World>, actions: seq<Action>, i: nat)
    requires IsRun(node, worlds, actions) && i < |worlds|
    requires forall j :: 0 <= j < |actions| ==> !actions[j].LoopEnds?
    ensures worlds[i].upto == worlds[i].high
    ensures worlds[i].loop.Some? ==> Folded(worlds[i].loop.value) == worlds[i].high
    ensures worlds[i].loop.None? ==> worlds[i].queue == [] && |worlds[i].stored| == worlds[i].high
  {
    if i > 0 {
      CrashesAloneNeverReplay(node, worlds, actions, i - 1);
    }
  }

  // ---------------------------------------------------------------- progress

  /** Steps left of the publish the loop is suspended at. */
  function StepsLeft(l: Loop): nat {
    if l.publishing.None? then 0 else if l.queued then 1 else 2
  }

  /** Works off the current batch without interruption. */
  function Drain(node: string, w: World): World
    requires w.loop.Some?
    decreases |w.loop.value.batch|, StepsLeft(w.loop.value)
  {
    if Enabled(w, Enqueue) then Drain(node, Step(w, node, Enqueue))
    else if Enabled(w, PublishReturns) then Drain(node, Step(w, node, PublishReturns))
    else if w.loop.value.batch != [] then Drain(node, Step(w, node, FoldNext))
    else w
  }

  lemma {:induction false} DrainSpec(node: string, w: World)
    requires w.loop.Some?
    ensures var l, v := w.loop.value, Drain(node, w);
            && v.log == w.log && v.stored == w.stored && v.loop.Some?
            && v.loop.value.batch == [] && v.loop.value.publishing.None?
            && v.loop.value.position == Folded(l) + |Own(node, l.batch)|
            && (Own(node, l.batch) == [] && l.publishing.None? ==>
                  v == w.(loop := Some(l.(batch := []))))
    decreases |w.loop.value.batch|, StepsLeft(w.loop.value)
  {
    var l := w.loop.value;
    if Enabled(w, Enqueue) {
      DrainSpec(node, Step(w, node, Enqueue));
    } else if Enabled(w, PublishReturns) {
      DrainSpec(node, Step(w, node, PublishReturns));
    } else if l.batch != [] {
      DrainSpec(node, Step(w, node, FoldNext));
    }
  }

  /** One uninterrupted turn of the loop: fetch a page and work it off. */
  function Turn(node: string, w: World, limit: int): World
    requires Enabled(w, Fetch(limit))
  {
    Drain(node, Step(w, node, Fetch(limit)))
  }

  /**
   Progress, exactly: a turn advances the cursor if and only if its page holds an event of the machine
   itself. A page of foreign events only leaves the world as it was, so every later turn repeats it.
   */
  lemma TurnAdvances(node: string, w: World, limit: int)
    requires Enabled(w, Fetch(limit))
    ensures var page := Page(PageAfter(w.loop.value.cursor, limit), w.log);
            var v := Turn(node, w, limit);
            && v.loop.Some?
            && (v.loop.value.position > w.loop.value.position <==> exists e :: e in page && e.node == node)
            && ((forall e :: e in page ==> e.node != node) ==> v == w)
  {
    var page := Page(PageAfter(w.loop.value.cursor, limit), w.log);
    DrainSpec(node, Step(w, node, Fetch(limit)));
    OwnEmpty(node, page);
  }

  lemma OwnEmpty(node: string, page: seq<Event>)
    ensures Own(node, page) == [] <==> forall e :: e in page ==> e.node != node
  {
    forall e | e in page && e.node == node ensures e in Own(node, page) {
      SelectMember(FromNode(node), page, e);
    }
    if Own(node, page) != [] {
      SelectMember(FromNode(node), page, Own(node, page)[0]);
    }
  }

  /**
   Where a machine logs only its own events, every turn with something left advances, and a turn that
   finds nothing means the whole log has been folded and published: mirroring is complete.
   */
  lemma OwnLogIsMirroredCompletely(node: string, w: World, limit: int)
    requires Inv(node, w) && Enabled(w, Fetch(limit)) && H.AllFrom(node, w.log)
    ensures var page := Page(PageAfter(w.loop.value.cursor, limit), w.log);
            var l := w.loop.value;
            && l.position <= |w.log|
            && (page == [] <==> l.position == |w.log|)
            && (l.position < |w.log| ==>
                  Turn(node, w, limit).loop.Some? && Turn(node, w, limit).loop.value.position > l.position)
  {
    var l := w.loop.value;
    OwnIsAll(node, w.log);
    OwnAfterCursor(node, w.log, l.position, limit);
    var rest := Select(PageAfter(l.cursor, limit), w.log);
    forall e | e in rest ensures e.node == node {
      SelectMember(PageAfter(l.cursor, limit), w.log, e);
    }
    OwnIsAll(node, rest);
    TurnAdvances(node, w, limit);
    if l.position < |w.log| {
      var page := Page(PageAfter(l.cursor, limit), w.log);
      assert page[0] == rest[0] && rest[0] in rest && page[0] in page;
    }
  }

  lemma {:induction false} OwnIsAll(node: string, log: seq<Event>)
    requires H.AllFrom(node, log)
    ensures Own(node, log) == log
  {
    if log != [] {
      OwnIsAll(node, log[1..]);
    }
  }

  // ------------------------------------------------------------- end to end

  /**
   The hub shows what the machine holds: if the machine's recorder has stored everything the machine has
   issued, and the hub's loop has folded it all, then the hub's sessions and interactions for that machine
   are the machine's own, whatever interleavings and crashes either side went through.
   */
  lemma HubShowsTheMachine(node: string, worlds: seq<World>, actions: seq<Action>, i: nat,
                           hosts: seq<H.World>, steps: seq<H.Action>, j: nat)
    requires IsRun(node, worlds, actions) && i < |worlds|
    requires forall k :: 0 <= k < |actions| ==> Resumes(worlds[k], actions[k])
    requires H.IsRun(node, hosts, steps) && j < |hosts|
    requires worlds[i].log == hosts[j].issued && worlds[i].upto == worlds[i].high == |worlds[i].log|
    ensures worlds[i].model == Model(hosts[j].catalogue, hosts[j].live.inbox)
  {
    H.RunKeeps(node, hosts, steps, j);
    LawfulIsStable(node, hosts[j].issued);
    OwnIsAll(node, worlds[i].log);
    ModelIsFoldOfPrefix(node, worlds, actions, i);
    assert worlds[i].log[..|worlds[i].log|] == worlds[i].log;
  }

  // --------------------------------------------------------- the loop itself

  const BACKOFF_CAP := 60.0

  lemma NothingOwn(node: string, x: Model)
    ensures Own(node, []) == [] && Fold(x, []) == x
  {
  }

  /** What one more event of a batch adds to the machine's own events, and to their fold. */
  lemma OneMoreOwn(node: string, batch: seq<Event>, i: nat, x: Model)
    requires i < |batch|
    ensures var own, e := Own(node, batch[..i]), batch[i];
            Own(node, batch[..i + 1]) == if e.node == node then own + [e] else own
    ensures Fold(x, Own(node, batch[..i + 1])) ==
              if batch[i].node == node then Apply(Fold(x, Own(node, batch[..i])), batch[i])
              else Fold(x, Own(node, batch[..i]))
  {
    hide Own, Apply;
    assert batch[..i + 1] == batch[..i] + [batch[i]];
    OwnGrows(node, batch[..i], batch[i]);
    FoldStep(x, Own(node, batch[..i]), batch[i]);
    assert Own(node, batch[..i]) + [] == Own(node, batch[..i]);
  }

  /** The batch loop over the hub's registry and mediation service. */
  class Mirror {
    const node: string
    const registry: S.SessionRegistry
    const mediation: M.MediationService
    var published: seq<Event>
    var cursor: Option<Ulid>
    var backoff: real

    constructor (node: string, registry: S.SessionRegistry, mediation: M.MediationService, cursor: Option<Ulid>)
      ensures this.node == node && this.registry == registry && this.mediation == mediation
      ensures published == [] && this.cursor == cursor && backoff == 1.0
    {
      this.node, this.registry, this.mediation, this.cursor := node, registry, mediation, cursor;
      published, backoff := [], 1.0;
    }

    ghost predicate Valid()
      reads registry, mediation
    {
      registry.Valid() && mediation.Valid() && registry.node != node && mediation.node != node
    }

    ghost function View(): Model
      reads registry, registry.byId.Values, mediation, mediation.byId.Values
    {
      Model(registry.View(), mediation.View().inbox)
    }

    method FoldSession(e: Event)
      requires Valid() && e.node == node
      modifies registry, registry.byId.Values
      ensures Valid() && fresh(registry.byId.Values - old(registry.byId.Values))
      ensures View() == old(View()).(sessions := S.Apply(old(View()).sessions, e))
    {
      registry.ApplyRemote(e);
    }

    method FoldInteraction(e: Event)
      requires Valid() && e.node == node
      modifies mediation, mediation.byId.Values
      ensures Valid() && fresh(mediation.byId.Values - old(mediation.byId.Values))
      ensures View() == old(View()).(inbox := M.Apply(old(View()).inbox, e))
    {
      mediation.ApplyRemote(e);
    }

    /** One event: dropped when foreign, else folded into both services, published, and passed. */
    method MirrorEvent(e: Event)
      requires Valid()
      modifies this, registry, registry.byId.Values, mediation, mediation.byId.Values
      ensures Valid() && backoff == old(backoff)
      ensures fresh(registry.byId.Values - old(registry.byId.Values))
      ensures fresh(mediation.byId.Values - old(mediation.byId.Values))
      ensures View() == if e.node == node then Apply(old(View()), e) else old(View())
      ensures published == old(published) + if e.node == node then [e] else []
      ensures cursor == if e.node == node then Some(e.id) else old(cursor)
    {
      if e.node == node {
        FoldSession(e);
        FoldInteraction(e);
        published := published + [e];
        cursor := Some(e.id);
      }
    }

    method MirrorBatch(batch: seq<Event>)
      requires Valid()
      modifies this, registry, registry.byId.Values, mediation, mediation.byId.Values
      ensures Valid() && backoff == 1.0
      ensures View() == Fold(old(View()), Own(node, batch))
      ensures published == old(published) + Own(node, batch)
      ensures cursor == if Own(node, batch) == [] then old(cursor) else Some(LastId(Own(node, batch)))
    {
      hide View, Valid, Apply, Own;
      assert batch[..0] == [];
      NothingOwn(node, View());
      backoff := 1.0;
      for i := 0 to |batch|
        invariant Valid() && backoff == 1.0
        invariant fresh(registry.byId.Values - old(registry.byId.Values))
        invariant fresh(mediation.byId.Values - old(mediation.byId.Values))
        invariant View() == Fold(old(View()), Own(node, batch[..i]))
        invariant published == old(published) + Own(node, batch[..i])
        invariant cursor == if Own(node, batch[..i]) == [] then old(cursor) else Some(LastId(Own(node, batch[..i])))
      {
        OneMoreOwn(node, batch, i, old(View()));
        MirrorEvent(batch[i]);
      }
      assert batch[..|batch|] == batch;
    }

    /** An unreachable machine doubles the wait up to the cap; nothing else changes. */
    method Unreachable() returns (wait: real)
      requires 1.0 <= backoff <= BACKOFF_CAP
      modifies this`backoff
      ensures wait == old(backoff) && wait <= backoff <= BACKOFF_CAP
      ensures backoff == if wait * 2.0 < BACKOFF_CAP then wait * 2.0 else BACKOFF_CAP
    {
      wait := backoff;
      backoff := if backoff * 2.0 < BACKOFF_CAP then backoff * 2.0 else BACKOFF_CAP;
    }
  }
}
