/**
 The WebSocket event stream: subscribe first, replay the stored log from the client's cursor, then forward
 the live queue, skipping what the replay already covered.
 */
module EventStream {
  import opened Envelope
  import opened EventLog

  predicate Wanted(patterns: seq<string>, e: Event) {
    exists i :: 0 <= i < |patterns| && Matches(patterns[i], TypeOf(e.body))
  }

  /** The wanted events above a cursor, in log order. */
  function Due(patterns: seq<string>, after: nat, log: seq<Event>): seq<Event> {
    if log == [] then []
    else
      var e := log[|log| - 1];
      Due(patterns, after, log[..|log| - 1]) + if e.id > after && Wanted(patterns, e) then [e] else []
  }

  lemma DueStep(patterns: seq<string>, after: nat, log: seq<Event>, e: Event)
    ensures Due(patterns, after, log + [e]) ==
              Due(patterns, after, log) + if e.id > after && Wanted(patterns, e) then [e] else []
  {
    assert (log + [e])[..|log|] == log;
  }

  lemma {:induction false} DuePrefix(patterns: seq<string>, after: nat, log: seq<Event>, k: nat)
    requires k <= |log|
    ensures Due(patterns, after, log[..k]) <= Due(patterns, after, log)
  {
    if k < |log| {
      DuePrefix(patterns, after, log[..|log| - 1], k);
      assert log[..|log| - 1][..k] == log[..k];
    } else {
      assert log[..k] == log;
    }
  }

  lemma {:induction false} DueMember(patterns: seq<string>, after: nat, log: seq<Event>, e: Event)
    ensures e in Due(patterns, after, log) <==> e in log && e.id > after && Wanted(patterns, e)
  {
    if log != [] {
      assert log == log[..|log| - 1] + [log[|log| - 1]];
      DueMember(patterns, after, log[..|log| - 1], e);
    }
  }

  /** What is due: each event above the cursor that some pattern matches, as often as it is in the log. */
  lemma {:induction false} DueExactly(patterns: seq<string>, after: nat, log: seq<Event>, e: Event)
    ensures multiset(Due(patterns, after, log))[e] ==
              if after < e.id && (exists i :: 0 <= i < |patterns| && Matches(patterns[i], TypeOf(e.body)))
              then multiset(log)[e] else 0
  {
    hide Matches, TypeOf;
    if log != [] {
      assert log == log[..|log| - 1] + [log[|log| - 1]];
      DueExactly(patterns, after, log[..|log| - 1], e);
    }
  }

  /**
   `published` is every event in publish order; the recorder has stored its first `recorded` and the
   subscriber has been handed those from the subscription on up to `delivered`. `seen` and `overflowed`
   are auxiliary.
   */
  datatype World = World(
    published: seq<Event>, recorded: nat, delivered: nat, queue: seq<Event>, bound: nat,
    replaying: bool, last: nat, batch: seq<Event>, sent: seq<Event>,
    seen: nat, overflowed: bool)

  datatype Action =
    | Publish(e: Event)
    | Record
    | DeliverNext
    | FetchPage
    | SendNext
    | ForwardNext

  /** Subscribing when the first `recorded` events are stored; without a cursor there is no replay. */
  function Subscribed(published: seq<Event>, recorded: nat, bound: nat, cursor: Option<nat>): World {
    var n := |published|;
    match cursor
    case Some(c) => World(published, recorded, n, [], bound, true, c, [], [], CountUpTo(published, c), false)
    case None => World(published, recorded, n, [], bound, false, 0, [], [], n, false)
  }

  function CountUpTo(log: seq<Event>, x: nat): (n: nat)
    ensures n <= |log|
  {
    if log == [] then 0
    else if log[|log| - 1].id <= x then |log| else CountUpTo(log[..|log| - 1], x)
  }

  lemma {:induction false} CountSplits(log: seq<Event>, x: nat)
    requires Sorted(log)
    ensures forall i :: 0 <= i < |log| ==> (log[i].id <= x <==> i < CountUpTo(log, x))
  {
    if log != [] && log[|log| - 1].id > x {
      CountSplits(log[..|log| - 1], x);
    }
  }

  function Rows(w: World): seq<Event>
    requires w.recorded <= |w.published|
  {
    w.published[..w.recorded]
  }

  function PageQuery(last: nat): Query {
    Query(if last == 0 then None else Some(last), None, "*", None, None, 500, false)
  }

  predicate Enabled(w: World, a: Action) {
    && w.recorded <= |w.published| && w.delivered <= |w.published|
    && match a
       case Publish(e) => e.id > LastId(w.published) && e.id > 0
       case Record => w.recorded < |w.published|
       case DeliverNext => w.delivered < |w.published|
       case FetchPage => w.replaying && w.batch == []
       case SendNext => w.replaying && w.batch != []
       case ForwardNext => !w.replaying && w.queue != []
  }

  function Step(w: World, patterns: seq<string>, a: Action): World
    requires Enabled(w, a)
  {
    match a
    case Publish(e) =>
      w.(published := w.published + [e], seen := if e.id <= w.last then |w.published| + 1 else w.seen)
    case Record => w.(recorded := w.recorded + 1)
    case DeliverNext =>
      var e := w.published[w.delivered];
      if w.bound == 0 || |w.queue| < w.bound then w.(queue := w.queue + [e], delivered := w.delivered + 1)
      else w.(queue := w.queue[1..] + [e], delivered := w.delivered + 1, overflowed := true)
    case FetchPage =>
      var page := Page(PageQuery(w.last), Rows(w));
      if page == [] then w.(replaying := false, seen := Later(w.seen, w.delivered - |w.queue|))
      else w.(batch := page)
    case SendNext =>
      var e := w.batch[0];
      w.(batch := w.batch[1..], sent := if Wanted(patterns, e) then w.sent + [e] else w.sent,
         last := if |w.batch| == 1 then e.id else w.last, seen := w.seen + 1)
    case ForwardNext =>
      var e := w.queue[0];
      if e.id > w.last then
        w.(queue := w.queue[1..], sent := if Wanted(patterns, e) then w.sent + [e] else w.sent,
           seen := Later(w.seen, w.delivered - |w.queue| + 1))
      else w.(queue := w.queue[1..])
  }

  function Later(a: int, b: int): nat {
    if a >= b then if a >= 0 then a else 0 else if b >= 0 then b else 0
  }

  ghost predicate IsRun(start: World, patterns: seq<string>, worlds: seq<World>, actions: seq<Action>) {
    && |worlds| == |actions| + 1
    && worlds[0] == start
    && forall i :: 0 <= i < |actions| ==>
         Enabled(worlds[i], actions[i]) && worlds[i + 1] == Step(worlds[i], patterns, actions[i])
  }

  // -------------------------------------------------------------- invariant

  /** The subscriber's queue is a window of the published log that starts at or after `base`. */
  ghost predicate Positions(base: nat, w: World) {
    && Sorted(w.published) && (forall i :: 0 <= i < |w.published| ==> w.published[i].id > 0)
    && w.recorded <= |w.published| && base <= w.delivered <= |w.published|
    && |w.queue| <= w.delivered - base
    && w.queue == w.published[w.delivered - |w.queue|..w.delivered]
  }

  /** `cursor` is the client's, or for a client without one the newest id at subscription. */
  ghost predicate Edge(cursor: nat, w: World) {
    && w.seen <= |w.published| && w.delivered <= |w.published| && |w.queue| <= w.delivered
    && (w.last <= cursor || w.last <= LastId(w.published))
    && (cursor <= w.last || cursor <= LastId(w.published))
    && (forall i :: 0 <= i < |w.published| && w.published[i].id <= w.last ==> i < w.seen)
  }

  ghost predicate Boundary(cursor: nat, base: nat, w: World) {
    Edge(cursor, w) && if w.replaying then cursor <= w.last && ReplayOk(base, w) else w.batch == [] && LiveOk(cursor, base, w)
  }

  ghost predicate ReplayOk(base: nat, w: World)
    requires w.seen <= |w.published|
  {
    && w.seen + |w.batch| <= |w.published|
    && w.batch == w.published[w.seen..w.seen + |w.batch|]
    && (w.batch != [] ==> w.batch[0].id > w.last)
    && (w.batch == [] ==> forall i :: 0 <= i < w.seen ==> w.published[i].id <= w.last)
    && (!w.overflowed ==> w.delivered - |w.queue| == base)
  }

  /** Below `seen` everything was replayed or taken; what was not taken is in the queue or still to come. */
  ghost predicate LiveOk(cursor: nat, base: nat, w: World)
    requires w.delivered <= |w.published| && |w.queue| <= w.delivered && w.seen <= |w.published|
  {
    var taken := w.delivered - |w.queue|;
    && base <= w.seen
    && (!w.overflowed ==> taken <= w.seen)
    && (forall i :: 0 <= i < w.seen ==> w.published[i].id <= w.last || i < taken)
    && (forall i :: base <= i < |w.published| && w.published[i].id > w.last ==> w.published[i].id > cursor)
  }

  /** Without overflow exactly what is due was sent; with it, a part of that, in order. */
  ghost predicate SentOk(due: seq<Event>, sent: seq<Event>, overflowed: bool) {
    && Sorted(sent) && (forall x :: x in sent ==> x in due)
    && (!overflowed ==> sent == due)
  }

  predicate IsDue(patterns: seq<string>, cursor: nat, e: Event) {
    e.id > cursor && Wanted(patterns, e)
  }

  /** Nothing in this stretch of the log is wanted and above the cursor. */
  ghost predicate NoneDue(patterns: seq<string>, cursor: nat, log: seq<Event>, from: nat, to: nat)
    requires to <= |log|
  {
    forall i :: from <= i < to ==> !IsDue(patterns, cursor, log[i])
  }

  /** `base` events were published before the subscription; what of them is not recorded yet is not due. */
  ghost predicate Inv(patterns: seq<string>, cursor: nat, base: nat, w: World) {
    && Positions(base, w) && Boundary(cursor, base, w)
    && NoneDue(patterns, cursor, w.published, w.recorded, base)
    && SentOk(Due(patterns, cursor, w.published[..w.seen]), w.sent, w.overflowed)
  }

  /** Above `last` the store's rows are the rest of the log. */
  lemma {:induction false} SelectFrom(log: seq<Event>, last: nat, k: nat)
    requires k <= |log| && forall i :: 0 <= i < |log| ==> log[i].id > 0
    requires forall i :: 0 <= i < |log| ==> (log[i].id <= last <==> i < k)
    ensures Select(PageQuery(last), log) == log[k..]
  {
    if log != [] {
      var n := |log| - 1;
      SelectLast(PageQuery(last), log);
      if k == |log| {
        SelectFrom(log[..n], last, n);
      } else {
        SelectFrom(log[..n], last, k);
        assert log[k..] == log[..n][k..] + [log[n]];
      }
    }
  }

  /** Looking at one more published event extends what is sent by exactly that event when it is due. */
  lemma SeeNext(patterns: seq<string>, cursor: nat, log: seq<Event>, seen: nat, k: nat,
                sent: seq<Event>, overflowed: bool)
    requires Sorted(log) && seen <= k < |log| && log[k].id > cursor && (!overflowed ==> k == seen)
    requires SentOk(Due(patterns, cursor, log[..seen]), sent, overflowed)
    ensures SentOk(Due(patterns, cursor, log[..k + 1]),
                   if Wanted(patterns, log[k]) then sent + [log[k]] else sent, overflowed)
  {
    assert log[..k + 1] == log[..k] + [log[k]];
    DueStep(patterns, cursor, log[..k], log[k]);
    assert log[..k][..seen] == log[..seen];
    DuePrefix(patterns, cursor, log[..k], seen);
    forall i | 0 <= i < |sent| ensures sent[i].id < log[k].id {
      assert sent[i] in sent;
      DueMember(patterns, cursor, log[..seen], sent[i]);
    }
  }

  lemma PublishedPositions(base: nat, w: World, e: Event, v: World)
    requires Positions(base, w) && e.id > LastId(w.published) && e.id > 0
    requires v == w.(published := w.published + [e], seen := v.seen)
    ensures Positions(base, v)
  {
    assert forall i :: 0 <= i < |w.published| ==> w.published[i].id <= LastId(w.published);
    assert v.queue == v.published[v.delivered - |v.queue|..v.delivered];
  }

  lemma NothingAhead(cursor: nat, base: nat, w: World, e: Event)
    requires Positions(base, w) && Boundary(cursor, base, w) && e.id > LastId(w.published) && e.id <= w.last
    ensures w.seen == |w.published| && e.id <= cursor && w.batch == []
  {
    var n := |w.published|;
    if n > 0 {
      assert w.published[n - 1].id <= w.last;
    }
  }

  lemma PublishedEdge(cursor: nat, base: nat, w: World, e: Event, v: World)
    requires Positions(base, w) && Boundary(cursor, base, w) && e.id > LastId(w.published)
    requires v == w.(published := w.published + [e], seen := v.seen)
    requires v.seen == if e.id <= w.last then |w.published| + 1 else w.seen
    ensures Edge(cursor, v)
  {
    if e.id <= w.last {
      NothingAhead(cursor, base, w, e);
    }
  }

  lemma PublishedReplay(cursor: nat, base: nat, w: World, e: Event, v: World)
    requires Positions(base, w) && Boundary(cursor, base, w) && e.id > LastId(w.published) && w.replaying
    requires v == w.(published := w.published + [e], seen := v.seen)
    requires v.seen == if e.id <= w.last then |w.published| + 1 else w.seen
    ensures ReplayOk(base, v)
  {
    if e.id <= w.last {
      NothingAhead(cursor, base, w, e);
    } else {
      assert v.batch == v.published[w.seen..w.seen + |v.batch|];
    }
  }

  lemma PublishedLive(cursor: nat, base: nat, w: World, e: Event, v: World)
    requires Positions(base, w) && Boundary(cursor, base, w) && e.id > LastId(w.published) && !w.replaying
    requires v == w.(published := w.published + [e], seen := v.seen)
    requires v.seen == if e.id <= w.last then |w.published| + 1 else w.seen
    ensures LiveOk(cursor, base, v)
  {
    if e.id <= w.last {
      NothingAhead(cursor, base, w, e);
    }
  }

  lemma PublishKeeps(patterns: seq<string>, cursor: nat, base: nat, w: World, e: Event)
    requires Inv(patterns, cursor, base, w) && Enabled(w, Publish(e))
    ensures Inv(patterns, cursor, base, Step(w, patterns, Publish(e)))
  {
    hide Positions, ReplayOk, LiveOk, SentOk, Due, Wanted, Page;
    var v := Step(w, patterns, Publish(e));
    PublishedPositions(base, w, e, v);
    PublishedEdge(cursor, base, w, e, v);
    if w.replaying {
      PublishedReplay(cursor, base, w, e, v);
    } else {
      PublishedLive(cursor, base, w, e, v);
    }
    if e.id <= w.last {
      NothingAhead(cursor, base, w, e);
      assert v.published[..v.seen] == w.published[..w.seen] + [e];
      DueStep(patterns, cursor, w.published[..w.seen], e);
      assert Due(patterns, cursor, v.published[..v.seen]) == Due(patterns, cursor, w.published[..w.seen]);
    } else {
      assert v.published[..w.seen] == w.published[..w.seen];
    }
  }

  /** A page is the stretch of the log right above `seen`; an empty page means all rows were seen. */
  lemma PageIsNext(cursor: nat, base: nat, w: World)
    requires Positions(base, w) && Boundary(cursor, base, w) && w.replaying && w.batch == []
    ensures var page := Page(PageQuery(w.last), Rows(w));
            && (page == [] ==> w.recorded <= w.seen)
            && (page != [] ==> w.seen + |page| <= |w.published| && page == w.published[w.seen..w.seen + |page|]
                               && page[0].id > w.last)
  {
    hide LiveOk, Due, Select;
    var rows := Rows(w);
    var k := if w.seen <= w.recorded then w.seen else w.recorded;
    assert forall i :: 0 <= i < |rows| ==> rows[i] == w.published[i];
    SelectFrom(rows, w.last, k);
    if k < |rows| {
      NextStretch(w.published, w.recorded, w.seen, PageSize(PageQuery(w.last)));
    }
  }

  lemma NextStretch(log: seq<Event>, recorded: nat, seen: nat, size: nat)
    requires seen < recorded <= |log| && size > 0
    ensures var page := Take(log[..recorded][seen..], size);
            page != [] && seen + |page| <= |log| && page == log[seen..seen + |page|] && page[0] == log[seen]
  {
  }

  lemma {:induction false} DueGap(patterns: seq<string>, cursor: nat, log: seq<Event>, a: nat, b: nat)
    requires a <= b <= |log| && NoneDue(patterns, cursor, log, a, b)
    ensures Due(patterns, cursor, log[..b]) == Due(patterns, cursor, log[..a])
    decreases b
  {
    hide Wanted;
    if a < b {
      DueGap(patterns, cursor, log, a, b - 1);
      assert log[..b] == log[..b - 1] + [log[b - 1]];
      DueStep(patterns, cursor, log[..b - 1], log[b - 1]);
      assert !IsDue(patterns, cursor, log[b - 1]);
    }
  }

  /** The replay has ended: what was published before the subscription and not replayed is passed over. */
  lemma PassedOver(patterns: seq<string>, cursor: nat, base: nat, w: World)
    requires Inv(patterns, cursor, base, w) && w.replaying && w.batch == [] && w.recorded <= w.seen
    ensures Inv(patterns, cursor, base, w.(replaying := false, seen := Later(w.seen, w.delivered - |w.queue|)))
  {
    hide Due, Wanted, Select, IsDue;
    var taken := w.delivered - |w.queue|;
    if taken > w.seen {
      assert w.published[..taken][..w.seen] == w.published[..w.seen];
      DuePrefix(patterns, cursor, w.published[..taken], w.seen);
      if !w.overflowed {
        DueGap(patterns, cursor, w.published, w.seen, taken);
      }
    }
  }

  lemma FetchKeeps(patterns: seq<string>, cursor: nat, base: nat, w: World)
    requires Inv(patterns, cursor, base, w) && Enabled(w, FetchPage)
    ensures Inv(patterns, cursor, base, Step(w, patterns, FetchPage))
  {
    hide Due, Select, SentOk, Wanted, Page, IsDue;
    PageIsNext(cursor, base, w);
    if Page(PageQuery(w.last), Rows(w)) == [] {
      PassedOver(patterns, cursor, base, w);
    }
  }

  lemma SentBoundary(cursor: nat, base: nat, w: World, v: World)
    requires Positions(base, w) && Boundary(cursor, base, w) && w.replaying && w.batch != []
    requires v == w.(batch := w.batch[1..], sent := v.sent, seen := w.seen + 1,
                     last := if |w.batch| == 1 then w.batch[0].id else w.last)
    ensures Boundary(cursor, base, v)
    ensures w.batch[0] == w.published[w.seen] && w.batch[0].id > cursor
  {
    assert w.batch[0] == w.published[w.seen];
    assert v.batch == w.published[v.seen..v.seen + |v.batch|];
    if v.batch != [] {
      assert v.batch[0] == w.published[v.seen];
    } else {
      assert w.published[w.seen].id <= LastId(w.published);
    }
  }

  lemma SendKeeps(patterns: seq<string>, cursor: nat, base: nat, w: World)
    requires Inv(patterns, cursor, base, w) && Enabled(w, SendNext)
    ensures Inv(patterns, cursor, base, Step(w, patterns, SendNext))
  {
    hide Edge, LiveOk, SentOk, Due, Wanted, Page;
    var v := Step(w, patterns, SendNext);
    SentBoundary(cursor, base, w, v);
    SeeNext(patterns, cursor, w.published, w.seen, w.seen, w.sent, w.overflowed);
  }

  lemma ForwardBoundary(cursor: nat, base: nat, w: World, v: World)
    requires Positions(base, w) && Boundary(cursor, base, w) && !w.replaying && w.queue != []
    requires v == w.(queue := w.queue[1..], sent := v.sent, seen := v.seen)
    requires var t := w.delivered - |w.queue|;
             v.seen == if w.queue[0].id > w.last then Later(w.seen, t + 1) else w.seen
    ensures Boundary(cursor, base, v)
    ensures var t := w.delivered - |w.queue|;
            && w.queue[0] == w.published[t]
            && (w.queue[0].id > w.last ==>
                  w.seen <= t && v.seen == t + 1 && w.queue[0].id > cursor && (!w.overflowed ==> t == w.seen))
  {
    var t := w.delivered - |w.queue|;
    assert w.queue[0] == w.published[t];
    if w.queue[0].id > w.last {
      assert t >= w.seen;
    } else {
      assert t < w.seen;
    }
  }

  lemma DropFirst<T>(s: seq<T>, a: nat, b: nat)
    requires a < b <= |s|
    ensures s[a..b][1..] == s[a + 1..b]
  {
  }

  lemma ForwardPositions(base: nat, w: World, v: World)
    requires Positions(base, w) && w.queue != []
    requires v == w.(queue := w.queue[1..], sent := v.sent, seen := v.seen)
    ensures Positions(base, v) && Sorted(w.published)
  {
    DropFirst(w.published, w.delivered - |w.queue|, w.delivered);
  }

  lemma ForwardKeeps(patterns: seq<string>, cursor: nat, base: nat, w: World)
    requires Inv(patterns, cursor, base, w) && Enabled(w, ForwardNext)
    ensures Inv(patterns, cursor, base, Step(w, patterns, ForwardNext))
  {
    hide Positions, Edge, ReplayOk, LiveOk, SentOk, Due, Wanted, Page;
    var v := Step(w, patterns, ForwardNext);
    ForwardBoundary(cursor, base, w, v);
    ForwardPositions(base, w, v);
    if w.queue[0].id > w.last {
      SeeNext(patterns, cursor, w.published, w.seen, w.delivered - |w.queue|, w.sent, w.overflowed);
    }
  }

  lemma Window<T>(s: seq<T>, a: nat, b: nat)
    requires a <= b < |s|
    ensures s[a..b] + [s[b]] == s[a..b + 1]
    ensures a < b ==> s[a..b][1..] + [s[b]] == s[a + 1..b + 1]
  {
  }

  lemma DeliveredPositions(base: nat, w: World, v: World)
    requires Positions(base, w) && w.delivered < |w.published|
    requires v == w.(queue := v.queue, delivered := w.delivered + 1, overflowed := v.overflowed)
    requires var e := w.published[w.delivered];
             v.queue == w.queue + [e] || (w.queue != [] && v.queue == w.queue[1..] + [e])
    ensures Positions(base, v)
  {
    Window(w.published, w.delivered - |w.queue|, w.delivered);
  }

  lemma DeliverKeeps(patterns: seq<string>, cursor: nat, base: nat, w: World)
    requires Inv(patterns, cursor, base, w) && Enabled(w, DeliverNext)
    ensures Inv(patterns, cursor, base, Step(w, patterns, DeliverNext))
  {
    hide Positions, ReplayOk, LiveOk, Due, Wanted, Page;
    var v := Step(w, patterns, DeliverNext);
    DeliveredPositions(base, w, v);
    DeliveredBoundary(cursor, base, w, v);
  }

  lemma DeliveredBoundary(cursor: nat, base: nat, w: World, v: World)
    requires Positions(base, w) && Boundary(cursor, base, w) && w.delivered < |w.published|
    requires v == w.(queue := v.queue, delivered := w.delivered + 1, overflowed := v.overflowed)
    requires (|v.queue| == |w.queue| + 1 && v.overflowed == w.overflowed) || (|v.queue| == |w.queue| && v.overflowed)
    ensures Boundary(cursor, base, v)
  {
  }

  lemma StepKeeps(patterns: seq<string>, cursor: nat, base: nat, w: World, a: Action)
    requires Inv(patterns, cursor, base, w) && Enabled(w, a)
    ensures Inv(patterns, cursor, base, Step(w, patterns, a))
  {
    match a
    case Publish(e) => PublishKeeps(patterns, cursor, base, w, e);
    case Record =>
    case DeliverNext => DeliverKeeps(patterns, cursor, base, w);
    case FetchPage => FetchKeeps(patterns, cursor, base, w);
    case SendNext => SendKeeps(patterns, cursor, base, w);
    case ForwardNext => ForwardKeeps(patterns, cursor, base, w);
  }

  /** Where the client's catch-up starts. */
  function StartId(published: seq<Event>, cursor: Option<nat>): nat {
    match cursor case Some(c) => c case None => LastId(published)
  }

  /** A client with a cursor is due what is newer than the cursor; one without, what is newer than all there is. */
  lemma CatchUpStart(published: seq<Event>, recorded: nat, bound: nat, c: nat)
    requires InOrder(published)
    ensures StartId(published, Some(c)) == c
    ensures forall e :: e in published ==> e.id <= StartId(published, None)
    ensures StartId(published, None) == 0 || exists e :: e in published && e.id == StartId(published, None)
    ensures Subscribed(published, recorded, bound, Some(c)).replaying && !Subscribed(published, recorded, bound, None).replaying
    ensures Subscribed(published, recorded, bound, Some(c)).sent == [] == Subscribed(published, recorded, bound, None).sent
  {
    if published != [] {
      assert published[|published| - 1] in published;
    }
  }

  lemma {:induction false} DueNothing(patterns: seq<string>, after: nat, log: seq<Event>)
    requires forall e :: e in log ==> e.id <= after
    ensures Due(patterns, after, log) == []
  {
    if log != [] {
      DueNothing(patterns, after, log[..|log| - 1]);
    }
  }

  ghost predicate InOrder(published: seq<Event>) {
    Sorted(published) && forall i :: 0 <= i < |published| ==> published[i].id > 0
  }

  lemma StartOk(patterns: seq<string>, published: seq<Event>, recorded: nat, bound: nat, cursor: Option<nat>)
    requires InOrder(published) && recorded <= |published|
    requires NoneDue(patterns, StartId(published, cursor), published, recorded, |published|)
    ensures Inv(patterns, StartId(published, cursor), |published|, Subscribed(published, recorded, bound, cursor))
  {
    hide Wanted, IsDue, NoneDue, Due;
    var w := Subscribed(published, recorded, bound, cursor);
    var c := StartId(published, cursor);
    assert Positions(|published|, w);
    if cursor.Some? {
      CountSplits(published, c);
      NothingYet(patterns, published, c, w.seen);
    } else {
      forall i | 0 <= i < |published| ensures published[i].id <= c {
        LastIsNewest(published, i);
      }
      NothingYet(patterns, published, c, w.seen);
    }
  }

  lemma NothingYet(patterns: seq<string>, log: seq<Event>, c: nat, seen: nat)
    requires seen <= |log| && forall i :: 0 <= i < seen ==> log[i].id <= c
    ensures Due(patterns, c, log[..seen]) == []
  {
    forall e | e in log[..seen] ensures e.id <= c {
      var i :| 0 <= i < seen && log[i] == e;
    }
    DueNothing(patterns, c, log[..seen]);
  }

  lemma {:induction false} RunKeeps(patterns: seq<string>, published: seq<Event>, recorded: nat, bound: nat,
                                    cursor: Option<nat>, worlds: seq<World>, actions: seq<Action>, i: nat)
    requires InOrder(published) && recorded <= |published|
    requires NoneDue(patterns, StartId(published, cursor), published, recorded, |published|)
    requires IsRun(Subscribed(published, recorded, bound, cursor), patterns, worlds, actions) && i < |worlds|
    ensures Inv(patterns, StartId(published, cursor), |published|, worlds[i])
  {
    if i == 0 {
      StartOk(patterns, published, recorded, bound, cursor);
    } else {
      RunKeeps(patterns, published, recorded, bound, cursor, worlds, actions, i - 1);
      StepKeeps(patterns, StartId(published, cursor), |published|, worlds[i - 1], actions[i - 1]);
    }
  }

  /**
   Catch-up is gapless and duplicate-free: at every moment of every interleaving of publishing, recording,
   queueing, replaying and forwarding, the frames sent are a prefix of the wanted events above the cursor,
   provided the client's queue has not overflowed and nothing due was still unrecorded at the subscription. With
   overflow they are still distinct wanted events in order.
   */
  lemma CatchUp(patterns: seq<string>, published: seq<Event>, recorded: nat, bound: nat, cursor: Option<nat>,
                worlds: seq<World>, actions: seq<Action>, i: nat)
    requires InOrder(published) && recorded <= |published|
    requires NoneDue(patterns, StartId(published, cursor), published, recorded, |published|)
    requires IsRun(Subscribed(published, recorded, bound, cursor), patterns, worlds, actions) && i < |worlds|
    ensures var w := worlds[i];
            var due := Due(patterns, StartId(published, cursor), w.published);
            && (!w.overflowed ==> w.sent <= due)
            && Sorted(w.sent) && forall x :: x in w.sent ==> x in due
  {
    RunKeeps(patterns, published, recorded, bound, cursor, worlds, actions, i);
    var w := worlds[i];
    var c := StartId(published, cursor);
    DuePrefix(patterns, c, w.published, w.seen);
    forall x | x in w.sent ensures x in Due(patterns, c, w.published) {
      assert x in Due(patterns, c, w.published[..w.seen]);
    }
  }

  /** Everything published was delivered, the replay is over and the queue is empty; nothing was dropped. */
  predicate Drained(w: World) {
    !w.overflowed && !w.replaying && w.queue == [] && w.delivered == |w.published|
  }

  /** A client that has drained everything has been sent everything: nothing is skipped for good. */
  lemma DrainedIsComplete(patterns: seq<string>, published: seq<Event>, recorded: nat, bound: nat, cursor: Option<nat>,
                          worlds: seq<World>, actions: seq<Action>, i: nat)
    requires InOrder(published) && recorded <= |published|
    requires NoneDue(patterns, StartId(published, cursor), published, recorded, |published|)
    requires IsRun(Subscribed(published, recorded, bound, cursor), patterns, worlds, actions) && i < |worlds|
    requires Drained(worlds[i])
    ensures worlds[i].sent == Due(patterns, StartId(published, cursor), worlds[i].published)
  {
    RunKeeps(patterns, published, recorded, bound, cursor, worlds, actions, i);
    assert worlds[i].published[..worlds[i].seen] == worlds[i].published;
  }

  // -------------------------------------------------- what was not recorded

  ghost predicate Reachable(start: World, patterns: seq<string>, w: World) {
    exists worlds: seq<World>, actions: seq<Action> ::
      IsRun(start, patterns, worlds, actions) && worlds[|actions|] == w
  }

  lemma Begin(start: World, patterns: seq<string>)
    ensures Reachable(start, patterns, start)
  {
    assert IsRun(start, patterns, [start], []) && [start][0] == start;
  }

  lemma Reach(start: World, patterns: seq<string>, w: World, a: Action) returns (v: World)
    requires Reachable(start, patterns, w) && Enabled(w, a)
    ensures v == Step(w, patterns, a) && Reachable(start, patterns, v)
  {
    hide Step, Enabled;
    v := Step(w, patterns, a);
    var worlds: seq<World>, actions: seq<Action> :|
      IsRun(start, patterns, worlds, actions) && worlds[|actions|] == w;
    var worlds', actions' := worlds + [v], actions + [a];
    assert IsRun(start, patterns, worlds', actions') && worlds'[|actions'|] == v;
  }

  /** Sent, or about to be, is only what is stored. */
  ghost predicate FromRows(w: World) {
    && w.recorded <= |w.published| && w.delivered <= |w.published|
    && (forall e :: e in w.sent ==> e in Rows(w))
    && (forall e :: e in w.batch ==> e in Rows(w))
  }

  function ReplayEnd(w: World): nat { if w.batch == [] then w.last else LastId(w.batch) }

  lemma FetchShrinks(w: World)
    requires InOrder(w.published) && FromRows(w) && w.batch == []
    requires var page := Page(PageQuery(w.last), Rows(w)); page != []
    ensures var page := Page(PageQuery(w.last), Rows(w));
            && |Select(PageQuery(LastId(page)), Rows(w))| < |Select(PageQuery(w.last), Rows(w))|
            && forall e :: e in page ==> e in Rows(w)
  {
    hide Selects;
    var q, rows := PageQuery(w.last), Rows(w);
    var page := Page(q, rows);
    RowsSorted(w.published, w.recorded);
    PageStep(q, rows);
    forall e | e in page ensures e in rows {
      SelectMember(q, rows, e);
    }
    assert page[|page| - 1] in rows;
    assert PageQuery(LastId(page)) == NextPage(q, page);
  }

  lemma RowsSorted(log: seq<Event>, k: nat)
    requires InOrder(log) && k <= |log|
    ensures InOrder(log[..k]) && forall e :: e in log[..k] ==> e.id > 0
  {
  }

  lemma SendFromRows(w: World, patterns: seq<string>)
    requires FromRows(w) && w.replaying && w.batch != []
    ensures FromRows(Step(w, patterns, SendNext)) && ReplayEnd(Step(w, patterns, SendNext)) == ReplayEnd(w)
  {
    hide Wanted;
    var v, e := Step(w, patterns, SendNext), w.batch[0];
    assert e in w.batch;
    forall x | x in v.batch ensures x in Rows(v) {
      assert x in w.batch;
    }
    forall x | x in v.sent ensures x in Rows(v) {
      assert x in w.sent || x == e;
    }
  }

  /** The recorder may stay where it is while the whole replay runs. */
  lemma {:induction false} ReplayAlone(start: World, patterns: seq<string>, w: World) returns (v: World)
    requires Reachable(start, patterns, w) && w.replaying && InOrder(w.published) && FromRows(w)
    ensures Reachable(start, patterns, v) && !v.replaying && FromRows(v)
    ensures v.published == w.published && v.recorded == w.recorded && v.delivered == w.delivered
    ensures v.queue == w.queue && v.overflowed == w.overflowed
    decreases |Select(PageQuery(ReplayEnd(w)), Rows(w))|, |w.batch|
  {
    hide Reachable, Page, Select, InOrder;
    if w.batch != [] {
      SendFromRows(w, patterns);
      v := Reach(start, patterns, w, SendNext);
      v := ReplayAlone(start, patterns, v);
    } else {
      v := Reach(start, patterns, w, FetchPage);
      if v.replaying {
        FetchShrinks(w);
        v := ReplayAlone(start, patterns, v);
      }
    }
  }

  lemma NotInPrefix(log: seq<Event>, k: nat, i: nat)
    requires InOrder(log) && k <= i < |log|
    ensures log[i] !in log[..k]
  {
  }

  /** An event that is due but not recorded when the client subscribes may be missed for good. */
  lemma UnrecordedMayBeLost(patterns: seq<string>, published: seq<Event>, recorded: nat, bound: nat, c: nat, i: nat)
    returns (w: World)
    requires InOrder(published) && recorded <= i < |published| && IsDue(patterns, c, published[i])
    ensures Reachable(Subscribed(published, recorded, bound, Some(c)), patterns, w) && Drained(w)
    ensures w.published == published && published[i] !in w.sent && w.sent != Due(patterns, c, published)
  {
    hide Reachable, InOrder, Wanted;
    var start := Subscribed(published, recorded, bound, Some(c));
    Begin(start, patterns);
    w := ReplayAlone(start, patterns, start);
    NotInPrefix(published, recorded, i);
    DueMember(patterns, c, published, published[i]);
  }

  /**
   Exactly when subscribing is safe: every client that drains its queue without overflow has been sent everything
   due, in every run, if and only if nothing that was still unrecorded at the subscription is due.
   */
  lemma SubscriptionIsCompleteExactly(patterns: seq<string>, published: seq<Event>, recorded: nat, bound: nat,
                                      cursor: Option<nat>)
    requires InOrder(published) && recorded <= |published|
    ensures var start, c := Subscribed(published, recorded, bound, cursor), StartId(published, cursor);
            (forall w :: Reachable(start, patterns, w) && Drained(w) ==> w.sent == Due(patterns, c, w.published)) <==>
            NoneDue(patterns, c, published, recorded, |published|)
  {
    hide Due, Wanted, Drained;
    var start, c := Subscribed(published, recorded, bound, cursor), StartId(published, cursor);
    if NoneDue(patterns, c, published, recorded, |published|) {
      forall w | Reachable(start, patterns, w) && Drained(w) ensures w.sent == Due(patterns, c, w.published) {
        var worlds: seq<World>, actions: seq<Action> :|
          IsRun(start, patterns, worlds, actions) && worlds[|actions|] == w;
        DrainedIsComplete(patterns, published, recorded, bound, cursor, worlds, actions, |actions|);
      }
    } else {
      var i :| recorded <= i < |published| && IsDue(patterns, c, published[i]);
      if cursor.None? {
        LastIsNewest(published, i);
      } else {
        var w := UnrecordedMayBeLost(patterns, published, recorded, bound, c, i);
      }
    }
  }

  lemma LastIsNewest(log: seq<Event>, i: nat)
    requires InOrder(log) && i < |log|
    ensures log[i].id <= LastId(log)
  {
  }

  // --------------------------------------------------------------- the pump

  /** The first `c` rows are those at or below `last`, and `last` is where the replay stands. */
  ghost predicate Above(rows: seq<Event>, c: nat, start: nat, last: nat) {
    && c <= |rows| && start <= last
    && (last == start || (c > 0 && last == rows[c - 1].id))
    && (forall i :: 0 <= i < c ==> rows[i].id <= last)
    && (forall i :: c <= i < |rows| ==> rows[i].id > last)
  }

  lemma RestOfRows(rows: seq<Event>, c: nat, start: nat, last: nat)
    requires Above(rows, c, start, last) && forall i :: 0 <= i < |rows| ==> rows[i].id > 0
    ensures Page(PageQuery(last), rows) == Rest(rows, c)
  {
    SelectFrom(rows, last, c);
  }

  function Rest(rows: seq<Event>, c: nat): (page: seq<Event>)
    requires c <= |rows|
    ensures c + |page| <= |rows| && page == rows[c..c + |page|] && (page == [] <==> c == |rows|)
  {
    Take(rows[c..], 500)
  }

  lemma Advanced(rows: seq<Event>, c: nat, n: nat, start: nat, last: nat)
    requires Sorted(rows) && Above(rows, c, start, last) && 0 < n <= |rows| - c
    ensures Above(rows, c + n, start, rows[c + n - 1].id)
  {
  }

  /** What a replay has sent when it has covered the first `c` rows. */
  ghost predicate Covered(patterns: seq<string>, start: nat, rows: seq<Event>, c: nat,
                          before: seq<Event>, sent: seq<Event>)
  {
    c <= |rows| && sent == before + Due(patterns, start, rows[..c])
  }

  lemma NothingCovered(patterns: seq<string>, start: nat, rows: seq<Event>, sent: seq<Event>) returns (c: nat)
    requires Sorted(rows)
    ensures c <= |rows| && Above(rows, c, start, start) && Covered(patterns, start, rows, c, sent, sent)
  {
    c := CountUpTo(rows, start);
    CountSplits(rows, start);
    DueNothing(patterns, start, rows[..c]);
  }

  lemma AllCovered(patterns: seq<string>, start: nat, last: nat, rows: seq<Event>, before: seq<Event>, sent: seq<Event>)
    requires Covered(patterns, start, rows, |rows|, before, sent) && Above(rows, |rows|, start, last)
    ensures sent == before + Due(patterns, start, rows)
    ensures last == if LastId(rows) > start then LastId(rows) else start
  {
    assert rows[..|rows|] == rows;
  }

  class Pump {
    const patterns: seq<string>
    var last: nat
    var sent: seq<Event>

    constructor (patterns: seq<string>, cursor: Option<nat>)
      ensures this.patterns == patterns && sent == []
      ensures last == match cursor case Some(c) => c case None => 0
    {
      this.patterns, sent := patterns, [];
      last := match cursor case Some(c) => c case None => 0;
    }

    method SendIfWanted(e: Event)
      modifies this`sent
      ensures sent == old(sent) + if Wanted(patterns, e) then [e] else []
      ensures sent != old(sent) <==> exists i :: 0 <= i < |patterns| && Matches(patterns[i], TypeOf(e.body))
    {
      var i := 0;
      while i < |patterns|
        invariant 0 <= i <= |patterns| && sent == old(sent)
        invariant forall j :: 0 <= j < i ==> !Matches(patterns[j], TypeOf(e.body))
      {
        if Matches(patterns[i], TypeOf(e.body)) {
          sent := sent + [e];
          return;
        }
        i := i + 1;
      }
    }

    /** The undisturbed replay: pages through the store and sends everything due, once. */
    method Replay(store: SqliteEventStore)
      requires store.Valid() && forall i :: 0 <= i < |store.rows| ==> store.rows[i].id > 0
      modifies this
      ensures sent == old(sent) + Due(patterns, old(last), store.rows)
      ensures last == if LastId(store.rows) > old(last) then LastId(store.rows) else old(last)
    {
      hide Due, Above, Covered, Select, Take, Page, PageQuery, Rest, Sorted;
      ghost var rows, start, before := store.rows, last, sent;
      ghost var c := NothingCovered(patterns, start, rows, sent);
      RestOfRows(rows, c, start, last);
      var batch := store.Fetch(PageQuery(last));
      while batch != []
        invariant rows == store.rows && store.Valid()
        invariant c <= |rows| && Above(rows, c, start, last) && batch == Rest(rows, c)
        invariant Covered(patterns, start, rows, c, before, sent)
        decreases |rows| - c
      {
        SendBatch(batch, rows, c, start, before);
        Advanced(rows, c, |batch|, start, last);
        last := batch[|batch| - 1].id;
        c := c + |batch|;
        RestOfRows(rows, c, start, last);
        batch := store.Fetch(PageQuery(last));
      }
      AllCovered(patterns, start, last, rows, before, sent);
    }

    method SendBatch(batch: seq<Event>, ghost rows: seq<Event>, ghost c: nat, ghost start: nat, ghost before: seq<Event>)
      requires c + |batch| <= |rows| && batch == rows[c..c + |batch|]
      requires forall i :: c <= i < |rows| ==> rows[i].id > start
      requires Covered(patterns, start, rows, c, before, sent)
      modifies this`sent
      ensures Covered(patterns, start, rows, c + |batch|, before, sent)
    {
      hide Due, Wanted;
      for i := 0 to |batch|
        invariant Covered(patterns, start, rows, c + i, before, sent)
      {
        assert rows[..c + i + 1] == rows[..c + i] + [batch[i]];
        DueStep(patterns, start, rows[..c + i], batch[i]);
        SendIfWanted(batch[i]);
      }
    }

    /** A live event is forwarded exactly when the replay did not cover it and it is wanted. */
    method Forward(e: Event)
      modifies this`sent
      ensures sent == old(sent) + if e.id > last && Wanted(patterns, e) then [e] else []
    {
      if e.id > last {
        SendIfWanted(e);
      }
    }
  }
}
