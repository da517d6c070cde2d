/**
 The other half of mirroring: a new sync loop that starts above the last event folded may leave the hub stale for
 good. For every such gap there is a machine's log and a run in which nothing else is wrong.
 */
module SkippedStart {
  import opened Envelope
  import opened EventLog
  import opened ReadModel
  import opened NodeSync
  import S = Sessions
  import M = Mediation
  import H = NodeHost

  // ---------------------------------------------------------------- the log

  /** One session is discovered, keeps its title up to event `u`, is renamed by event `u`, and then left alone. */
  function Entry(node: string, s: Session, title: string, u: nat, i: nat): Event {
    Event(i + 1, node, Some(s.id),
          if i == 0 then SessionDiscovered(s)
          else if i < u then SessionUpdated(s)
          else if i == u then SessionUpdated(s.(title := title))
          else AdapterError("later"))
  }

  function Log(node: string, s: Session, title: string, u: nat, h: nat): (log: seq<Event>)
    ensures |log| == h && forall i :: 0 <= i < h ==> log[i] == Entry(node, s, title, u, i)
  {
    if h == 0 then [] else Log(node, s, title, u, h - 1) + [Entry(node, s, title, u, h - 1)]
  }

  ghost predicate Follows(node: string, log: seq<Event>, s: Session, title: string, u: nat) {
    forall i :: 0 <= i < |log| ==> log[i] == Entry(node, s, title, u, i)
  }

  lemma LogSorted(node: string, s: Session, title: string, u: nat, h: nat)
    ensures Sorted(Log(node, s, title, u, h)) && H.AllFrom(node, Log(node, s, title, u, h))
    ensures Follows(node, Log(node, s, title, u, h), s, title, u)
  {
  }

  /** It is a log that the machine's own registries may write. */
  lemma {:induction false} LogLawful(node: string, s: Session, title: string, u: nat, h: nat)
    requires s.state == Discovered && !s.ended && u > 0
    ensures S.LawfulLog(Log(node, s, title, u, h)) && M.LawfulLog(node, Log(node, s, title, u, h))
  {
    if h > 0 {
      LogLawful(node, s, title, u, h - 1);
      var log := Log(node, s, title, u, h);
      assert log[..h - 1] == Log(node, s, title, u, h - 1);
    }
  }

  // --------------------------------------------------------------- the title

  ghost predicate Shows(m: Model, s: Session, title: string) {
    s.id in m.sessions.byId && m.sessions.byId[s.id].title == title
  }

  ghost predicate Has(m: Model, s: Session) { s.id in m.sessions.byId }

  lemma {:induction false} StaysKnown(m: Model, s: Session, log: seq<Event>)
    requires Has(m, s)
    ensures Has(Fold(m, log), s)
  {
    if log != [] {
      StaysKnown(m, s, log[..|log| - 1]);
    }
  }

  lemma FoldLast(m: Model, log: seq<Event>, a: nat, b: nat)
    requires a < b <= |log|
    ensures Fold(m, log[a..b]) == Apply(Fold(m, log[a..b - 1]), log[b - 1])
  {
    hide Apply;
    assert log[a..b] == log[a..b - 1] + [log[b - 1]];
    FoldStep(m, log[a..b - 1], log[b - 1]);
  }

  lemma FoldOn(m: Model, log: seq<Event>, a: nat, b: nat, c: nat)
    requires a <= b <= c <= |log|
    ensures Fold(m, log[a..c]) == Fold(Fold(m, log[a..b]), log[b..c])
  {
    hide Fold;
    assert log[a..c] == log[a..b] + log[b..c];
    FoldConcat(m, log[a..b], log[b..c]);
  }

  lemma OldTitle(node: string, m: Model, s: Session, title: string, u: nat, i: nat)
    requires Has(m, s) && i < u
    ensures Shows(Apply(m, Entry(node, s, title, u, i)), s, s.title)
  {
  }

  lemma NewTitle(node: string, m: Model, s: Session, title: string, u: nat)
    requires Has(m, s) && u > 0
    ensures Shows(Apply(m, Entry(node, s, title, u, u)), s, title)
  {
  }

  /** The last event of a piece that ends at `u` or before sets the old title. */
  lemma OldPiece(node: string, m: Model, s: Session, title: string, u: nat, log: seq<Event>, a: nat)
    requires Has(m, s) && a < u <= |log| && Follows(node, log, s, title, u)
    ensures Shows(Fold(m, log[a..u]), s, s.title)
  {
    hide Fold, Apply, Has, Shows, Entry;
    FoldLast(m, log, a, u);
    StaysKnown(m, s, log[a..u - 1]);
    OldTitle(node, Fold(m, log[a..u - 1]), s, title, u, u - 1);
  }

  lemma LateEntry(node: string, m: Model, s: Session, title: string, u: nat, i: nat)
    requires 0 < u < i
    ensures Apply(m, Entry(node, s, title, u, i)).sessions == m.sessions
  {
  }

  /** Nothing above `u` touches the session. */
  lemma {:induction false} LatePiece(node: string, m: Model, s: Session, title: string, u: nat, log: seq<Event>, n: nat, k: nat)
    requires 0 < u < n <= k <= |log| && Follows(node, log, s, title, u)
    ensures Fold(m, log[n..k]).sessions == m.sessions
    decreases k
  {
    hide Apply, Entry;
    if n < k {
      hide Fold;
      LatePiece(node, m, s, title, u, log, n, k - 1);
      FoldLast(m, log, n, k);
      LateEntry(node, Fold(m, log[n..k - 1]), s, title, u, k - 1);
    } else {
      assert log[n..k] == [];
    }
  }

  lemma FirstIsKnown(node: string, s: Session, title: string, u: nat, log: seq<Event>)
    requires 0 < |log| && Follows(node, log, s, title, u)
    ensures Has(Fold(EMPTY, log[0..1]), s)
  {
    FoldLast(EMPTY, log, 0, 1);
  }

  /** One fold of the whole log shows the new title. */
  lemma WholeLog(node: string, s: Session, title: string, u: nat, log: seq<Event>)
    requires 0 < u < |log| && Follows(node, log, s, title, u)
    ensures Shows(Fold(EMPTY, log), s, title)
  {
    hide Fold, Apply, Has, Entry;
    FirstIsKnown(node, s, title, u, log);
    FoldOn(EMPTY, log, 0, 1, u);
    StaysKnown(Fold(EMPTY, log[0..1]), s, log[1..u]);
    FoldLast(EMPTY, log, 0, u + 1);
    NewTitle(node, Fold(EMPTY, log[0..u]), s, title, u);
    FoldOn(EMPTY, log, 0, u + 1, |log|);
    LatePiece(node, Fold(EMPTY, log[0..u + 1]), s, title, u, log, u + 1, |log|);
    assert log[0..|log|] == log;
  }

  /** After the whole log, folding `a..u` again and going on at `n` shows the old title. */
  lemma SkippedFold(node: string, s: Session, title: string, a: nat, u: nat, n: nat, log: seq<Event>)
    requires a < u < n <= |log| && Follows(node, log, s, title, u) && title != s.title
    ensures Fold(Fold(Fold(EMPTY, log), log[a..u]), log[n..]) != Fold(EMPTY, log)
  {
    hide Fold, Follows;
    var whole := Fold(EMPTY, log);
    WholeLog(node, s, title, u, log);
    OldPiece(node, whole, s, title, u, log, a);
    assert log[n..] == log[n..|log|];
    LatePiece(node, Fold(whole, log[a..u]), s, title, u, log, n, |log|);
  }

  // ----------------------------------------------------------------- the run

  /** Every loop of the run starts where it may, but for starts at `n` when `u` was folded last. */
  ghost predicate Reachable(node: string, u: nat, n: nat, w: World) {
    exists worlds: seq<World>, actions: seq<Action> ::
      IsRun(node, worlds, actions) && SkipsOnly(worlds, actions, u, n) && worlds[|actions|] == w
  }

  predicate MayStart(w: World, a: Action, u: nat, n: nat) {
    Resumes(w, a) || (w.upto == u && |w.stored| == n)
  }

  predicate SkipsOnly(worlds: seq<World>, actions: seq<Action>, u: nat, n: nat) {
    |worlds| == |actions| + 1 && forall i :: 0 <= i < |actions| ==> MayStart(worlds[i], actions[i], u, n)
  }

  lemma Start(node: string, u: nat, n: nat)
    ensures Reachable(node, u, n, INITIAL)
  {
    assert IsRun(node, [INITIAL], []) && SkipsOnly([INITIAL], [], u, n) && [INITIAL][0] == INITIAL;
  }

  lemma Reach(node: string, u: nat, n: nat, w: World, a: Action) returns (v: World)
    requires Reachable(node, u, n, w) && Enabled(w, a) && MayStart(w, a, u, n)
    ensures v == Step(w, node, a) && Reachable(node, u, n, v)
  {
    hide MayStart, Step, Enabled;
    v := Step(w, node, a);
    var worlds: seq<World>, actions: seq<Action> :|
      IsRun(node, worlds, actions) && SkipsOnly(worlds, actions, u, n) && worlds[|actions|] == w;
    var worlds', actions' := worlds + [v], actions + [a];
    assert IsRun(node, worlds', actions') && SkipsOnly(worlds', actions', u, n) && worlds'[|actions'|] == v;
  }

  lemma {:induction false} Written(node: string, s: Session, title: string, u: nat, n: nat, h: nat)
    ensures Reachable(node, u, n, INITIAL.(log := Log(node, s, title, u, h)))
  {
    if h == 0 {
      Start(node, u, n);
    } else {
      Written(node, s, title, u, n, h - 1);
      hide Reachable;
      var w := INITIAL.(log := Log(node, s, title, u, h - 1));
      var v := Reach(node, u, n, w, MachineAppends(Entry(node, s, title, u, h - 1)));
      assert v == INITIAL.(log := Log(node, s, title, u, h));
    }
  }

  /** A loop that has fetched the rest of the log and stands at position `p` of it. */
  function At(log: seq<Event>, stored: seq<Event>, queue: seq<Event>, model: Model, p: nat, upto: nat, high: nat): World
    requires p <= |log|
  {
    World(log, stored, queue, model, Some(Loop(CursorAt(log, p), log[p..], None, false, p)), upto, high)
  }

  function Idle(log: seq<Event>, stored: seq<Event>, queue: seq<Event>, model: Model, upto: nat, high: nat): World {
    World(log, stored, queue, model, None, upto, high)
  }

  lemma {:induction false} RestOfLog(node: string, log: seq<Event>, p: nat, limit: nat)
    requires Sorted(log) && H.AllFrom(node, log) && p <= |log| <= limit && limit > 0
    ensures Page(PageAfter(CursorAt(log, p), limit), log) == log[p..]
  {
    OwnIsAll(node, log);
    OwnAfterCursor(node, log, p, limit);
    var rest := Select(PageAfter(CursorAt(log, p), limit), log);
    forall e | e in rest ensures e.node == node {
      SelectMember(PageAfter(CursorAt(log, p), limit), log, e);
    }
    OwnIsAll(node, rest);
  }

  /** A loop starts behind the stored prefix and fetches all the rest in one page of the service's size. */
  lemma Begun(node: string, u: nat, n: nat, log: seq<Event>, queue: seq<Event>, model: Model, upto: nat, high: nat,
              p: nat, limit: nat)
    requires Sorted(log) && H.AllFrom(node, log) && p <= |log| <= limit && limit > 0
    requires Reachable(node, u, n, Idle(log, log[..p], queue, model, upto, high))
    requires p <= upto || (upto == u && p == n)
    ensures Reachable(node, u, n, At(log, log[..p], queue, model, p, upto, high))
  {
    hide Reachable, Page, PageAfter;
    var w := Reach(node, u, n, Idle(log, log[..p], queue, model, upto, high), LoopStarts);
    assert InitialCursor(log[..p]) == CursorAt(log, p);
    RestOfLog(node, log, p, limit);
    w := Reach(node, u, n, w, Fetch(limit));
    assert w == At(log, log[..p], queue, model, p, upto, high);
  }

  lemma FoldedOne(node: string, u: nat, n: nat, log: seq<Event>, stored: seq<Event>, queue: seq<Event>, model: Model,
                  p: nat, upto: nat, high: nat)
    requires H.AllFrom(node, log) && p < |log| && p <= high
    requires Reachable(node, u, n, At(log, stored, queue, model, p, upto, high))
    ensures Reachable(node, u, n, At(log, stored, queue + [log[p]], Apply(model, log[p]), p + 1, p + 1, Higher(high, p + 1)))
  {
    hide Reachable, Apply;
    var w := At(log, stored, queue, model, p, upto, high);
    assert log[p..][0] == log[p] && log[p..][1..] == log[p + 1..];
    assert log[p] in log;
    var x := Reach(node, u, n, w, FoldNext);
    var y := Reach(node, u, n, x, Enqueue);
    var z := Reach(node, u, n, y, PublishReturns);
    assert z == At(log, stored, queue + [log[p]], Apply(model, log[p]), p + 1, p + 1, Higher(high, p + 1));
  }

  function Higher(a: nat, b: nat): nat { if a < b then b else a }

  /** Where folding from `p` to `q` leaves `upto`. */
  function Moved(p: nat, q: nat, upto: nat): nat { if p < q then q else upto }

  lemma {:induction false} FoldedUpTo(node: string, u: nat, n: nat, log: seq<Event>, stored: seq<Event>,
                                      queue: seq<Event>, model: Model, p: nat, q: nat, upto: nat, high: nat)
    requires H.AllFrom(node, log) && p <= q <= |log| && p <= high
    requires Reachable(node, u, n, At(log, stored, queue, model, p, upto, high))
    ensures Reachable(node, u, n, At(log, stored, queue + log[p..q], Fold(model, log[p..q]), q, Moved(p, q, upto),
                                     Higher(high, q)))
    decreases q
  {
    hide Reachable, At, Apply;
    if p == q {
      assert log[p..q] == [] && queue + [] == queue;
    } else {
      FoldedUpTo(node, u, n, log, stored, queue, model, p, q - 1, upto, high);
      var more := log[p..q - 1];
      FoldedOne(node, u, n, log, stored, queue + more, Fold(model, more), q - 1, Moved(p, q - 1, upto),
                Higher(high, q - 1));
      assert log[p..q] == more + [log[q - 1]];
      FoldStep(model, more, log[q - 1]);
      assert (queue + more) + [log[q - 1]] == queue + log[p..q];
    }
  }

  lemma Ended(node: string, u: nat, n: nat, log: seq<Event>, stored: seq<Event>, queue: seq<Event>, model: Model, p: nat,
              upto: nat, high: nat)
    requires p <= |log| && Reachable(node, u, n, At(log, stored, queue, model, p, upto, high))
    ensures Reachable(node, u, n, Idle(log, stored, queue, model, upto, high))
  {
    hide Reachable;
    var w := Reach(node, u, n, At(log, stored, queue, model, p, upto, high), LoopEnds);
  }

  lemma NextRow(log: seq<Event>, i: nat)
    requires Sorted(log) && i < |log|
    ensures Insert(log[..i], log[i]) == log[..i + 1]
  {
    InsertNewest(log[..i], log[i]);
  }

  /** The recorder stores the next events of the log, with the loop in any state. */
  lemma {:induction false} Recorded(node: string, u: nat, n: nat, w: World, i: nat, j: nat, rest: seq<Event>)
    requires Sorted(w.log) && i <= j <= |w.log| && w.stored == w.log[..i] && w.queue == w.log[i..j] + rest
    requires Reachable(node, u, n, w)
    ensures Reachable(node, u, n, w.(stored := w.log[..j], queue := rest))
    decreases j - i
  {
    hide Reachable, Insert, Sorted;
    if i == j {
      assert w.log[i..j] + rest == rest;
      assert w == w.(stored := w.log[..j], queue := rest);
    } else {
      NextRow(w.log, i);
      assert w.queue[0] == w.log[i] && w.queue[1..] == w.log[i + 1..j] + rest;
      var v := Reach(node, u, n, w, Record);
      Recorded(node, u, n, v, i + 1, j, rest);
    }
  }

  /** What is stored already is recorded without a trace. */
  lemma {:induction false} RecordedAgain(node: string, u: nat, n: nat, w: World, queue: seq<Event>)
    requires Sorted(w.log) && w.stored == w.log && w.queue == queue && forall e :: e in queue ==> e in w.log
    requires Reachable(node, u, n, w)
    ensures Reachable(node, u, n, w.(queue := []))
    decreases |queue|
  {
    hide Reachable, Sorted, Insert;
    if queue == [] {
      assert w == w.(queue := []);
    } else {
      KnownRow(w.log, queue[0]);
      var v := Reach(node, u, n, w, Record);
      assert v == w.(queue := queue[1..]);
      RecordedAgain(node, u, n, v, queue[1..]);
    }
  }

  lemma KnownRow(log: seq<Event>, e: Event)
    requires Sorted(log) && e in log
    ensures Insert(log, e) == log
  {
    var k :| 0 <= k < |log| && log[k] == e;
    InsertKnown(log, k);
  }

  /** The hub is at rest: its loop stands at the end of the log, and everything is published and stored. */
  ghost predicate AtRest(node: string, w: World) {
    && w.queue == [] && w.stored == Own(node, w.log)
    && w.loop.Some? && w.loop.value.batch == [] && w.loop.value.publishing.None?
    && w.loop.value.position == |Own(node, w.log)|
  }

  /** The first loop mirrors everything and ends, and the recorder stores the first `a` events. */
  lemma FirstLoop(node: string, u: nat, n: nat, a: nat, log: seq<Event>, limit: nat)
    requires Sorted(log) && H.AllFrom(node, log) && a <= |log| <= limit && limit > 0
    requires Reachable(node, u, n, INITIAL.(log := log))
    ensures Reachable(node, u, n, Idle(log, log[..a], log[a..], Fold(EMPTY, log), |log|, |log|))
  {
    hide Reachable, At, Fold;
    var h, whole := |log|, Fold(EMPTY, log);
    assert INITIAL.(log := log) == Idle(log, log[..0], [], EMPTY, 0, 0);
    Begun(node, u, n, log, [], EMPTY, 0, 0, 0, limit);
    FoldedUpTo(node, u, n, log, log[..0], [], EMPTY, 0, h, 0, 0);
    assert log[0..h] == log && [] + log == log;
    Ended(node, u, n, log, log[..0], log, whole, h, h, h);
    assert log == log[0..a] + log[a..];
    Recorded(node, u, n, Idle(log, log[..0], log, whole, h, h), 0, a, log[a..]);
  }

  /** The second loop folds `a..u` again and ends; the recorder stores the first `n` events; the third starts there. */
  lemma SkippingRun(node: string, u: nat, n: nat, a: nat, log: seq<Event>, limit: nat)
    requires Sorted(log) && H.AllFrom(node, log) && a < u < n <= |log| <= limit
    requires Reachable(node, u, n, INITIAL.(log := log))
    ensures var w := At(log, log[..n], log[n..] + log[a..u], Fold(Fold(EMPTY, log), log[a..u]), n, u, |log|);
            Reachable(node, u, n, w)
  {
    hide Reachable, At, Fold, Sorted, H.AllFrom;
    var h, whole := |log|, Fold(EMPTY, log);
    FirstLoop(node, u, n, a, log, limit);
    Begun(node, u, n, log, log[a..], whole, h, h, a, limit);
    FoldedUpTo(node, u, n, log, log[..a], log[a..], whole, a, u, h, h);
    var again, queue := Fold(whole, log[a..u]), log[a..] + log[a..u];
    Ended(node, u, n, log, log[..a], queue, again, u, u, h);
    Pieces(log, a, n, log[a..u]);
    Recorded(node, u, n, Idle(log, log[..a], queue, again, u, h), a, n, log[n..] + log[a..u]);
    Begun(node, u, n, log, log[n..] + log[a..u], again, u, h, n, limit);
  }

  lemma Pieces(log: seq<Event>, a: nat, n: nat, rest: seq<Event>)
    requires a <= n <= |log|
    ensures log[a..] + rest == log[a..n] + (log[n..] + rest)
  {
  }

  lemma SettledRun(node: string, u: nat, n: nat, a: nat, log: seq<Event>, model: Model)
    requires Sorted(log) && H.AllFrom(node, log) && a < u < n <= |log|
    requires Reachable(node, u, n, At(log, log[..n], log[n..] + log[a..u], model, n, u, |log|))
    ensures Reachable(node, u, n, At(log, log, [], Fold(model, log[n..]), |log|, Moved(n, |log|, u), |log|))
  {
    hide Reachable, Fold;
    var h, queue := |log|, log[n..] + log[a..u];
    FoldedUpTo(node, u, n, log, log[..n], queue, model, n, h, u, h);
    assert log[n..h] == log[n..];
    var rest := log[a..u] + log[n..];
    var w := At(log, log[..n], queue + log[n..], Fold(model, log[n..]), h, Moved(n, h, u), h);
    assert queue + log[n..] == log[n..h] + rest;
    Recorded(node, u, n, w, n, h, rest);
    assert log[..h] == log;
    RecordedAgain(node, u, n, w.(stored := log, queue := rest), rest);
  }

  /**
   For any `a < u < n <= h` there is a lawful log of `h` own events and a run of the mirror that folds `a..u` again
   and in which the only loop that starts above the last event folded does so at `n` after `u`. The hub comes to
   rest with everything folded, published and stored, yet its read-model is not the fold of the log - and stays so.
   */
  lemma SkippingStartGoesStale(node: string, s: Session, title: string, a: nat, u: nat, n: nat, h: nat, limit: nat)
    requires s.state == Discovered && !s.ended && title != s.title
    requires a < u < n <= h <= limit
    ensures var log := Log(node, s, title, u, h);
            && |log| == h && Sorted(log) && H.AllFrom(node, log) && S.LawfulLog(log) && M.LawfulLog(node, log)
            && exists w :: Reachable(node, u, n, w) && w.log == log && AtRest(node, w) && w.model != Fold(EMPTY, log)
  {
    hide Reachable, Fold, Follows, Sorted, Log, H.AllFrom, S.LawfulLog, M.LawfulLog;
    var log := Log(node, s, title, u, h);
    LogSorted(node, s, title, u, h);
    LogLawful(node, s, title, u, h);
    Written(node, s, title, u, n, h);
    SkippingRun(node, u, n, a, log, limit);
    var again := Fold(Fold(EMPTY, log), log[a..u]);
    SettledRun(node, u, n, a, log, again);
    SkippedFold(node, s, title, a, u, n, log);
    OwnIsAll(node, log);
    var w := At(log, log, [], Fold(again, log[n..]), h, Moved(n, h, u), h);
    assert AtRest(node, w) && w.log == log;
  }

  /** Two events and a page size of two already do: the smallest gap there is. */
  lemma ImpatientRestartGoesStale(node: string, s: Session, title: string)
    requires s.state == Discovered && !s.ended && title != s.title
    ensures exists w :: Reachable(node, 1, 2, w) && |w.log| == 2 && AtRest(node, w) && w.model != Fold(EMPTY, w.log)
  {
    hide Reachable, Fold;
    SkippingStartGoesStale(node, s, title, 0, 1, 2, 2, 2);
  }

  // ------------------------------------------------------------ both halves

  /** Before anything is folded since the boot, nothing is stored. */
  predicate NothingYet(w: World) {
    w.upto == 0 ==> w.stored == [] && w.queue == [] && (w.loop.Some? ==> w.loop.value.publishing.None?)
  }

  lemma {:induction false} NothingFoldedNothingStored(node: string, worlds: seq<World>, actions: seq<Action>, i: nat)
    requires IsRun(node, worlds, actions) && i < |worlds|
    ensures NothingYet(worlds[i])
  {
    if i > 0 {
      NothingFoldedNothingStored(node, worlds, actions, i - 1);
      NothingYetStays(node, worlds[i - 1], actions[i - 1]);
    }
  }

  lemma NothingYetStays(node: string, w: World, a: Action)
    requires NothingYet(w) && Enabled(w, a)
    ensures NothingYet(Step(w, node, a))
  {
    hide Apply, Fold, Page, Insert;
  }

  /** Unless it lies above a fold already made, the extra start is no licence at all. */
  lemma NoGapMeansResuming(node: string, u: nat, n: nat, worlds: seq<World>, actions: seq<Action>, i: nat)
    requires IsRun(node, worlds, actions) && SkipsOnly(worlds, actions, u, n) && i < |actions|
    requires n <= u || u == 0
    ensures Resumes(worlds[i], actions[i])
  {
    hide Step, Enabled, NothingYet;
    NothingFoldedNothingStored(node, worlds, actions, i);
    assert MayStart(worlds[i], actions[i], u, n);
    StartsWhereNothingIs(worlds[i]);
  }

  lemma StartsWhereNothingIs(w: World)
    requires NothingYet(w)
    ensures w.upto == 0 ==> |w.stored| == 0
  {
  }

  /** At rest, a hub whose loops all resumed shows the log. */
  lemma RestingModel(node: string, worlds: seq<World>, actions: seq<Action>)
    requires IsRun(node, worlds, actions) && AtRest(node, worlds[|actions|])
    requires forall j :: 0 <= j < |actions| ==> Resumes(worlds[j], actions[j])
    requires StableKeys(Own(node, worlds[|actions|].log))
    ensures worlds[|actions|].model == Fold(EMPTY, Own(node, worlds[|actions|].log))
  {
    hide Step, Enabled, Fold, StableKeys, Resumes, Own;
    var w := worlds[|actions|];
    var own := Own(node, w.log);
    LoopIsBehind(node, worlds, actions, |actions|);
    ModelIsFoldOfPrefix(node, worlds, actions, |actions|);
    assert own[..|own|] == own;
  }

  /** Every run that may start a loop at `n` with `u` the last event folded comes to rest showing the log. */
  ghost predicate AlwaysMends(node: string, u: nat, n: nat) {
    forall w :: Reachable(node, u, n, w) && AtRest(node, w) && StableKeys(Own(node, w.log)) ==>
      w.model == Fold(EMPTY, Own(node, w.log))
  }

  /**
   Which starts are safe, exactly: allowing loops to start at `n` when the last event folded was number `u` leaves
   every hub that comes to rest with the fold of the log, if and only if `n` is not above `u`, or nothing has been
   folded yet - and then nothing is stored, so that the loop starts from the beginning anyway.
   */
  lemma StartIsSafeExactly(node: string, u: nat, n: nat)
    ensures AlwaysMends(node, u, n) <==> n <= u || u == 0
  {
    hide StableKeys, Own, Fold, Step, Enabled, Resumes, MayStart;
    if n <= u || u == 0 {
      forall w | Reachable(node, u, n, w) && AtRest(node, w) && StableKeys(Own(node, w.log))
        ensures w.model == Fold(EMPTY, Own(node, w.log))
      {
        var worlds: seq<World>, actions: seq<Action> :|
          IsRun(node, worlds, actions) && SkipsOnly(worlds, actions, u, n) && worlds[|actions|] == w;
        forall j | 0 <= j < |actions| ensures Resumes(worlds[j], actions[j]) {
          NoGapMeansResuming(node, u, n, worlds, actions, j);
        }
        RestingModel(node, worlds, actions);
      }
    } else {
      SomeStaleRun(node, u, n);
    }
  }

  lemma SomeStaleRun(node: string, u: nat, n: nat)
    requires 0 < u < n
    ensures !AlwaysMends(node, u, n)
  {
    hide Reachable, Fold, AtRest, Log, Sorted, S.LawfulLog, M.LawfulLog, StableKeys;
    var s := Session(1, "agent", "one", node, "old", "", None, "", Discovered, false, map[]);
    SkippingStartGoesStale(node, s, "new", u - 1, u, n, n, n);
    var log := Log(node, s, "new", u, n);
    var w :| Reachable(node, u, n, w) && w.log == log && AtRest(node, w) && w.model != Fold(EMPTY, log);
    OwnIsAll(node, log);
    LawfulIsStable(node, log);
  }
}
