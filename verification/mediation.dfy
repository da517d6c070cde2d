/**
 The interaction catalogue: opening, answering, cancelling and timing out, each split at its awaits
 into atomic segments, and the fold that rebuilds or mirrors it.
 */
module Mediation {
  import opened Envelope
  import opened EventLog
  import opened Maps

  /** What is rebuilt from the log. */
  datatype Inbox = Inbox(byId: map<Ulid, Interaction>, pending: map<NativeKey, Ulid>)

  const EMPTY := Inbox(map[], map[])

  // -------------------------------------------------------------------- fold

  predicate IsTerminal(b: Body) {
    b.InteractionAnswered? || b.InteractionTimedOut? || b.InteractionCancelled?
  }

  function Target(b: Body): Ulid
    requires IsTerminal(b)
  {
    match b
    case InteractionAnswered(id, _, _) => id
    case InteractionTimedOut(id) => id
    case InteractionCancelled(id) => id
  }

  function Resolved(i: Interaction, b: Body): Interaction
    requires IsTerminal(b)
  {
    match b
    case InteractionAnswered(_, a, who) => i.(status := Answered, answer := Some(a), answeredBy := who)
    case InteractionTimedOut(_) => i.(status := TimedOut)
    case InteractionCancelled(_) => i.(status := Cancelled)
  }

  function Settle(x: Inbox, b: Body): Inbox
    requires IsTerminal(b) && Target(b) in x.byId
  {
    var i := x.byId[Target(b)];
    Inbox(x.byId[Target(b) := Resolved(i, b)], x.pending - {InteractionKey(i)})
  }

  function Apply(x: Inbox, e: Event): Inbox {
    if e.body.InteractionRequested? then
      var i := e.body.interaction;
      Inbox(x.byId[i.id := i], if i.status.Pending? then x.pending[InteractionKey(i) := i.id] else x.pending)
    else if IsTerminal(e.body) && Target(e.body) in x.byId then Settle(x, e.body)
    else x
  }

  function Fold(x: Inbox, log: seq<Event>): Inbox {
    if log == [] then x else Apply(Fold(x, log[..|log| - 1]), log[|log| - 1])
  }

  lemma FoldStep(x: Inbox, log: seq<Event>, e: Event)
    ensures Fold(x, log + [e]) == Apply(Fold(x, log), e)
  {
    hide Apply;
    assert (log + [e])[..|log|] == log;
  }

  lemma {:induction false} FoldConcat(x: Inbox, a: seq<Event>, b: seq<Event>)
    ensures Fold(x, a + b) == Fold(Fold(x, a), b)
  {
    hide Apply;
    if b == [] {
      assert a + b == a;
    } else {
      var n := |b| - 1;
      FoldConcat(x, a, b[..n]);
      assert a + b == (a + b[..n]) + [b[n]];
      FoldStep(x, a + b[..n], b[n]);
    }
  }

  // ---------------------------------------------------------------- commands

  /** Identifies the closure that carries an answer back to the blocked agent. */
  type Callback = nat

  datatype Live = Live(inbox: Inbox, deliver: map<Ulid, Callback>, timers: set<Ulid>)

  datatype Request = Request(
    sessionId: Ulid, adapter: string, nativeId: string, kind: InteractionKind, title: string, timed: bool)

  datatype Draft = Draft(sessionId: Option<Ulid>, body: Body)

  /** One call of a deliver callback; also what a command suspended before that call will do. */
  datatype Delivery = Delivery(id: Ulid, answer: Answer, callback: Callback)

  datatype Outcome = Outcome(live: Live, issued: Option<Draft>, next: Option<Delivery>)

  function Idle(l: Live): Outcome { Outcome(l, None, None) }

  const DENIED := Answer(Some(false), "timed out")

  function NewInteraction(id: Ulid, node: string, r: Request): Interaction {
    Interaction(id, r.sessionId, r.adapter, r.nativeId, node, r.kind, r.title, Pending, "", None)
  }

  /** Re-opening a pending identity only refreshes its callback. */
  function Open(l: Live, node: string, r: Request, callback: Callback, freshId: Ulid): Outcome {
    var key := (r.adapter, r.nativeId);
    if key in l.inbox.pending then Idle(l.(deliver := l.deliver[l.inbox.pending[key] := callback]))
    else
      var i := NewInteraction(freshId, node, r);
      Outcome(Live(Inbox(l.inbox.byId[freshId := i], l.inbox.pending[key := freshId]),
                   l.deliver[freshId := callback], if r.timed then l.timers + {freshId} else l.timers),
              Some(Draft(Some(r.sessionId), InteractionRequested(i))), None)
  }

  /** The status flip, the bookkeeping and the event of one resolution, without an await. */
  function Close(l: Live, b: Body, next: Option<Delivery>): Outcome
    requires IsTerminal(b) && Target(b) in l.inbox.byId
  {
    Outcome(Live(Settle(l.inbox, b), l.deliver - {Target(b)}, l.timers - {Target(b)}),
            Some(Draft(Some(l.inbox.byId[Target(b)].sessionId), b)), next)
  }

  predicate IsPending(l: Live, id: Ulid) {
    id in l.inbox.byId && l.inbox.byId[id].status.Pending?
  }

  function Callbacks(l: Live, id: Ulid, a: Answer): Option<Delivery> {
    if id in l.deliver then Some(Delivery(id, a, l.deliver[id])) else None
  }

  function AnswerOne(l: Live, id: Ulid, a: Answer, who: string): Outcome {
    if IsPending(l, id) then Close(l, InteractionAnswered(id, a, who), Callbacks(l, id, a)) else Idle(l)
  }

  function CancelNative(l: Live, key: NativeKey): Outcome {
    if key in l.inbox.pending && l.inbox.pending[key] in l.inbox.byId then
      Close(l, InteractionCancelled(l.inbox.pending[key]), None)
    else Idle(l)
  }

  /** The boot sweep cancels by id, whatever the status has become. */
  function CancelOrphan(l: Live, id: Ulid): Outcome {
    if id in l.inbox.byId then Close(l, InteractionCancelled(id), None) else Idle(l)
  }

  /** A late timer finds the interaction resolved and does nothing; a permission auto-denies. */
  function TimeOut(l: Live, id: Ulid): Outcome {
    if IsPending(l, id) then
      Close(l, InteractionTimedOut(id),
            if l.inbox.byId[id].kind.Permission? then Callbacks(l, id, DENIED) else None)
    else Idle(l)
  }

  datatype Command =
    | OpenCmd(request: Request, callback: Callback, freshId: Ulid)
    | AnswerCmd(id: Ulid, answer: Answer, who: string)
    | CancelCmd(key: NativeKey)
    | OrphanCmd(orphan: Ulid)
    | TimeoutCmd(late: Ulid)

  function Segment(l: Live, node: string, cmd: Command): Outcome {
    match cmd
    case OpenCmd(r, callback, freshId) => Open(l, node, r, callback, freshId)
    case AnswerCmd(id, a, who) => AnswerOne(l, id, a, who)
    case CancelCmd(key) => CancelNative(l, key)
    case OrphanCmd(id) => CancelOrphan(l, id)
    case TimeoutCmd(id) => TimeOut(l, id)
  }

  /** Folding the event a segment issues (if any) is exactly the segment's change of the inbox. */
  lemma SegmentIsFold(l: Live, node: string, cmd: Command, e: Event)
    requires var o := Segment(l, node, cmd);
             o.issued.Some? ==> o.issued.value == Draft(e.sessionId, e.body)
    ensures var o := Segment(l, node, cmd);
            o.live.inbox == if o.issued.Some? then Apply(l.inbox, e) else l.inbox
  {
  }

  // ----------------------------------------------------------- suffix replay

  /** Requests are opened pending, and every request for one id names one native identity. */
  ghost predicate Keyed(keyOf: Ulid -> NativeKey, e: Event) {
    e.body.InteractionRequested? ==>
      e.body.interaction.status.Pending? && InteractionKey(e.body.interaction) == keyOf(e.body.interaction.id)
  }

  ghost predicate KeyedInbox(keyOf: Ulid -> NativeKey, x: Inbox) {
    forall id :: id in x.byId ==> InteractionKey(x.byId[id]) == keyOf(id)
  }

  lemma ApplyKeyed(keyOf: Ulid -> NativeKey, x: Inbox, e: Event)
    requires KeyedInbox(keyOf, x) && Keyed(keyOf, e)
    ensures KeyedInbox(keyOf, Apply(x, e))
  {
    if IsTerminal(e.body) && Target(e.body) in x.byId {
      assert InteractionKey(Resolved(x.byId[Target(e.body)], e.body)) == keyOf(Target(e.body));
    }
  }

  lemma {:induction false} FoldKeyed(keyOf: Ulid -> NativeKey, x: Inbox, log: seq<Event>)
    requires KeyedInbox(keyOf, x) && forall e :: e in log ==> Keyed(keyOf, e)
    ensures KeyedInbox(keyOf, Fold(x, log))
  {
    if log != [] {
      FoldKeyed(keyOf, x, log[..|log| - 1]);
      ApplyKeyed(keyOf, Fold(x, log[..|log| - 1]), log[|log| - 1]);
    }
  }

  /** `x` and `y` differ at most where `e` writes. */
  ghost predicate SameBut(e: Event, x: Inbox, y: Inbox) {
    if e.body.InteractionRequested? then
      && AgreeOff(x.byId, y.byId, e.body.interaction.id)
      && AgreeOff(x.pending, y.pending, InteractionKey(e.body.interaction))
    else if IsTerminal(e.body) && Target(e.body) in x.byId && Target(e.body) in y.byId then
      var id := Target(e.body);
      && AgreeOff(x.byId, y.byId, id)
      && Resolved(x.byId[id], e.body) == Resolved(y.byId[id], e.body)
      && AgreeOff(x.pending, y.pending, InteractionKey(x.byId[id]))
    else x == y
  }

  lemma SameButSettles(e: Event, x: Inbox, y: Inbox)
    requires SameBut(e, x, y)
    requires e.body.InteractionRequested? ==> e.body.interaction.status.Pending?
    ensures Apply(x, e) == Apply(y, e)
  {
    var a, b := Apply(x, e), Apply(y, e);
    assert a.byId == b.byId;
    if IsTerminal(e.body) && Target(e.body) in x.byId && Target(e.body) in y.byId {
      assert InteractionKey(Resolved(x.byId[Target(e.body)], e.body)) == InteractionKey(x.byId[Target(e.body)]);
      assert InteractionKey(Resolved(y.byId[Target(e.body)], e.body)) == InteractionKey(y.byId[Target(e.body)]);
    }
    assert a.pending == b.pending;
  }

  lemma SameButStarts(e: Event, x: Inbox)
    ensures SameBut(e, Apply(x, e), x)
  {
  }

  lemma SameButSteps(keyOf: Ulid -> NativeKey, e: Event, f: Event, x: Inbox, y: Inbox)
    requires Keyed(keyOf, e) && Keyed(keyOf, f) && KeyedInbox(keyOf, x) && KeyedInbox(keyOf, y)
    requires SameBut(e, x, y)
    ensures SameBut(e, Apply(x, f), Apply(y, f))
  {
    if e.body.InteractionRequested? {
      RequestSteps(keyOf, e, f, x, y);
    } else if x != y {
      TerminalSteps(keyOf, e, f, x, y);
    }
  }

  lemma RequestSteps(keyOf: Ulid -> NativeKey, e: Event, f: Event, x: Inbox, y: Inbox)
    requires Keyed(keyOf, e) && Keyed(keyOf, f) && KeyedInbox(keyOf, x) && KeyedInbox(keyOf, y)
    requires e.body.InteractionRequested? && SameBut(e, x, y)
    ensures SameBut(e, Apply(x, f), Apply(y, f))
  {
    var id := e.body.interaction.id;
    if f.body.InteractionRequested? {
      var j := f.body.interaction;
      PutAgrees(x.byId, y.byId, id, j.id, j, j);
      PutAgrees(x.pending, y.pending, keyOf(id), InteractionKey(j), j.id, j.id);
    } else if IsTerminal(f.body) && Target(f.body) == id {
      DropAgrees(x.pending, y.pending, keyOf(id), keyOf(id));
      DropOneSide(x.pending, y.pending, keyOf(id));
    } else if IsTerminal(f.body) && Target(f.body) in x.byId {
      var j := Target(f.body);
      PutAgrees(x.byId, y.byId, id, j, Resolved(x.byId[j], f.body), Resolved(y.byId[j], f.body));
      DropAgrees(x.pending, y.pending, keyOf(id), keyOf(j));
    }
  }

  lemma TerminalSteps(keyOf: Ulid -> NativeKey, e: Event, f: Event, x: Inbox, y: Inbox)
    requires Keyed(keyOf, f) && KeyedInbox(keyOf, x) && KeyedInbox(keyOf, y)
    requires IsTerminal(e.body) && x != y && SameBut(e, x, y)
    ensures SameBut(e, Apply(x, f), Apply(y, f))
  {
    var id := Target(e.body);
    ApplyKeyed(keyOf, x, f);
    if f.body.InteractionRequested? {
      var j := f.body.interaction;
      PutAgrees(x.byId, y.byId, id, j.id, j, j);
      PutAgrees(x.pending, y.pending, keyOf(id), InteractionKey(j), j.id, j.id);
    } else if IsTerminal(f.body) && Target(f.body) in x.byId {
      var j := Target(f.body);
      PutAgrees(x.byId, y.byId, id, j, Resolved(x.byId[j], f.body), Resolved(y.byId[j], f.body));
      DropAgrees(x.pending, y.pending, keyOf(id), keyOf(j));
    }
  }

  lemma {:induction false} SameButFolds(keyOf: Ulid -> NativeKey, e: Event, log: seq<Event>, x: Inbox, y: Inbox)
    requires Keyed(keyOf, e) && forall f :: f in log ==> Keyed(keyOf, f)
    requires KeyedInbox(keyOf, x) && KeyedInbox(keyOf, y) && SameBut(e, x, y)
    ensures SameBut(e, Fold(x, log), Fold(y, log))
  {
    if log != [] {
      var n := |log| - 1;
      SameButFolds(keyOf, e, log[..n], x, y);
      FoldKeyed(keyOf, x, log[..n]);
      FoldKeyed(keyOf, y, log[..n]);
      SameButSteps(keyOf, e, log[n], Fold(x, log[..n]), Fold(y, log[..n]));
    }
  }

  /** A keyed event applied ahead of a keyed log that holds it is absorbed. */
  lemma {:induction false} AheadIsAbsorbed(keyOf: Ulid -> NativeKey, x: Inbox, e: Event, log: seq<Event>)
    requires e in log && KeyedInbox(keyOf, x) && forall f :: f in log ==> Keyed(keyOf, f)
    ensures Fold(Apply(x, e), log) == Fold(x, log)
  {
    var n := |log| - 1;
    var before := log[..n];
    ApplyKeyed(keyOf, x, e);
    if log[n] == e {
      SameButStarts(e, x);
      SameButFolds(keyOf, e, before, Apply(x, e), x);
      SameButSettles(e, Fold(Apply(x, e), before), Fold(x, before));
    } else {
      assert log == before + [log[n]];
      AheadIsAbsorbed(keyOf, x, e, before);
    }
  }

  /** Folding a well-formed log a second time changes nothing, from any well-formed inbox. */
  lemma {:induction false} ReplayIsHarmless(keyOf: Ulid -> NativeKey, x: Inbox, log: seq<Event>)
    requires KeyedInbox(keyOf, x) && forall e :: e in log ==> Keyed(keyOf, e)
    ensures Fold(Fold(x, log), log) == Fold(x, log)
  {
    if log != [] {
      var n := |log| - 1;
      var e, y := log[n], Fold(x, log[..n]);
      ReplayIsHarmless(keyOf, x, log[..n]);
      FoldKeyed(keyOf, x, log[..n]);
      FoldKeyed(keyOf, y, [e]);
      FoldStep(y, [], e);
      assert [] + [e] == [e];
      SameButStarts(e, y);
      SameButFolds(keyOf, e, log[..n], Apply(y, e), y);
      SameButSettles(e, Fold(Apply(y, e), log[..n]), Fold(y, log[..n]));
    }
  }

  /** One id requested under two identities: replaying a suffix resurrects a dead index entry. */
  lemma RekeyedIdBreaksReplay(i: Interaction, j: Interaction, other: string)
    requires i.status.Pending? && j.status.Pending? && i.id != j.id
    requires InteractionKey(i) == InteractionKey(j) && other != i.nativeId
    ensures var moved := i.(nativeId := other);
            var suffix := [Event(2, "n", None, InteractionRequested(j)),
                           Event(3, "n", None, InteractionTimedOut(i.id)),
                           Event(4, "n", None, InteractionRequested(moved))];
            var x := Fold(Apply(EMPTY, Event(1, "n", None, InteractionRequested(i))), suffix);
            InteractionKey(i) !in x.pending && InteractionKey(i) in Fold(x, suffix).pending
  {
    var moved := i.(nativeId := other);
    var a, b, c := Event(2, "n", None, InteractionRequested(j)),
                   Event(3, "n", None, InteractionTimedOut(i.id)),
                   Event(4, "n", None, InteractionRequested(moved));
    var start := Apply(EMPTY, Event(1, "n", None, InteractionRequested(i)));
    FoldThree(start, a, b, c);
    FoldThree(Fold(start, [a, b, c]), a, b, c);
  }

  /** A request stored already resolved: replaying an orphaned resolution drops another's entry. */
  lemma ResolvedRequestBreaksReplay(i: Interaction, j: Interaction)
    requires i.status.Answered? && j.status.Pending? && i.id != j.id && InteractionKey(i) == InteractionKey(j)
    ensures var suffix := [Event(2, "n", None, InteractionTimedOut(i.id)),
                           Event(3, "n", None, InteractionRequested(i)),
                           Event(4, "n", None, InteractionTimedOut(i.id + j.id + 1))];
            var x := Fold(Apply(EMPTY, Event(1, "n", None, InteractionRequested(j))), suffix);
            InteractionKey(j) in x.pending && InteractionKey(j) !in Fold(x, suffix).pending
  {
    var a, b, c := Event(2, "n", None, InteractionTimedOut(i.id)),
                   Event(3, "n", None, InteractionRequested(i)),
                   Event(4, "n", None, InteractionTimedOut(i.id + j.id + 1));
    var start := Apply(EMPTY, Event(1, "n", None, InteractionRequested(j)));
    FoldThree(start, a, b, c);
    FoldThree(Fold(start, [a, b, c]), a, b, c);
  }

  lemma FoldThree(x: Inbox, a: Event, b: Event, c: Event)
    ensures Fold(x, [a, b, c]) == Apply(Apply(Apply(x, a), b), c)
  {
    FoldStep(x, [a, b], c);
    FoldStep(x, [a], b);
    FoldStep(x, [], a);
    assert [a, b] + [c] == [a, b, c] && [a] + [b] == [a, b] && [] + [a] == [a];
  }

  // ------------------------------------------------------------ lawful logs

  /** What one mediation service may add to its own log. */
  ghost predicate Lawful(node: string, x: Inbox, e: Event) {
    if e.body.InteractionRequested? then
      var i := e.body.interaction;
      i.id !in x.byId && InteractionKey(i) !in x.pending && i.status.Pending? && i.node == node
    else IsTerminal(e.body) ==> Target(e.body) in x.byId && x.byId[Target(e.body)].status.Pending?
  }

  ghost predicate LawfulLog(node: string, log: seq<Event>) {
    log != [] ==>
      LawfulLog(node, log[..|log| - 1]) && Lawful(node, Fold(EMPTY, log[..|log| - 1]), log[|log| - 1])
  }

  lemma {:induction false} LawfulPrefix(node: string, log: seq<Event>, k: nat)
    requires LawfulLog(node, log) && k <= |log|
    ensures LawfulLog(node, log[..k])
  {
    if k < |log| {
      LawfulPrefix(node, log[..|log| - 1], k);
      assert log[..|log| - 1][..k] == log[..k];
    } else {
      assert log[..k] == log;
    }
  }

  /** The pending index and the pending interactions name each other. */
  ghost predicate Bijective(x: Inbox) {
    && (forall k :: k in x.pending ==>
          && x.pending[k] in x.byId
          && InteractionKey(x.byId[x.pending[k]]) == k
          && x.byId[x.pending[k]].status.Pending?)
    && (forall id :: id in x.byId && x.byId[id].status.Pending? ==>
          InteractionKey(x.byId[id]) in x.pending && x.pending[InteractionKey(x.byId[id])] == id)
    && (forall id :: id in x.byId ==> x.byId[id].id == id)
  }

  ghost predicate AllOf(node: string, x: Inbox) {
    forall id :: id in x.byId ==> x.byId[id].node == node
  }

  lemma LawfulStep(node: string, x: Inbox, e: Event)
    requires Bijective(x) && AllOf(node, x) && Lawful(node, x, e)
    ensures Bijective(Apply(x, e)) && AllOf(node, Apply(x, e))
  {
  }

  lemma {:induction false} LawfulIndex(node: string, log: seq<Event>)
    requires LawfulLog(node, log)
    ensures Bijective(Fold(EMPTY, log)) && AllOf(node, Fold(EMPTY, log))
  {
    if log != [] {
      LawfulIndex(node, log[..|log| - 1]);
      LawfulStep(node, Fold(EMPTY, log[..|log| - 1]), log[|log| - 1]);
    }
  }

  function Terminals(log: seq<Event>, id: Ulid): nat {
    if log == [] then 0
    else
      var e := log[|log| - 1];
      Terminals(log[..|log| - 1], id) + if IsTerminal(e.body) && Target(e.body) == id then 1 else 0
  }

  /** A lawful log resolves each interaction exactly once, or not yet. */
  lemma {:induction false} ResolvedExactlyOnce(node: string, log: seq<Event>, id: Ulid)
    requires LawfulLog(node, log)
    ensures var x := Fold(EMPTY, log);
            Terminals(log, id) == if id in x.byId && !x.byId[id].status.Pending? then 1 else 0
  {
    if log != [] {
      ResolvedExactlyOnce(node, log[..|log| - 1], id);
    }
  }

  /** Each segment only ever issues what is lawful, so no interleaving of them can do otherwise. */
  lemma SegmentIsLawful(l: Live, node: string, cmd: Command, e: Event)
    requires Bijective(l.inbox)
    requires cmd.OpenCmd? ==> cmd.freshId !in l.inbox.byId
    requires cmd.OrphanCmd? ==> IsPending(l, cmd.orphan)
    requires Segment(l, node, cmd).issued == Some(Draft(e.sessionId, e.body))
    ensures Lawful(node, l.inbox, e)
  {
  }

  ghost function PendingIds(x: Inbox): set<Ulid> {
    set id | id in x.byId && x.byId[id].status.Pending?
  }

  /** `pending_count` equals the length of the list filtered by status. */
  lemma PendingCount(x: Inbox)
    requires Bijective(x)
    ensures |x.pending| == |PendingIds(x)|
  {
    var keyOf := map id | id in PendingIds(x) :: InteractionKey(x.byId[id]);
    InjectiveCount(x.pending.Keys, PendingIds(x), x.pending, keyOf);
  }

  lemma {:induction false} InjectiveCount(ks: set<NativeKey>, ids: set<Ulid>, f: map<NativeKey, Ulid>, g: map<Ulid, NativeKey>)
    requires forall k :: k in ks ==> k in f && f[k] in ids && f[k] in g && g[f[k]] == k
    requires forall id :: id in ids ==> id in g && g[id] in ks && g[id] in f && f[g[id]] == id
    ensures |ks| == |ids|
    decreases |ks|
  {
    if ks == {} {
      assert ids == {};
    } else {
      var k :| k in ks;
      InjectiveCount(ks - {k}, ids - {f[k]}, f, g);
    }
  }

  // ---------------------------------------------------------- the boot sweep

  /** Index entries are never stale, whatever keyed events were lost. */
  ghost predicate IndexSound(x: Inbox) {
    forall k :: k in x.pending ==>
      && x.pending[k] in x.byId
      && InteractionKey(x.byId[x.pending[k]]) == k
      && x.byId[x.pending[k]].status.Pending?
  }

  lemma {:induction false} KeyedIndexSound(keyOf: Ulid -> NativeKey, log: seq<Event>)
    requires forall e :: e in log ==> Keyed(keyOf, e)
    ensures IndexSound(Fold(EMPTY, log)) && KeyedInbox(keyOf, Fold(EMPTY, log))
  {
    if log != [] {
      KeyedIndexSound(keyOf, log[..|log| - 1]);
      ApplyKeyed(keyOf, Fold(EMPTY, log[..|log| - 1]), log[|log| - 1]);
    }
  }

  function Sweep(l: Live, orphans: seq<Ulid>): Live {
    if orphans == [] then l
    else CancelOrphan(Sweep(l, orphans[..|orphans| - 1]), orphans[|orphans| - 1]).live
  }

  lemma {:induction false} SweepResolves(l: Live, orphans: seq<Ulid>)
    ensures var s := Sweep(l, orphans).inbox;
            && s.byId.Keys == l.inbox.byId.Keys
            && (forall id :: id in s.byId ==>
                  && InteractionKey(s.byId[id]) == InteractionKey(l.inbox.byId[id])
                  && s.byId[id].status == if id in orphans then Cancelled else l.inbox.byId[id].status)
            && (forall k :: k in s.pending ==> k in l.inbox.pending && s.pending[k] == l.inbox.pending[k])
            && (forall id :: id in orphans && id in l.inbox.byId ==> InteractionKey(l.inbox.byId[id]) !in s.pending)
  {
    if orphans != [] {
      var n := |orphans| - 1;
      SweepResolves(l, orphans[..n]);
      assert forall id :: id in orphans <==> id in orphans[..n] || id == orphans[n];
    }
  }

  /** The pending interactions of one machine, each listed once. */
  ghost predicate AreOrphans(l: Live, node: string, ids: seq<Ulid>) {
    && (forall id :: id in ids <==> IsPending(l, id) && l.inbox.byId[id].node == node)
    && forall i, j :: 0 <= i < j < |ids| ==> ids[i] != ids[j]
  }

  /**
   However many events a crash lost, the boot sweep over this machine's own pendings leaves none
   pending and the index empty: nothing unanswerable survives a restart.
   */
  lemma SweepLeavesNoZombie(keyOf: Ulid -> NativeKey, node: string, log: seq<Event>, l: Live, orphans: seq<Ulid>)
    requires forall e :: e in log ==> Keyed(keyOf, e)
    requires l.inbox == Fold(EMPTY, log) && AllOf(node, l.inbox)
    requires forall id :: id in orphans <==> IsPending(l, id) && l.inbox.byId[id].node == node
    ensures PendingIds(Sweep(l, orphans).inbox) == {} && Sweep(l, orphans).inbox.pending == map[]
  {
    KeyedIndexSound(keyOf, log);
    SweepResolves(l, orphans);
    var s := Sweep(l, orphans).inbox;
    forall k ensures k !in s.pending {
      if k in l.inbox.pending {
        assert IsPending(l, l.inbox.pending[k]);
      }
    }
    forall id ensures id !in PendingIds(s) {
      if id in l.inbox.byId {
        assert IsPending(l, id) <==> id in orphans;
      }
    }
  }

  // --------------------------------------------------------- several machines

  /** Interaction ids and native identities that each belong to one machine. */
  datatype Ownership = Ownership(ofId: Ulid -> string, ofKey: NativeKey -> string)

  ghost predicate WritesOwn(o: Ownership, e: Event) {
    if e.body.InteractionRequested? then
      o.ofId(e.body.interaction.id) == e.node && o.ofKey(InteractionKey(e.body.interaction)) == e.node
    else IsTerminal(e.body) ==> o.ofId(Target(e.body)) == e.node
  }

  ghost predicate RecordsOwned(o: Ownership, x: Inbox) {
    forall id :: id in x.byId ==> o.ofKey(InteractionKey(x.byId[id])) == o.ofId(id)
  }

  ghost function Restrict(o: Ownership, x: Inbox, node: string): Inbox {
    Inbox(map id | id in x.byId && o.ofId(id) == node :: x.byId[id],
          map k | k in x.pending && o.ofKey(k) == node :: x.pending[k])
  }

  lemma RestrictPut(o: Ownership, x: Inbox, id: Ulid, i: Interaction, node: string)
    ensures var r := Restrict(o, x, node);
            Restrict(o, x.(byId := x.byId[id := i]), node) == if o.ofId(id) == node then r.(byId := r.byId[id := i]) else r
  {
    var r := Restrict(o, x, node);
    assert Restrict(o, x.(byId := x.byId[id := i]), node).byId == if o.ofId(id) == node then r.byId[id := i] else r.byId;
  }

  lemma RestrictIndex(o: Ownership, x: Inbox, key: NativeKey, id: Ulid, node: string)
    ensures var r := Restrict(o, x, node);
            Restrict(o, x.(pending := x.pending[key := id]), node) ==
              if o.ofKey(key) == node then r.(pending := r.pending[key := id]) else r
  {
    var r := Restrict(o, x, node);
    assert Restrict(o, x.(pending := x.pending[key := id]), node).pending ==
           if o.ofKey(key) == node then r.pending[key := id] else r.pending;
  }

  lemma RestrictRequested(o: Ownership, x: Inbox, e: Event, node: string)
    requires WritesOwn(o, e) && RecordsOwned(o, x) && e.body.InteractionRequested?
    ensures RecordsOwned(o, Apply(x, e))
    ensures Restrict(o, Apply(x, e), node) ==
              if e.node == node then Apply(Restrict(o, x, node), e) else Restrict(o, x, node)
  {
    hide InteractionKey, IsTerminal, Settle, Restrict;
    var i := e.body.interaction;
    RestrictPut(o, x, i.id, i, node);
    if i.status.Pending? {
      RestrictIndex(o, x.(byId := x.byId[i.id := i]), InteractionKey(i), i.id, node);
    }
  }

  lemma RestrictApply(o: Ownership, x: Inbox, e: Event, node: string)
    requires WritesOwn(o, e) && RecordsOwned(o, x)
    ensures RecordsOwned(o, Apply(x, e))
    ensures Restrict(o, Apply(x, e), node) ==
              if e.node == node then Apply(Restrict(o, x, node), e) else Restrict(o, x, node)
  {
    hide InteractionKey, Settle, RecordsOwned;
    if e.body.InteractionRequested? {
      RestrictRequested(o, x, e, node);
    } else if IsTerminal(e.body) && Target(e.body) in x.byId {
      RestrictSettle(o, x, e, node);
    }
  }

  lemma RestrictSettle(o: Ownership, x: Inbox, e: Event, node: string)
    requires WritesOwn(o, e) && RecordsOwned(o, x)
    requires IsTerminal(e.body) && Target(e.body) in x.byId
    ensures RecordsOwned(o, Settle(x, e.body))
    ensures Restrict(o, Settle(x, e.body), node) ==
              if e.node == node then Settle(Restrict(o, x, node), e.body) else Restrict(o, x, node)
  {
    var id := Target(e.body);
    var s, r := Settle(x, e.body), Restrict(o, x, node);
    assert InteractionKey(s.byId[id]) == InteractionKey(x.byId[id]);
    if e.node == node {
      assert r.byId[id] == x.byId[id];
      assert Restrict(o, s, node).byId == r.byId[id := s.byId[id]];
      assert Restrict(o, s, node).pending == r.pending - {InteractionKey(x.byId[id])};
    } else {
      assert Restrict(o, s, node).byId == r.byId;
      assert Restrict(o, s, node).pending == r.pending;
    }
  }

  /** What a fold of a mixed log holds for one machine is the fold of that machine's events. */
  lemma {:induction false} FoldOfOneNode(o: Ownership, log: seq<Event>, node: string)
    requires forall e :: e in log ==> WritesOwn(o, e)
    ensures RecordsOwned(o, Fold(EMPTY, log))
    ensures Restrict(o, Fold(EMPTY, log), node) == Fold(EMPTY, Select(FromNode(node), log))
  {
    if log == [] {
      assert Restrict(o, EMPTY, node).byId == map[];
      assert Restrict(o, EMPTY, node).pending == map[];
    } else {
      var n := |log| - 1;
      var e := log[n];
      FoldOfOneNode(o, log[..n], node);
      RestrictApply(o, Fold(EMPTY, log[..n]), e, node);
      SelectLast(FromNode(node), log);
      if e.node == node {
        FoldStep(EMPTY, Select(FromNode(node), log[..n]), e);
      } else {
        assert Select(FromNode(node), log) == Select(FromNode(node), log[..n]);
      }
    }
  }

  /** Logs with the same per-machine sequences fold to the same inbox. */
  lemma InterleavingIsIrrelevant(o: Ownership, a: seq<Event>, b: seq<Event>)
    requires forall e :: e in a ==> WritesOwn(o, e)
    requires forall e :: e in b ==> WritesOwn(o, e)
    requires forall node :: Select(FromNode(node), a) == Select(FromNode(node), b)
    ensures Fold(EMPTY, a) == Fold(EMPTY, b)
  {
    var x, y := Fold(EMPTY, a), Fold(EMPTY, b);
    forall node ensures Restrict(o, x, node) == Restrict(o, y, node) {
      FoldOfOneNode(o, a, node);
      FoldOfOneNode(o, b, node);
    }
    RestrictionsDetermine(o, x, y);
  }

  lemma RestrictionsDetermine(o: Ownership, x: Inbox, y: Inbox)
    requires forall node :: Restrict(o, x, node) == Restrict(o, y, node)
    ensures x == y
  {
    forall id ensures (id in x.byId <==> id in y.byId) && (id in x.byId ==> x.byId[id] == y.byId[id]) {
      var p, q := Restrict(o, x, o.ofId(id)).byId, Restrict(o, y, o.ofId(id)).byId;
      assert id in p <==> id in x.byId;
      assert id in q <==> id in y.byId;
      assert p == q;
    }
    assert x.byId == y.byId;
    forall k ensures (k in x.pending <==> k in y.pending) && (k in x.pending ==> x.pending[k] == y.pending[k]) {
      var p, q := Restrict(o, x, o.ofKey(k)).pending, Restrict(o, y, o.ofKey(k)).pending;
      assert k in p <==> k in x.pending;
      assert k in q <==> k in y.pending;
      assert p == q;
    }
    assert x.pending == y.pending;
  }

  // ----------------------------------------------------------- the namespace

  lemma SweepStep(l: Live, orphans: seq<Ulid>, i: nat)
    requires i < |orphans|
    ensures Sweep(l, orphans[..i + 1]) == CancelOrphan(Sweep(l, orphans[..i]), orphans[i]).live
  {
    assert orphans[..i + 1][..i] == orphans[..i];
  }

  lemma UnselectedIsIgnored(x: Inbox, e: Event)
    requires !Selects(Namespace("interaction.*"), e)
    ensures Apply(x, e) == x
  {
    if !e.body.Other? {
      InteractionNamespace(e.body);
    }
  }

  /** Rows outside `interaction.*` are never folded, so the rebuild query loses nothing. */
  lemma {:induction false} FoldOfNamespace(x: Inbox, log: seq<Event>)
    ensures Fold(x, Select(Namespace("interaction.*"), log)) == Fold(x, log)
  {
    if log != [] {
      var n := |log| - 1;
      var q := Namespace("interaction.*");
      FoldOfNamespace(x, log[..n]);
      SelectLast(q, log);
      if Selects(q, log[n]) {
        FoldStep(x, Select(q, log[..n]), log[n]);
      } else {
        UnselectedIsIgnored(Fold(x, log[..n]), log[n]);
        assert Select(q, log) == Select(q, log[..n]);
      }
    }
  }

  lemma InteractionTypesStart(b: Body)
    requires IsInteractionBody(b)
    ensures StartsWith(TypeOf(b), "interaction.")
  {
    match b
    case InteractionRequested(_) => assert "interaction.requested"[..12] == "interaction.";
    case InteractionAnswered(_, _, _) => assert "interaction.answered"[..12] == "interaction.";
    case InteractionTimedOut(_) => assert "interaction.timed_out"[..12] == "interaction.";
    case InteractionCancelled(_) => assert "interaction.cancelled"[..12] == "interaction.";
  }

  // ------------------------------------------------------------- the service

  /** One interaction object; resolutions update it in place. */
  class InteractionRecord {
    const original: Interaction
    var status: InteractionStatus
    var answeredBy: string
    var answer: Option<Answer>

    constructor (i: Interaction)
      ensures Value() == i && original == i
    {
      original, status, answeredBy, answer := i, i.status, i.answeredBy, i.answer;
    }

    function Value(): Interaction
      reads this
    {
      original.(status := status, answeredBy := answeredBy, answer := answer)
    }
  }

  datatype Refusal = UnknownInteraction | AlreadyResolved

  class MediationService {
    const node: string
    var byId: map<Ulid, InteractionRecord>
    var pendingByNative: map<NativeKey, Ulid>
    var deliver: map<Ulid, Callback>
    var timeouts: set<Ulid>

    ghost predicate Valid()
      reads this
    {
      forall id :: id in byId ==> byId[id].original.id == id
    }

    ghost function ById(): map<Ulid, Interaction>
      reads `byId, byId.Values
    {
      map id | id in byId :: byId[id].Value()
    }

    lemma Shows(id: Ulid)
      ensures id in ById() <==> id in byId
      ensures id in byId ==> ById()[id] == byId[id].Value()
    {
    }

    ghost function View(): Live
      reads this, byId.Values
    {
      Live(Inbox(ById(), pendingByNative), deliver, timeouts)
    }

    constructor (node: string)
      ensures Valid() && View() == Live(EMPTY, map[], {}) && this.node == node
    {
      this.node, byId, pendingByNative, deliver, timeouts := node, map[], map[], map[], {};
    }

    twostate lemma OneWritten(id: Ulid)
      requires old(Valid()) && byId == old(byId) && id in byId
      requires forall j :: j in byId && j != id ==> byId[j].Value() == old(byId[j].Value())
      ensures ById() == old(ById())[id := byId[id].Value()]
    {
    }

    twostate lemma OneAdded(id: Ulid)
      requires old(Valid()) && Valid() && byId.Keys == old(byId.Keys) + {id}
      requires forall j :: j in old(byId) && j != id ==>
                 byId[j] == old(byId[j]) && byId[j].Value() == old(byId[j].Value())
      ensures ById() == old(ById())[id := byId[id].Value()]
    {
    }

    method Record(i: Interaction)
      requires Valid()
      modifies this`byId
      ensures Valid() && fresh(byId.Values - old(byId.Values))
      ensures byId.Keys == old(byId.Keys) + {i.id}
      ensures ById() == old(ById())[i.id := i]
    {
      var record := new InteractionRecord(i);
      byId := byId[i.id := record];
      OneAdded(i.id);
    }

    method OpenInteraction(r: Request, callback: Callback, freshId: Ulid) returns (issued: Option<Draft>)
      requires Valid()
      modifies this
      ensures Valid() && fresh(byId.Values - old(byId.Values))
      ensures Outcome(View(), issued, None) == Open(old(View()), node, r, callback, freshId)
    {
      hide ById;
      var key := (r.adapter, r.nativeId);
      if key in pendingByNative {
        deliver := deliver[pendingByNative[key] := callback];
        return None;
      }
      Enlist(key, NewInteraction(freshId, node, r), callback, r.timed);
      issued := Some(Draft(Some(r.sessionId), InteractionRequested(NewInteraction(freshId, node, r))));
    }

    /** Files a new interaction under its native identity, with its callback and its timer. */
    method Enlist(key: NativeKey, i: Interaction, callback: Callback, timed: bool)
      requires Valid()
      modifies this
      ensures Valid() && fresh(byId.Values - old(byId.Values))
      ensures var l := old(View());
              View() == Live(Inbox(l.inbox.byId[i.id := i], l.inbox.pending[key := i.id]),
                             l.deliver[i.id := callback], if timed then l.timers + {i.id} else l.timers)
    {
      hide ById;
      Record(i);
      pendingByNative := pendingByNative[key := i.id];
      deliver := deliver[i.id := callback];
      timeouts := if timed then timeouts + {i.id} else timeouts;
    }

    method WriteStatus(id: Ulid, status: InteractionStatus)
      requires Valid() && id in byId
      modifies byId[id]
      ensures ById() == old(ById())[id := old(byId[id].Value()).(status := status)]
    {
      byId[id].status := status;
      OneWritten(id);
    }

    /** The record itself stays as it is; its index entry, timer and callback go, and the callback is handed over. */
    method ResolveBookkeeping(id: Ulid) returns (callback: Option<Callback>)
      requires Valid() && id in byId
      modifies this
      ensures byId == old(byId)
      ensures pendingByNative == old(pendingByNative) - {InteractionKey(byId[id].original)}
      ensures deliver == old(deliver) - {id} && timeouts == old(timeouts) - {id}
      ensures callback == if id in old(deliver) then Some(old(deliver)[id]) else None
    {
      pendingByNative := pendingByNative - {InteractionKey(byId[id].original)};
      timeouts := timeouts - {id};
      callback := if id in deliver then Some(deliver[id]) else None;
      deliver := deliver - {id};
    }

    method AnswerInteraction(id: Ulid, a: Answer, who: string)
      returns (refused: Option<Refusal>, issued: Option<Draft>, next: Option<Delivery>)
      requires Valid()
      modifies this, byId.Values
      ensures Valid() && byId == old(byId)
      ensures refused == if id !in byId then Some(UnknownInteraction)
                         else if old(byId[id].status) != Pending then Some(AlreadyResolved) else None
      ensures Outcome(View(), issued, next) == AnswerOne(old(View()), id, a, who)
      ensures next == if refused.None? && id in old(deliver) then Some(Delivery(id, a, old(deliver)[id])) else None
      ensures refused.None? ==> byId[id].status == Answered && byId[id].answer == Some(a) && byId[id].answeredBy == who
    {
      hide ById;
      Shows(id);
      refused, issued, next := None, None, None;
      if id !in byId {
        return Some(UnknownInteraction), None, None;
      }
      var i := byId[id];
      if i.status != Pending {
        return Some(AlreadyResolved), None, None;
      }
      i.status := Answered;
      i.answer := Some(a);
      i.answeredBy := who;
      OneWritten(id);
      var callback := ResolveBookkeeping(id);
      issued := Some(Draft(Some(i.original.sessionId), InteractionAnswered(id, a, who)));
      if callback.Some? {
        next := Some(Delivery(id, a, callback.value));
      }
    }

    method CancelByNative(key: NativeKey) returns (issued: Option<Draft>)
      requires Valid()
      modifies this, byId.Values
      ensures Valid() && byId == old(byId)
      ensures Outcome(View(), issued, None) == CancelNative(old(View()), key)
    {
      hide ById;
      if key in pendingByNative {
        Shows(pendingByNative[key]);
      }
      issued := None;
      if key in pendingByNative && pendingByNative[key] in byId {
        issued := Cancel(pendingByNative[key]);
      }
    }

    method Cancel(id: Ulid) returns (issued: Option<Draft>)
      requires Valid() && id in byId
      modifies this, byId.Values
      ensures Valid() && byId == old(byId)
      ensures Outcome(View(), issued, None) == CancelOrphan(old(View()), id)
    {
      hide ById;
      Shows(id);
      WriteStatus(id, Cancelled);
      var _ := ResolveBookkeeping(id);
      issued := Some(Draft(Some(byId[id].original.sessionId), InteractionCancelled(id)));
    }

    method Timeout(id: Ulid) returns (issued: Option<Draft>, next: Option<Delivery>)
      requires Valid()
      modifies this, byId.Values
      ensures Valid() && byId == old(byId)
      ensures Outcome(View(), issued, next) == TimeOut(old(View()), id)
      ensures next.Some? <==> id in byId && old(byId[id].status) == Pending && byId[id].original.kind.Permission?
                              && id in old(deliver)
      ensures next.Some? ==> next.value == Delivery(id, Answer(Some(false), "timed out"), old(deliver)[id])
    {
      hide ById;
      Shows(id);
      issued, next := None, None;
      if id !in byId || byId[id].status != Pending {
        return;
      }
      var i := byId[id];
      WriteStatus(id, TimedOut);
      var callback := ResolveBookkeeping(id);
      issued := Some(Draft(Some(i.original.sessionId), InteractionTimedOut(id)));
      if i.original.kind.Permission? && callback.Some? {
        next := Some(Delivery(id, DENIED, callback.value));
      }
    }

    method ApplyEvent(e: Event)
      requires Valid()
      modifies this, byId.Values
      ensures Valid() && fresh(byId.Values - old(byId.Values))
      ensures View() == old(View()).(inbox := Apply(old(View()).inbox, e))
    {
      hide ById;
      if IsTerminal(e.body) {
        Shows(Target(e.body));
      }
      if e.body.InteractionRequested? {
        ApplyRequested(e.body.interaction);
      } else if IsTerminal(e.body) && Target(e.body) in byId {
        ApplyTerminal(e.body);
      }
    }

    method ApplyRequested(i: Interaction)
      requires Valid()
      modifies this
      ensures Valid() && fresh(byId.Values - old(byId.Values))
      ensures var x := old(View()).inbox;
              View() == old(View()).(inbox := Inbox(
                x.byId[i.id := i], if i.status.Pending? then x.pending[InteractionKey(i) := i.id] else x.pending))
    {
      hide ById;
      Record(i);
      if i.status.Pending? {
        pendingByNative := pendingByNative[InteractionKey(i) := i.id];
      }
    }

    method ApplyTerminal(b: Body)
      requires Valid() && IsTerminal(b) && Target(b) in byId
      modifies this, byId[Target(b)]
      ensures Valid() && byId == old(byId)
      ensures View() == old(View()).(inbox := Settle(old(View()).inbox, b))
    {
      hide ById;
      Shows(Target(b));
      var id := Target(b);
      var i := byId[id];
      pendingByNative := pendingByNative - {InteractionKey(i.original)};
      match b
      case InteractionAnswered(_, a, who) =>
        i.status, i.answer, i.answeredBy := Answered, Some(a), who;
        OneWritten(id);
      case InteractionTimedOut(_) =>
        WriteStatus(id, TimedOut);
      case InteractionCancelled(_) =>
        WriteStatus(id, Cancelled);
    }

    /** Events of this machine already went through the commands; other namespaces are ignored. */
    method ApplyRemote(e: Event)
      requires Valid()
      modifies this, byId.Values
      ensures Valid() && fresh(byId.Values - old(byId.Values))
      ensures View() == if e.node == node then old(View())
                        else old(View()).(inbox := Apply(old(View()).inbox, e))
    {
      hide ById;
      if e.node == node || !StartsWith(TypeOf(e.body), "interaction.") {
        if IsInteractionBody(e.body) {
          InteractionTypesStart(e.body);
        }
        return;
      }
      ApplyEvent(e);
    }

    method FoldBatch(batch: seq<Event>)
      requires Valid()
      modifies this, byId.Values
      ensures Valid() && fresh(byId.Values - old(byId.Values))
      ensures View() == old(View()).(inbox := Fold(old(View()).inbox, batch))
    {
      hide ById, View;
      for i := 0 to |batch|
        invariant Valid() && fresh(byId.Values - old(byId.Values))
        invariant View() == old(View()).(inbox := Fold(old(View()).inbox, batch[..i]))
      {
        ApplyEvent(batch[i]);
        assert batch[..i + 1] == batch[..i] + [batch[i]];
      }
      assert batch[..|batch|] == batch;
    }

    /** However the pages fall, the result is one fold of all stored rows over the view before. */
    method FoldStore(store: SqliteEventStore)
      requires Valid() && store.Valid()
      modifies this, byId.Values
      ensures Valid() && fresh(byId.Values - old(byId.Values))
      ensures View() == old(View()).(inbox := Fold(old(View()).inbox, store.rows))
    {
      hide ById, Apply, Selects, Reverse, View;
      FoldOfNamespace(View().inbox, store.rows);
      var at := Namespace("interaction.*");
      ghost var goal := Fold(View().inbox, Select(at, store.rows));
      var batch := store.Fetch(at);
      while batch != []
        invariant Valid() && store.Valid() && fresh(byId.Values - old(byId.Values))
        invariant !at.newestFirst && store.rows == old(store.rows) && batch == Page(at, store.rows)
        invariant Fold(View().inbox, Select(at, store.rows)) == goal
        invariant View() == old(View()).(inbox := View().inbox)
        decreases |Select(at, store.rows)|
      {
        PageStep(at, store.rows);
        FoldConcat(View().inbox, batch, Select(NextPage(at, batch), store.rows));
        FoldBatch(batch);
        at := NextPage(at, batch);
        batch := store.Fetch(at);
      }
    }

    /** This machine's own pending interactions, each once. */
    method Orphans() returns (ids: seq<Ulid>)
      requires Valid()
      ensures AreOrphans(View(), node, ids)
    {
      ids := [];
      var rest := byId.Keys;
      while rest != {}
        invariant rest <= byId.Keys
        invariant forall i, j :: 0 <= i < j < |ids| ==> ids[i] != ids[j]
        invariant forall id :: id in ids <==> id in byId && id !in rest && byId[id].status.Pending? && byId[id].original.node == node
        decreases |rest|
      {
        var id: Ulid :| id in rest;
        rest := rest - {id};
        if byId[id].status.Pending? && byId[id].original.node == node {
          ids := ids + [id];
        }
      }
    }

    /** Cancels the orphans one by one, issuing one event each. */
    method SweepOrphans() returns (ghost orphans: seq<Ulid>, issued: seq<Draft>)
      requires Valid()
      modifies this, byId.Values
      ensures Valid() && byId == old(byId)
      ensures AreOrphans(old(View()), node, orphans) && View() == Sweep(old(View()), orphans)
      ensures |issued| == |orphans|
      ensures forall i :: 0 <= i < |orphans| ==> issued[i].body == InteractionCancelled(orphans[i])
    {
      hide ById;
      var ids := Orphans();
      orphans, issued := ids, [];
      forall id | id in ids ensures id in byId {
        Shows(id);
      }
      for i := 0 to |ids|
        invariant Valid() && byId == old(byId)
        invariant View() == Sweep(old(View()), ids[..i])
        invariant |issued| == i
        invariant forall j :: 0 <= j < i ==> issued[j].body == InteractionCancelled(ids[j])
      {
        Shows(ids[i]);
        var one := Cancel(ids[i]);
        issued := issued + [one.value];
        SweepStep(old(View()), ids, i);
      }
      assert ids[..|ids|] == ids;
    }

    /** Folds the stored log, then cancels what this machine left pending in it. */
    method Rebuild(store: SqliteEventStore) returns (ghost orphans: seq<Ulid>, issued: seq<Draft>)
      requires Valid() && store.Valid()
      modifies this, byId.Values
      ensures Valid() && fresh(byId.Values - old(byId.Values))
      ensures var folded := old(View()).(inbox := Fold(old(View()).inbox, store.rows));
              AreOrphans(folded, node, orphans) && View() == Sweep(folded, orphans)
      ensures |issued| == |orphans|
      ensures forall i :: 0 <= i < |orphans| ==> issued[i].body == InteractionCancelled(orphans[i])
    {
      hide ById, View, Fold, Sweep, AreOrphans;
      FoldStore(store);
      orphans, issued := SweepOrphans();
    }
  }
}
