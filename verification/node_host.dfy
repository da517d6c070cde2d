/**
 One machine's event-sourced core under every interleaving: commands start, suspended commands resume
 in any order, callbacks run, the process crashes and rebuilds from whatever prefix was recorded.
 */
module NodeHost {
  import opened Envelope
  import opened EventLog
  import S = Sessions
  import M = Mediation

  datatype World = World(
    catalogue: S.Catalogue,
    live: M.Live,
    suspended: seq<S.Task>,       // session commands waiting for a publish
    callbacks: seq<M.Delivery>,   // mediation commands waiting to call `deliver`
    delivered: seq<M.Delivery>,   // calls made since the last boot
    earlier: seq<M.Delivery>,     // auxiliary: calls made before it
    used: set<Ulid>,              // auxiliary: every interaction id there ever was
    orphans: seq<Ulid>,           // still to be swept before anything else runs
    issued: seq<Event>,           // every event given an id, oldest first
    lastId: nat)

  const INITIAL := World(S.EMPTY, M.Live(M.EMPTY, map[], {}), [], [], [], [], {}, [], [], 0)

  datatype Action =
    | StartSession(cmd: S.Command, candidate: nat)
    | ResumeSession(k: nat, candidate: nat)
    | StartMediation(request: M.Command, candidate: nat)
    | Deliver(j: nat)
    | Crash(kept: nat, found: seq<Ulid>)
    | SweepNext(candidate: nat)

  /** A fresh id exceeds everything recorded: free within a process, the clock's promise after a restart. */
  predicate IdsForward(w: World, candidate: nat) {
    NextId(w.lastId, candidate) > LastId(w.issued)
  }

  ghost predicate Enabled(w: World, a: Action) {
    match a
    case StartSession(cmd, c) =>
      && w.orphans == [] && IdsForward(w, c) && !cmd.ResumeCmd?
      && (cmd.UpsertCmd? ==> cmd.freshId !in w.catalogue.byId)
    case ResumeSession(k, c) => w.orphans == [] && IdsForward(w, c) && k < |w.suspended|
    case StartMediation(cmd, c) =>
      && w.orphans == [] && IdsForward(w, c) && !cmd.OrphanCmd?
      && (cmd.OpenCmd? ==> cmd.freshId !in w.used)
    case Deliver(j) => j < |w.callbacks|
    case Crash(kept, found) =>
      && kept <= |w.issued|
      && (forall i, j :: 0 <= i < j < |found| ==> found[i] != found[j])
      && (forall id :: id in found <==> id in M.PendingIds(M.Fold(M.EMPTY, w.issued[..kept])))
    case SweepNext(c) => w.orphans != [] && IdsForward(w, c)
  }

  function Issue(w: World, node: string, sid: Option<Ulid>, b: Body, candidate: nat): World {
    var id := NextId(w.lastId, candidate);
    w.(issued := w.issued + [Event(id, node, sid, b)], lastId := id)
  }

  function SessionStep(w: World, node: string, cmd: S.Command, candidate: nat): World {
    var o := S.Segment(w.catalogue, node, cmd);
    var v := w.(catalogue := o.catalogue, suspended := if o.next.Some? then w.suspended + [o.next.value] else w.suspended);
    if o.issued.Some? then Issue(v, node, o.issued.value.sessionId, o.issued.value.body, candidate) else v
  }

  function MediationStep(w: World, node: string, cmd: M.Command, candidate: nat): World {
    var o := M.Segment(w.live, node, cmd);
    var v := w.(live := o.live, used := w.used + o.live.inbox.byId.Keys,
                callbacks := if o.next.Some? then w.callbacks + [o.next.value] else w.callbacks);
    if o.issued.Some? then Issue(v, node, o.issued.value.sessionId, o.issued.value.body, candidate) else v
  }

  function Step(w: World, node: string, a: Action): World
    requires Enabled(w, a)
  {
    match a
    case StartSession(cmd, c) => SessionStep(w, node, cmd, c)
    case ResumeSession(k, c) =>
      SessionStep(w.(suspended := w.suspended[..k] + w.suspended[k + 1..]), node, S.ResumeCmd(w.suspended[k]), c)
    case StartMediation(cmd, c) => MediationStep(w, node, cmd, c)
    case Deliver(j) =>
      w.(callbacks := w.callbacks[..j] + w.callbacks[j + 1..], delivered := w.delivered + [w.callbacks[j]])
    case Crash(kept, found) =>
      var log := w.issued[..kept];
      World(S.Fold(S.EMPTY, log), M.Live(M.Fold(M.EMPTY, log), map[], {}), [], [], [], w.earlier + w.delivered,
            w.used + M.Fold(M.EMPTY, log).byId.Keys, found, log, 0)
    case SweepNext(c) => MediationStep(w.(orphans := w.orphans[1..]), node, M.OrphanCmd(w.orphans[0]), c)
  }

  /** What a step takes from its segment: the new state, the event under a fresh id, and what is left to do. */
  lemma StepsInWords(w: World, node: string, cmd: S.Command, c: nat)
    requires Enabled(w, StartSession(cmd, c))
    ensures var o, v := S.Segment(w.catalogue, node, cmd), Step(w, node, StartSession(cmd, c));
            && v.catalogue == o.catalogue && v.live == w.live
            && v.suspended == (if o.next.Some? then w.suspended + [o.next.value] else w.suspended)
            && v.issued == (if o.issued.None? then w.issued
                            else w.issued + [Event(v.lastId, node, o.issued.value.sessionId, o.issued.value.body)])
            && (o.issued.Some? ==> v.lastId > w.lastId && v.lastId >= c)
  {
    hide S.Segment;
  }

  /** A run: any schedule of enabled actions from the first boot on. */
  ghost predicate IsRun(node: string, worlds: seq<World>, actions: seq<Action>) {
    && |worlds| == |actions| + 1
    && worlds[0] == INITIAL
    && forall i :: 0 <= i < |actions| ==>
         Enabled(worlds[i], actions[i]) && worlds[i + 1] == Step(worlds[i], node, actions[i])
  }

  // -------------------------------------------------------------- invariant

  ghost predicate AllFrom(node: string, log: seq<Event>) {
    forall e :: e in log ==> e.node == node
  }

  /** Calls made or still to be made for one interaction. */
  function Calls(ds: seq<M.Delivery>, id: Ulid): nat {
    if ds == [] then 0 else Calls(ds[..|ds| - 1], id) + if ds[|ds| - 1].id == id then 1 else 0
  }

  /** The call carries what the record says: the recorded answer, or the auto-denial of a permission. */
  ghost predicate Honest(x: M.Inbox, d: M.Delivery) {
    && d.id in x.byId
    && var i := x.byId[d.id];
       (i.status.Answered? && i.answer == Some(d.answer)) || (i.status.TimedOut? && i.kind.Permission? && d.answer == M.DENIED)
  }

  /** Calls for one interaction over all boots, made or still to be made. */
  function AllCalls(ahead: seq<M.Delivery>, made: seq<M.Delivery>, earlier: seq<M.Delivery>, id: Ulid): nat {
    Calls(ahead, id) + Calls(made, id) + Calls(earlier, id)
  }

  ghost predicate DeliveryOk(w: World) {
    && (forall d :: d in w.callbacks || d in w.delivered ==> Honest(w.live.inbox, d))
    && (forall id :: AllCalls(w.callbacks, w.delivered, w.earlier, id) <= 1)
    && (forall d :: d in w.earlier ==> d.id in w.used)
    && w.live.inbox.byId.Keys <= w.used
  }

  /** Once the boot sweep is over, what is pending was opened since the boot, so nobody was called for it. */
  ghost predicate PendingsAreFresh(w: World) {
    w.orphans == [] ==> forall id :: M.IsPending(w.live, id) ==> Calls(w.earlier, id) == 0
  }

  ghost predicate OrphansOk(w: World) {
    && (forall i, j :: 0 <= i < j < |w.orphans| ==> w.orphans[i] != w.orphans[j])
    && (forall id :: id in w.orphans ==> M.IsPending(w.live, id))
    && (w.orphans != [] ==> forall id :: M.IsPending(w.live, id) ==> id in w.orphans)
  }

  ghost predicate Inv(node: string, w: World) {
    && Sorted(w.issued) && AllFrom(node, w.issued)
    && S.LawfulLog(w.issued) && M.LawfulLog(node, w.issued)
    && w.catalogue == S.Fold(S.EMPTY, w.issued)
    && w.live.inbox == M.Fold(M.EMPTY, w.issued)
    && DeliveryOk(w) && OrphansOk(w) && PendingsAreFresh(w)
  }

  lemma IssueKeepsLog(w: World, node: string, e: Event)
    requires Sorted(w.issued) && AllFrom(node, w.issued) && e.node == node && e.id > LastId(w.issued)
    requires S.LawfulLog(w.issued) && M.LawfulLog(node, w.issued)
    requires S.Lawful(S.Fold(S.EMPTY, w.issued), e) && M.Lawful(node, M.Fold(M.EMPTY, w.issued), e)
    ensures Sorted(w.issued + [e]) && AllFrom(node, w.issued + [e])
    ensures S.LawfulLog(w.issued + [e]) && M.LawfulLog(node, w.issued + [e])
  {
    var log := w.issued + [e];
    assert log[..|log| - 1] == w.issued;
  }

  /** Deliveries and orphans look at the mediation side only. */
  lemma SameMediation(w: World, v: World)
    requires v.live == w.live && v.callbacks == w.callbacks && v.delivered == w.delivered && v.orphans == w.orphans
    requires v.earlier == w.earlier && v.used == w.used
    ensures DeliveryOk(w) ==> DeliveryOk(v)
    ensures PendingsAreFresh(w) ==> PendingsAreFresh(v)
    ensures OrphansOk(w) ==> OrphansOk(v)
  {
  }

  lemma SegmentSpeaksOfSessions(c: S.Catalogue, node: string, cmd: S.Command)
    requires S.Segment(c, node, cmd).issued.Some?
    ensures var b := S.Segment(c, node, cmd).issued.value.body;
            !b.InteractionRequested? && !M.IsTerminal(b)
  {
  }

  lemma SessionStepKeeps(w: World, node: string, cmd: S.Command, candidate: nat)
    requires Inv(node, w) && IdsForward(w, candidate)
    requires cmd.UpsertCmd? ==> cmd.freshId !in w.catalogue.byId
    ensures Inv(node, SessionStep(w, node, cmd, candidate))
  {
    hide DeliveryOk, OrphansOk, PendingsAreFresh, CanTransition, IsEnd, S.Segment, S.Lawful;
    var o := S.Segment(w.catalogue, node, cmd);
    var v := SessionStep(w, node, cmd, candidate);
    SameMediation(w, v);
    if o.issued.Some? {
      var e := Event(NextId(w.lastId, candidate), node, o.issued.value.sessionId, o.issued.value.body);
      S.SegmentIsFold(w.catalogue, node, cmd, e);
      S.SegmentIsLawful(w.catalogue, node, cmd, e);
      SegmentSpeaksOfSessions(w.catalogue, node, cmd);
      IssueKeepsLog(w, node, e);
      S.FoldStep(S.EMPTY, w.issued, e);
      M.FoldStep(M.EMPTY, w.issued, e);
    } else {
      S.SegmentIsFold(w.catalogue, node, cmd, Event(0, node, None, Other("")));
    }
  }

  lemma MediationStepKeepsLog(w: World, node: string, cmd: M.Command, candidate: nat)
    requires Inv(node, w) && IdsForward(w, candidate)
    requires cmd.OpenCmd? ==> cmd.freshId !in w.live.inbox.byId
    requires cmd.OrphanCmd? ==> M.IsPending(w.live, cmd.orphan)
    ensures var v := MediationStep(w, node, cmd, candidate);
            && Sorted(v.issued) && AllFrom(node, v.issued)
            && S.LawfulLog(v.issued) && M.LawfulLog(node, v.issued)
            && v.catalogue == S.Fold(S.EMPTY, v.issued)
            && v.live.inbox == M.Fold(M.EMPTY, v.issued)
  {
    var o := M.Segment(w.live, node, cmd);
    M.LawfulIndex(node, w.issued);
    if o.issued.Some? {
      var e := Event(NextId(w.lastId, candidate), node, o.issued.value.sessionId, o.issued.value.body);
      M.SegmentIsFold(w.live, node, cmd, e);
      M.SegmentIsLawful(w.live, node, cmd, e);
      IssueKeepsLog(w, node, e);
      S.FoldStep(S.EMPTY, w.issued, e);
      M.FoldStep(M.EMPTY, w.issued, e);
    } else {
      M.SegmentIsFold(w.live, node, cmd, Event(0, node, None, Other("")));
    }
  }

  // ------------------------------------------------------- deliveries

  lemma {:induction false} NoCalls(ds: seq<M.Delivery>, id: Ulid)
    requires forall d :: d in ds ==> d.id != id
    ensures Calls(ds, id) == 0
  {
    if ds != [] {
      NoCalls(ds[..|ds| - 1], id);
    }
  }

  lemma {:induction false} CallsConcat(a: seq<M.Delivery>, b: seq<M.Delivery>, id: Ulid)
    ensures Calls(a + b, id) == Calls(a, id) + Calls(b, id)
  {
    if b == [] {
      assert a + b == a;
    } else {
      assert (a + b)[..|a + b| - 1] == a + b[..|b| - 1];
      CallsConcat(a, b[..|b| - 1], id);
    }
  }

  lemma CallsMoved(ds: seq<M.Delivery>, done: seq<M.Delivery>, j: nat, id: Ulid)
    requires j < |ds|
    ensures Calls(ds[..j] + ds[j + 1..], id) + Calls(done + [ds[j]], id) == Calls(ds, id) + Calls(done, id)
  {
    assert ds == (ds[..j] + [ds[j]]) + ds[j + 1..];
    CallsConcat(ds[..j] + [ds[j]], ds[j + 1..], id);
    CallsConcat(ds[..j], [ds[j]], id);
    CallsConcat(ds[..j], ds[j + 1..], id);
    CallsConcat(done, [ds[j]], id);
  }

  lemma HonestStays(x: M.Inbox, node: string, e: Event, d: M.Delivery)
    requires Honest(x, d) && M.Lawful(node, x, e)
    ensures Honest(M.Apply(x, e), d)
  {
  }

  /** The call a segment schedules is for an interaction it has just resolved, with what it recorded. */
  lemma CallIsHonest(w: World, node: string, cmd: M.Command)
    requires M.Segment(w.live, node, cmd).next.Some? && !cmd.OrphanCmd?
    ensures var o := M.Segment(w.live, node, cmd);
            M.IsPending(w.live, o.next.value.id) && Honest(o.live.inbox, o.next.value)
  {
  }

  lemma PendingIsUncalled(w: World, id: Ulid)
    requires DeliveryOk(w) && M.IsPending(w.live, id)
    ensures Calls(w.callbacks, id) == 0 == Calls(w.delivered, id)
  {
    NoCalls(w.callbacks, id);
    NoCalls(w.delivered, id);
  }

  lemma MediationStepKeepsDeliveries(w: World, node: string, cmd: M.Command, candidate: nat)
    requires Inv(node, w)
    requires cmd.OpenCmd? ==> cmd.freshId !in w.live.inbox.byId
    requires if cmd.OrphanCmd? then M.IsPending(w.live, cmd.orphan) else w.orphans == []
    ensures DeliveryOk(MediationStep(w, node, cmd, candidate))
  {
    hide Sorted, AllFrom, S.LawfulLog, M.LawfulLog, M.Settle, Honest;
    var o := M.Segment(w.live, node, cmd);
    var v := MediationStep(w, node, cmd, candidate);
    M.LawfulIndex(node, w.issued);
    if o.issued.Some? {
      var e := Event(NextId(w.lastId, candidate), node, o.issued.value.sessionId, o.issued.value.body);
      M.SegmentIsFold(w.live, node, cmd, e);
      M.SegmentIsLawful(w.live, node, cmd, e);
      forall d | d in w.callbacks || d in w.delivered ensures Honest(v.live.inbox, d) {
        HonestStays(w.live.inbox, node, e, d);
      }
    }
    if o.next.Some? {
      var d := o.next.value;
      CallIsHonest(w, node, cmd);
      forall id ensures AllCalls(v.callbacks, v.delivered, v.earlier, id) <= 1 {
        CallsConcat(w.callbacks, [d], id);
        assert AllCalls(w.callbacks, w.delivered, w.earlier, id) <= 1;
        if id == d.id {
          PendingIsUncalled(w, id);
        }
      }
    }
  }

  /** What is pending after a segment was pending before, or has just been opened. */
  lemma SegmentPendings(l: M.Live, node: string, cmd: M.Command, id: Ulid)
    requires M.IsPending(M.Segment(l, node, cmd).live, id)
    ensures M.IsPending(l, id) || (cmd.OpenCmd? && id == cmd.freshId)
  {
  }

  lemma PendingsStayFresh(w: World, node: string, cmd: M.Command, candidate: nat)
    requires DeliveryOk(w) && PendingsAreFresh(w) && w.orphans == []
    requires cmd.OpenCmd? ==> cmd.freshId !in w.used
    ensures PendingsAreFresh(MediationStep(w, node, cmd, candidate))
  {
    hide Honest, M.Segment, M.IsPending;
    var v := MediationStep(w, node, cmd, candidate);
    forall id | M.IsPending(v.live, id) ensures Calls(v.earlier, id) == 0 {
      SegmentPendings(w.live, node, cmd, id);
      if !M.IsPending(w.live, id) {
        NoCalls(w.earlier, id);
      }
    }
  }

  // ------------------------------------------------------------- every run

  lemma KnownIsUsed(w: World, node: string)
    requires Inv(node, w)
    ensures w.live.inbox.byId.Keys <= w.used
  {
  }

  lemma MediationStepKeeps(w: World, node: string, cmd: M.Command, candidate: nat)
    requires Inv(node, w) && IdsForward(w, candidate) && w.orphans == []
    requires cmd.OpenCmd? ==> cmd.freshId !in w.used
    requires !cmd.OrphanCmd?
    ensures Inv(node, MediationStep(w, node, cmd, candidate))
  {
    hide DeliveryOk, PendingsAreFresh, Sorted, AllFrom, S.LawfulLog, M.LawfulLog, M.Segment, M.IsPending;
    KnownIsUsed(w, node);
    PendingsStayFresh(w, node, cmd, candidate);
    MediationStepKeepsLog(w, node, cmd, candidate);
    MediationStepKeepsDeliveries(w, node, cmd, candidate);
  }

  lemma DeliverKeeps(w: World, node: string, j: nat)
    requires Inv(node, w) && Enabled(w, Deliver(j))
    ensures Inv(node, Step(w, node, Deliver(j)))
  {
    var v := Step(w, node, Deliver(j));
    forall id ensures AllCalls(v.callbacks, v.delivered, v.earlier, id) <= 1 {
      CallsMoved(w.callbacks, w.delivered, j, id);
      assert AllCalls(w.callbacks, w.delivered, w.earlier, id) <= 1;
    }
  }

  lemma CrashKeeps(w: World, node: string, kept: nat, found: seq<Ulid>)
    requires Inv(node, w) && Enabled(w, Crash(kept, found))
    ensures Inv(node, Step(w, node, Crash(kept, found)))
  {
    S.LawfulPrefix(w.issued, kept);
    M.LawfulPrefix(node, w.issued, kept);
    CrashKeepsDeliveries(w, node, kept, found);
    hide DeliveryOk, PendingsAreFresh, S.LawfulLog, M.LawfulLog;
  }

  lemma CrashKeepsDeliveries(w: World, node: string, kept: nat, found: seq<Ulid>)
    requires DeliveryOk(w) && Enabled(w, Crash(kept, found))
    ensures DeliveryOk(Step(w, node, Crash(kept, found))) && PendingsAreFresh(Step(w, node, Crash(kept, found)))
  {
    var v := Step(w, node, Crash(kept, found));
    hide Honest, M.Fold;
    forall id ensures AllCalls(v.callbacks, v.delivered, v.earlier, id) <= 1 {
      CallsConcat(w.earlier, w.delivered, id);
      assert AllCalls(w.callbacks, w.delivered, w.earlier, id) <= 1;
    }
    forall d | d in v.earlier ensures d.id in v.used {
      if d in w.delivered {
        HonestIsKnown(w.live.inbox, d);
      }
    }
    if v.orphans == [] {
      forall id ensures !M.IsPending(v.live, id) {
        assert id in M.PendingIds(v.live.inbox) <==> M.IsPending(v.live, id);
      }
    }
  }

  lemma HonestIsKnown(x: M.Inbox, d: M.Delivery)
    requires Honest(x, d)
    ensures d.id in x.byId
  {
  }

  lemma StepKeeps(w: World, node: string, a: Action)
    requires Inv(node, w) && Enabled(w, a)
    ensures Inv(node, Step(w, node, a))
  {
    hide SessionStep, MediationStep, Inv, IdsForward;
    match a
    case StartSession(cmd, c) => SessionStepKeeps(w, node, cmd, c);
    case ResumeSession(k, c) =>
      var v := w.(suspended := w.suspended[..k] + w.suspended[k + 1..]);
      SuspensionIsFree(w, node, v, c);
      SessionStepKeeps(v, node, S.ResumeCmd(w.suspended[k]), c);
    case StartMediation(cmd, c) => MediationStepKeeps(w, node, cmd, c);
    case Deliver(j) => DeliverKeeps(w, node, j);
    case Crash(kept, found) => CrashKeeps(w, node, kept, found);
    case SweepNext(c) => SweepKeeps(w, node, c);
  }

  lemma SuspensionIsFree(w: World, node: string, v: World, candidate: nat)
    requires v == w.(suspended := v.suspended) && Inv(node, w) && IdsForward(w, candidate)
    ensures Inv(node, v) && IdsForward(v, candidate)
  {
  }

  lemma SweptPendings(w: World, node: string, candidate: nat)
    requires w.orphans != [] && IdsForward(w, candidate) && M.IsPending(w.live, w.orphans[0])
    ensures var v := Step(w, node, SweepNext(candidate));
            && v.orphans == w.orphans[1..]
            && v == MediationStep(w, node, M.OrphanCmd(w.orphans[0]), candidate).(orphans := v.orphans)
            && forall j :: M.IsPending(v.live, j) <==> M.IsPending(w.live, j) && j != w.orphans[0]
  {
  }

  lemma OrphansShrink(w: World, v: World)
    requires OrphansOk(w) && w.orphans != [] && v.orphans == w.orphans[1..]
    requires forall j :: M.IsPending(v.live, j) <==> M.IsPending(w.live, j) && j != w.orphans[0]
    ensures OrphansOk(v)
    ensures v.orphans == [] ==> forall j :: !M.IsPending(v.live, j)
  {
    assert w.orphans == [w.orphans[0]] + v.orphans;
    assert forall i :: 0 <= i < |v.orphans| ==> v.orphans[i] == w.orphans[i + 1];
    assert forall id :: id in w.orphans <==> id == w.orphans[0] || id in v.orphans;
  }

  lemma SameDeliveries(w: World, v: World)
    requires v == w.(orphans := v.orphans) && DeliveryOk(w)
    ensures DeliveryOk(v)
  {
  }

  lemma SweepKeeps(w: World, node: string, candidate: nat)
    requires Inv(node, w) && w.orphans != [] && IdsForward(w, candidate)
    ensures Inv(node, Step(w, node, SweepNext(candidate)))
  {
    var cmd := M.OrphanCmd(w.orphans[0]);
    assert M.IsPending(w.live, w.orphans[0]);
    MediationStepKeepsLog(w, node, cmd, candidate);
    MediationStepKeepsDeliveries(w, node, cmd, candidate);
    SweptPendings(w, node, candidate);
    OrphansShrink(w, Step(w, node, SweepNext(candidate)));
    SameDeliveries(MediationStep(w, node, cmd, candidate), Step(w, node, SweepNext(candidate)));
  }

  lemma {:induction false} RunKeeps(node: string, worlds: seq<World>, actions: seq<Action>, i: nat)
    requires IsRun(node, worlds, actions) && i < |worlds|
    ensures Inv(node, worlds[i])
  {
    if i > 0 {
      RunKeeps(node, worlds, actions, i - 1);
      StepKeeps(worlds[i - 1], node, actions[i - 1]);
    }
  }

  /**
   Live equals replay: at every await point of every interleaving, recording the events issued so far in
   any order and rebuilding from the store gives back the catalogue and the inbox held in memory.
   */
  lemma LiveEqualsReplay(node: string, worlds: seq<World>, actions: seq<Action>, i: nat, recorded: seq<Event>)
    requires IsRun(node, worlds, actions) && i < |worlds|
    requires multiset(recorded) == multiset(worlds[i].issued)
    ensures S.Fold(S.EMPTY, Select(Namespace("session.*"), InsertAll([], recorded))) == worlds[i].catalogue
    ensures M.Fold(M.EMPTY, Select(Namespace("interaction.*"), InsertAll([], recorded))) == worlds[i].live.inbox
  {
    RunKeeps(node, worlds, actions, i);
    AnyRecordingOrder(worlds[i].issued, recorded);
    S.FoldOfNamespace(S.EMPTY, worlds[i].issued);
    M.FoldOfNamespace(M.EMPTY, worlds[i].issued);
  }

  /** Every session's recorded history is a legal path to its current state, in every interleaving. */
  lemma HistoriesAreLegal(node: string, worlds: seq<World>, actions: seq<Action>, i: nat, sid: Ulid)
    requires IsRun(node, worlds, actions) && i < |worlds|
    ensures S.LegalPath(S.Moves(worlds[i].issued, sid))
    ensures sid in worlds[i].catalogue.byId ==>
              && worlds[i].catalogue.byId[sid].state == S.EndOf(S.Moves(worlds[i].issued, sid))
              && worlds[i].catalogue.byId[sid].ended == IsEnd(worlds[i].catalogue.byId[sid].state)
  {
    RunKeeps(node, worlds, actions, i);
    S.HistoryIsLegal(worlds[i].issued, sid);
  }

  /**
   Exactly-once resolution: an interaction has one terminal event once it is no longer pending and none
   before; its callback runs at most once over all boots, with the recorded answer or the auto-denial of a
   permission as long as the process lives; and the pending index counts exactly the pending interactions.
   */
  lemma ResolutionIsExactlyOnce(node: string, worlds: seq<World>, actions: seq<Action>, i: nat, id: Ulid)
    requires IsRun(node, worlds, actions) && i < |worlds|
    ensures var w := worlds[i];
            && M.Terminals(w.issued, id) ==
                 (if id in w.live.inbox.byId && !M.IsPending(w.live, id) then 1 else 0)
            && Calls(w.delivered, id) + Calls(w.earlier, id) <= 1
            && (forall d :: d in w.delivered ==> Honest(w.live.inbox, d))
            && M.Bijective(w.live.inbox)
            && |w.live.inbox.pending| == |M.PendingIds(w.live.inbox)|
  {
    RunKeeps(node, worlds, actions, i);
    M.ResolvedExactlyOnce(node, worlds[i].issued, id);
    M.LawfulIndex(node, worlds[i].issued);
    M.PendingCount(worlds[i].live.inbox);
    assert AllCalls(worlds[i].callbacks, worlds[i].delivered, worlds[i].earlier, id) <= 1;
  }

  /** When the boot sweep has finished, nothing that was pending before the crash is pending. */
  lemma BootLeavesNothingPending(node: string, worlds: seq<World>, actions: seq<Action>, i: nat)
    requires IsRun(node, worlds, actions) && 0 < i < |worlds|
    requires actions[i - 1].SweepNext? && worlds[i].orphans == []
    ensures M.PendingIds(worlds[i].live.inbox) == {} && worlds[i].live.inbox.pending == map[]
  {
    var w, v := worlds[i - 1], worlds[i];
    RunKeeps(node, worlds, actions, i - 1);
    RunKeeps(node, worlds, actions, i);
    assert M.IsPending(w.live, w.orphans[0]);
    SweptPendings(w, node, actions[i - 1].candidate);
    OrphansShrink(w, v);
    M.LawfulIndex(node, v.issued);
    NonePending(v.live);
  }

  lemma NonePending(l: M.Live)
    requires M.Bijective(l.inbox) && forall j :: !M.IsPending(l, j)
    ensures M.PendingIds(l.inbox) == {} && l.inbox.pending == map[]
  {
    forall id ensures id !in M.PendingIds(l.inbox) {
      assert !M.IsPending(l, id);
    }
    assert forall k :: k in l.inbox.pending ==> M.IsPending(l, l.inbox.pending[k]);
  }
}
