/**
 Answers reach the agent: over all interleavings of one machine, each interaction that was opened since the boot and
 is answered, or denied by its timeout, has one call of a callback - the one last registered for it.
 */
module Deliveries {
  import opened Envelope
  import opened NodeHost
  import S = Sessions
  import M = Mediation
  import C = MediationCommands

  // ----------------------------------------------------------- registrations

  /** The callback last registered for an interaction since the boot, after one more action. */
  function Registered(w: World, a: Action, id: Ulid, before: Option<M.Callback>): Option<M.Callback> {
    match a
    case StartMediation(cmd, _) => if cmd.OpenCmd? && Opens(w, cmd) == id then Some(cmd.callback) else before
    case Crash(_, _) => None
    case _ => before
  }

  /** The interaction that a request opens, or finds pending. */
  function Opens(w: World, cmd: M.Command): Ulid
    requires cmd.OpenCmd?
  {
    var key := (cmd.request.adapter, cmd.request.nativeId);
    if key in w.live.inbox.pending then w.live.inbox.pending[key] else cmd.freshId
  }

  function LastCallback(worlds: seq<World>, actions: seq<Action>, i: nat, id: Ulid): Option<M.Callback>
    requires i < |worlds| && i <= |actions|
  {
    if i == 0 then None
    else Registered(worlds[i - 1], actions[i - 1], id, LastCallback(worlds, actions, i - 1, id))
  }

  // -------------------------------------------------------------- invariant

  /** Answered, or a permission whose time ran out. */
  predicate Owed(i: Interaction) {
    i.status == Answered || (i.status == TimedOut && i.kind == Permission)
  }

  ghost predicate ToCallback(w: World, id: Ulid, callback: Option<M.Callback>) {
    forall d :: (d in w.callbacks || d in w.delivered) && d.id == id ==> callback == Some(d.callback)
  }

  ghost predicate Waiting(w: World, id: Ulid, callback: Option<M.Callback>) {
    && (id in w.live.deliver <==> callback.Some? && M.IsPending(w.live, id))
    && (id in w.live.deliver ==> callback == Some(w.live.deliver[id]))
  }

  ghost predicate Tended(w: World, id: Ulid, callback: Option<M.Callback>) {
    && (w.orphans != [] ==> callback.None?)
    && Waiting(w, id, callback) && ToCallback(w, id, callback)
    && (callback.Some? ==>
          && id in w.live.inbox.byId
          && Calls(w.callbacks, id) + Calls(w.delivered, id) == if Owed(w.live.inbox.byId[id]) then 1 else 0)
  }

  // --------------------------------------------------------------- each step

  lemma SameTending(w: World, v: World, id: Ulid, callback: Option<M.Callback>)
    requires Tended(w, id, callback) && v.live == w.live && v.callbacks == w.callbacks && v.delivered == w.delivered
    requires v.orphans == w.orphans
    ensures Tended(v, id, callback)
  {
  }

  lemma DeliverTends(w: World, node: string, j: nat, id: Ulid, callback: Option<M.Callback>)
    requires Tended(w, id, callback) && Enabled(w, Deliver(j))
    ensures Tended(Step(w, node, Deliver(j)), id, callback)
  {
    hide M.IsPending, Owed;
    CallsMoved(w.callbacks, w.delivered, j, id);
  }

  /** What a segment leaves of the interactions, with the call it schedules. */
  lemma CallAdded(w: World, v: World, d: M.Delivery, id: Ulid)
    requires v.callbacks == w.callbacks + [d] && v.delivered == w.delivered
    ensures Calls(v.callbacks, id) == Calls(w.callbacks, id) + if d.id == id then 1 else 0
  {
    CallsConcat(w.callbacks, [d], id);
    assert [d][..0] == [];
  }

  lemma PendingNotOwed(w: World, id: Ulid)
    requires M.IsPending(w.live, id)
    ensures !Owed(w.live.inbox.byId[id])
  {
  }

  /** A segment that resolves `target`, calling its callback or nobody. */
  ghost predicate Resolution(w: World, v: World, target: Ulid, next: Option<M.Delivery>) {
    && M.IsPending(w.live, target) && target in v.live.inbox.byId && !M.IsPending(v.live, target)
    && (forall j :: j != target ==>
          && (j in v.live.inbox.byId <==> j in w.live.inbox.byId)
          && (j in w.live.inbox.byId ==> v.live.inbox.byId[j] == w.live.inbox.byId[j]))
    && v.live.deliver == w.live.deliver - {target}
    && v.callbacks == (if next.Some? then w.callbacks + [next.value] else w.callbacks)
    && v.delivered == w.delivered && v.orphans == w.orphans
    && (next.Some? <==> Owed(v.live.inbox.byId[target]) && target in w.live.deliver)
    && (next.Some? ==> next.value.id == target && next.value.callback == w.live.deliver[target])
  }

  lemma ResolutionTends(w: World, v: World, target: Ulid, next: Option<M.Delivery>, id: Ulid, callback: Option<M.Callback>)
    requires DeliveryOk(w) && Tended(w, id, callback) && Resolution(w, v, target, next)
    ensures Tended(v, id, callback)
  {
    hide DeliveryOk, Owed;
    if id == target {
      PendingIsUncalled(w, id);
      PendingNotOwed(w, id);
    }
    if next.Some? {
      CallAdded(w, v, next.value, id);
    }
  }

  lemma AnswerTends(w: World, node: string, cmd: M.Command, c: nat, id: Ulid, callback: Option<M.Callback>)
    requires DeliveryOk(w) && Tended(w, id, callback) && cmd.AnswerCmd?
    ensures Tended(MediationStep(w, node, cmd, c), id, callback)
  {
    hide DeliveryOk, Tended, Calls;
    var o, v := M.Segment(w.live, node, cmd), MediationStep(w, node, cmd, c);
    if M.IsPending(w.live, cmd.id) {
      C.AnswerIsDelivered(w.live, node, cmd.id, cmd.answer, cmd.who);
      ResolutionTends(w, v, cmd.id, o.next, id, callback);
    } else {
      C.ResolvedStays(w.live, node, cmd.id, cmd.answer, cmd.who);
      SameTending(w, v, id, callback);
    }
  }

  lemma TimeoutTends(w: World, node: string, cmd: M.Command, c: nat, id: Ulid, callback: Option<M.Callback>)
    requires DeliveryOk(w) && Tended(w, id, callback) && cmd.TimeoutCmd?
    ensures Tended(MediationStep(w, node, cmd, c), id, callback)
  {
    hide DeliveryOk, Tended, Calls;
    var o, v := M.Segment(w.live, node, cmd), MediationStep(w, node, cmd, c);
    if M.IsPending(w.live, cmd.late) {
      C.TimeoutDenies(w.live, node, cmd.late);
      ResolutionTends(w, v, cmd.late, o.next, id, callback);
    } else {
      C.ResolvedStays(w.live, node, cmd.late, Answer(None, ""), "");
      SameTending(w, v, id, callback);
    }
  }

  lemma CancelTends(w: World, node: string, cmd: M.Command, c: nat, id: Ulid, callback: Option<M.Callback>)
    requires Inv(node, w) && Tended(w, id, callback) && cmd.CancelCmd?
    ensures Tended(MediationStep(w, node, cmd, c), id, callback)
  {
    M.LawfulIndex(node, w.issued);
    hide Inv, DeliveryOk, Tended, Calls;
    var o, v := M.Segment(w.live, node, cmd), MediationStep(w, node, cmd, c);
    C.WithdrawalCancels(w.live, node, cmd.key);
    InvDelivers(node, w);
    if cmd.key in w.live.inbox.pending && w.live.inbox.pending[cmd.key] in w.live.inbox.byId {
      ResolutionTends(w, v, w.live.inbox.pending[cmd.key], None, id, callback);
    } else {
      SameTending(w, v, id, callback);
    }
  }

  lemma InvDelivers(node: string, w: World)
    requires Inv(node, w)
    ensures DeliveryOk(w)
  {
  }

  lemma OrphanTends(w: World, node: string, c: nat, id: Ulid, callback: Option<M.Callback>)
    requires Inv(node, w) && Tended(w, id, callback) && w.orphans != [] && IdsForward(w, c)
    ensures Tended(Step(w, node, SweepNext(c)), id, callback)
  {
    assert M.IsPending(w.live, w.orphans[0]);
    hide Inv;
    C.OrphanIsCancelled(w.live, node, w.orphans[0]);
  }

  lemma OpenTends(w: World, node: string, cmd: M.Command, c: nat, id: Ulid, callback: Option<M.Callback>)
    requires Inv(node, w) && Tended(w, id, callback) && w.orphans == [] && cmd.OpenCmd? && cmd.freshId !in w.used
    ensures Tended(MediationStep(w, node, cmd, c), id, if Opens(w, cmd) == id then Some(cmd.callback) else callback)
  {
    M.LawfulIndex(node, w.issued);
    KnownIsUsed(w, node);
    hide Inv;
    InvDelivers(node, w);
    var key := (cmd.request.adapter, cmd.request.nativeId);
    if key in w.live.inbox.pending {
      C.RequestIsRefreshed(w.live, node, cmd.request, cmd.callback, cmd.freshId);
      RefreshTends(w, MediationStep(w, node, cmd, c), w.live.inbox.pending[key], cmd.callback, id, callback);
    } else {
      C.RequestIsFiled(w.live, node, cmd.request, cmd.callback, cmd.freshId);
      FilingTends(w, MediationStep(w, node, cmd, c), cmd.freshId, cmd.callback, id, callback);
    }
  }

  lemma RefreshTends(w: World, v: World, target: Ulid, latest: M.Callback, id: Ulid, callback: Option<M.Callback>)
    requires DeliveryOk(w) && Tended(w, id, callback) && M.IsPending(w.live, target) && w.orphans == []
    requires v.live == w.live.(deliver := w.live.deliver[target := latest])
    requires v.callbacks == w.callbacks && v.delivered == w.delivered && v.orphans == w.orphans
    ensures Tended(v, id, if target == id then Some(latest) else callback)
  {
    if target == id {
      PendingIsUncalled(w, id);
      PendingNotOwed(w, id);
      Uncalled(w, id);
    }
  }

  lemma Uncalled(w: World, id: Ulid)
    requires DeliveryOk(w) && (id !in w.live.inbox.byId || M.IsPending(w.live, id))
    ensures forall d :: d in w.callbacks || d in w.delivered ==> d.id != id
    ensures Calls(w.callbacks, id) == 0 == Calls(w.delivered, id)
  {
    NoCalls(w.callbacks, id);
    NoCalls(w.delivered, id);
  }

  lemma FilingTends(w: World, v: World, target: Ulid, latest: M.Callback, id: Ulid, callback: Option<M.Callback>)
    requires DeliveryOk(w) && Tended(w, id, callback) && target !in w.live.inbox.byId && w.orphans == []
    requires target in v.live.inbox.byId && v.live.inbox.byId == w.live.inbox.byId[target := v.live.inbox.byId[target]]
    requires v.live.inbox.byId[target].status == Pending && v.live.deliver == w.live.deliver[target := latest]
    requires v.callbacks == w.callbacks && v.delivered == w.delivered && v.orphans == w.orphans
    ensures Tended(v, id, if target == id then Some(latest) else callback)
  {
    if target == id {
      Uncalled(w, id);
    }
  }

  lemma CrashTends(w: World, node: string, a: Action, id: Ulid)
    requires a.Crash? && Enabled(w, a)
    ensures Tended(Step(w, node, a), id, None)
  {
    hide M.Fold;
  }

  lemma StepTends(w: World, node: string, a: Action, id: Ulid, callback: Option<M.Callback>)
    requires Inv(node, w) && Enabled(w, a) && Tended(w, id, callback)
    ensures Tended(Step(w, node, a), id, Registered(w, a, id, callback))
  {
    hide Inv, Tended, SessionStep, MediationStep, IdsForward;
    InvDelivers(node, w);
    match a
    case StartSession(cmd, c) => SessionTends(w, node, cmd, c, id, callback);
    case ResumeSession(k, c) =>
      var v := w.(suspended := w.suspended[..k] + w.suspended[k + 1..]);
      SameTending(w, v, id, callback);
      SessionTends(v, node, S.ResumeCmd(w.suspended[k]), c, id, callback);
    case StartMediation(cmd, c) =>
      match cmd {
        case OpenCmd(_, _, _) => OpenTends(w, node, cmd, c, id, callback);
        case AnswerCmd(_, _, _) => AnswerTends(w, node, cmd, c, id, callback);
        case CancelCmd(_) => CancelTends(w, node, cmd, c, id, callback);
        case TimeoutCmd(_) => TimeoutTends(w, node, cmd, c, id, callback);
        case OrphanCmd(_) =>
      }
    case Deliver(j) => DeliverTends(w, node, j, id, callback);
    case Crash(_, _) => CrashTends(w, node, a, id);
    case SweepNext(c) => OrphanTends(w, node, c, id, callback);
  }

  lemma SessionTends(w: World, node: string, cmd: S.Command, c: nat, id: Ulid, callback: Option<M.Callback>)
    requires Tended(w, id, callback)
    ensures Tended(SessionStep(w, node, cmd, c), id, callback)
  {
    hide S.Segment, Tended;
    SameTending(w, SessionStep(w, node, cmd, c), id, callback);
  }

  lemma {:induction false} RunTends(node: string, worlds: seq<World>, actions: seq<Action>, i: nat, id: Ulid)
    requires IsRun(node, worlds, actions) && i < |worlds|
    ensures Tended(worlds[i], id, LastCallback(worlds, actions, i, id))
  {
    if i > 0 {
      hide Inv, Tended, Step, Enabled, Registered;
      RunTends(node, worlds, actions, i - 1, id);
      RunKeeps(node, worlds, actions, i - 1);
      StepTends(worlds[i - 1], node, actions[i - 1], id, LastCallback(worlds, actions, i - 1, id));
    }
  }

  /**
   Exactly one call, to the right callback, with the right answer: an interaction opened since the boot that is
   answered, or a permission timed out, has one call made or still to be made; it goes to the callback of the last
   opening or re-opening and carries the recorded answer, or the denial. Any other interaction has none.
   */
  lemma EveryAnswerIsDelivered(node: string, worlds: seq<World>, actions: seq<Action>, i: nat, id: Ulid)
    requires IsRun(node, worlds, actions) && i < |worlds| && LastCallback(worlds, actions, i, id).Some?
    ensures id in worlds[i].live.inbox.byId
    ensures var w := worlds[i];
            var x := w.live.inbox.byId[id];
            && Calls(w.callbacks, id) + Calls(w.delivered, id) ==
                 (if x.status == Answered || (x.status == TimedOut && x.kind == Permission) then 1 else 0)
            && forall d :: (d in w.callbacks || d in w.delivered) && d.id == id ==>
                 && LastCallback(worlds, actions, i, id) == Some(d.callback)
                 && (if x.status == Answered then x.answer == Some(d.answer) else d.answer == Answer(Some(false), "timed out"))
  {
    RunTends(node, worlds, actions, i, id);
    RunKeeps(node, worlds, actions, i);
    hide LastCallback;
    forall d | (d in worlds[i].callbacks || d in worlds[i].delivered) && d.id == id
      ensures Honest(worlds[i].live.inbox, d)
    {
      assert DeliveryOk(worlds[i]);
    }
  }
}
