/**
 Milestones follow moves: each recorded move that starts or ends a session is followed by one lifecycle event, which is
 issued or still to be issued by the suspended command; no lifecycle event comes without its move.
 */
module Milestones {
  import opened Envelope
  import opened NodeHost
  import S = Sessions
  import M = Mediation

  /** A move of the session that is announced as reaching `to`. */
  predicate Reaches(from: SessionState, to: SessionState) {
    if to == Running then from == Discovered || from == Starting
    else to == Completed || to == Failed || to == Stopped || to == Archived
  }

  predicate IsMove(e: Event, sid: Ulid, to: SessionState) {
    e.body.SessionStateChanged? && e.sessionId == Some(sid) && e.body.to == to && Reaches(e.body.from, to)
  }

  predicate IsMilestone(e: Event, sid: Ulid, to: SessionState) {
    e.body.SessionLifecycle? && e.sessionId == Some(sid) && e.body.entered == to
  }

  function Moves(log: seq<Event>, sid: Ulid, to: SessionState): nat {
    if log == [] then 0
    else Moves(log[..|log| - 1], sid, to) + if IsMove(log[|log| - 1], sid, to) then 1 else 0
  }

  function Announced(log: seq<Event>, sid: Ulid, to: SessionState): nat {
    if log == [] then 0
    else Announced(log[..|log| - 1], sid, to) + if IsMilestone(log[|log| - 1], sid, to) then 1 else 0
  }

  predicate WillAnnounce(t: S.Task, sid: Ulid, to: SessionState) {
    t.AwaitChanged? && t.sid == sid && t.to == to && Reaches(t.from, to)
  }

  /** Suspended commands that will announce it. */
  function Ahead(tasks: seq<S.Task>, sid: Ulid, to: SessionState): nat {
    if tasks == [] then 0
    else Ahead(tasks[..|tasks| - 1], sid, to) + if WillAnnounce(tasks[|tasks| - 1], sid, to) then 1 else 0
  }

  lemma {:induction false} AheadConcat(a: seq<S.Task>, b: seq<S.Task>, sid: Ulid, to: SessionState)
    ensures Ahead(a + b, sid, to) == Ahead(a, sid, to) + Ahead(b, sid, to)
  {
    if b == [] {
      assert a + b == a;
    } else {
      assert (a + b)[..|a + b| - 1] == a + b[..|b| - 1];
      AheadConcat(a, b[..|b| - 1], sid, to);
    }
  }

  lemma AheadWithout(tasks: seq<S.Task>, k: nat, sid: Ulid, to: SessionState)
    requires k < |tasks|
    ensures Ahead(tasks, sid, to) ==
              Ahead(tasks[..k] + tasks[k + 1..], sid, to) + if WillAnnounce(tasks[k], sid, to) then 1 else 0
  {
    assert tasks == (tasks[..k] + [tasks[k]]) + tasks[k + 1..];
    AheadConcat(tasks[..k] + [tasks[k]], tasks[k + 1..], sid, to);
    AheadConcat(tasks[..k], [tasks[k]], sid, to);
    AheadConcat(tasks[..k], tasks[k + 1..], sid, to);
    assert [tasks[k]][..0] == [];
  }

  lemma OneMore(log: seq<Event>, e: Event, sid: Ulid, to: SessionState)
    ensures Moves(log + [e], sid, to) == Moves(log, sid, to) + if IsMove(e, sid, to) then 1 else 0
    ensures Announced(log + [e], sid, to) == Announced(log, sid, to) + if IsMilestone(e, sid, to) then 1 else 0
  {
    assert (log + [e])[..|log|] == log;
  }

  /** In every front of the log there are at least as many moves as milestones. */
  ghost predicate Led(log: seq<Event>, sid: Ulid, to: SessionState) {
    forall k :: 0 <= k <= |log| ==> Announced(log[..k], sid, to) <= Moves(log[..k], sid, to)
  }

  lemma LedFurther(log: seq<Event>, e: Event, sid: Ulid, to: SessionState)
    requires Led(log, sid, to) && Announced(log + [e], sid, to) <= Moves(log + [e], sid, to)
    ensures Led(log + [e], sid, to)
  {
    hide Announced, Moves;
    var more := log + [e];
    forall k | 0 <= k <= |more| ensures Announced(more[..k], sid, to) <= Moves(more[..k], sid, to) {
      if k <= |log| {
        assert more[..k] == log[..k];
      } else {
        assert more[..k] == more;
      }
    }
  }

  lemma LedFront(log: seq<Event>, n: nat, sid: Ulid, to: SessionState)
    requires Led(log, sid, to) && n <= |log|
    ensures Led(log[..n], sid, to)
  {
    hide Announced, Moves;
    forall k | 0 <= k <= n ensures Announced(log[..n][..k], sid, to) <= Moves(log[..n][..k], sid, to) {
      assert log[..n][..k] == log[..k];
    }
  }

  /** No milestone without its move; and what is ahead does not exceed what is owed. */
  ghost predicate Kept(w: World, sid: Ulid, to: SessionState) {
    && Led(w.issued, sid, to)
    && Announced(w.issued, sid, to) + Ahead(w.suspended, sid, to) <= Moves(w.issued, sid, to)
  }

  /** What a session segment adds to both sides of the account. */
  lemma SegmentAccounts(c: S.Catalogue, node: string, cmd: S.Command, e: Event, sid: Ulid, to: SessionState)
    requires var o := S.Segment(c, node, cmd);
             o.issued.Some? && e.sessionId == o.issued.value.sessionId && e.body == o.issued.value.body
    ensures var o := S.Segment(c, node, cmd);
            && (IsMove(e, sid, to) <==> o.next.Some? && WillAnnounce(o.next.value, sid, to))
            && (IsMilestone(e, sid, to) <==> cmd.ResumeCmd? && WillAnnounce(cmd.task, sid, to))
  {
  }

  /** A segment that issues nothing schedules no announcement, and had none to make. */
  lemma SilentSegment(c: S.Catalogue, node: string, cmd: S.Command, sid: Ulid, to: SessionState)
    requires S.Segment(c, node, cmd).issued.None?
    ensures S.Segment(c, node, cmd).next.None? && !(cmd.ResumeCmd? && WillAnnounce(cmd.task, sid, to))
  {
  }

  /** The balance of the account: moves not announced and not about to be. */
  function Balance(w: World, sid: Ulid, to: SessionState): int {
    Moves(w.issued, sid, to) - Announced(w.issued, sid, to) - Ahead(w.suspended, sid, to)
  }

  lemma SessionBalances(w: World, node: string, cmd: S.Command, c: nat, sid: Ulid, to: SessionState)
    ensures Balance(SessionStep(w, node, cmd, c), sid, to) ==
              Balance(w, sid, to) - if cmd.ResumeCmd? && WillAnnounce(cmd.task, sid, to) then 1 else 0
    ensures SessionStep(w, node, cmd, c).issued == w.issued || |SessionStep(w, node, cmd, c).issued| == |w.issued| + 1
    ensures w.issued <= SessionStep(w, node, cmd, c).issued
  {
    hide S.Segment, WillAnnounce, IsMove, IsMilestone, Moves, Announced, Ahead;
    var o, v := S.Segment(w.catalogue, node, cmd), SessionStep(w, node, cmd, c);
    if o.issued.Some? {
      var e := Event(NextId(w.lastId, c), node, o.issued.value.sessionId, o.issued.value.body);
      SegmentAccounts(w.catalogue, node, cmd, e, sid, to);
      OneMore(w.issued, e, sid, to);
    } else {
      SilentSegment(w.catalogue, node, cmd, sid, to);
    }
    if o.next.Some? {
      OneTask(w.suspended, o.next.value, sid, to);
    }
  }

  lemma OneTask(tasks: seq<S.Task>, t: S.Task, sid: Ulid, to: SessionState)
    ensures Ahead(tasks + [t], sid, to) == Ahead(tasks, sid, to) + if WillAnnounce(t, sid, to) then 1 else 0
  {
    assert (tasks + [t])[..|tasks|] == tasks;
  }

  lemma MediationBalances(w: World, node: string, cmd: M.Command, c: nat, sid: Ulid, to: SessionState)
    ensures Balance(MediationStep(w, node, cmd, c), sid, to) == Balance(w, sid, to)
    ensures w.issued <= MediationStep(w, node, cmd, c).issued && |MediationStep(w, node, cmd, c).issued| <= |w.issued| + 1
  {
    hide M.Segment, Moves, Announced, Ahead;
    var o := M.Segment(w.live, node, cmd);
    if o.issued.Some? {
      MediationSpeaksOfInteractions(w.live, node, cmd);
      OneMore(w.issued, Event(NextId(w.lastId, c), node, o.issued.value.sessionId, o.issued.value.body), sid, to);
    }
  }

  lemma MediationSpeaksOfInteractions(l: M.Live, node: string, cmd: M.Command)
    requires M.Segment(l, node, cmd).issued.Some?
    ensures var b := M.Segment(l, node, cmd).issued.value.body; !b.SessionStateChanged? && !b.SessionLifecycle?
  {
  }

  lemma StillLed(w: World, v: World, sid: Ulid, to: SessionState)
    requires Kept(w, sid, to) && w.issued <= v.issued && |v.issued| <= |w.issued| + 1 && Balance(v, sid, to) >= 0
    ensures Kept(v, sid, to)
  {
    hide Announced, Moves, Ahead;
    if |v.issued| == |w.issued| {
      assert v.issued == w.issued;
    } else {
      assert v.issued == w.issued + [v.issued[|w.issued|]];
      LedFurther(w.issued, v.issued[|w.issued|], sid, to);
    }
  }

  lemma ResumeBalances(w: World, node: string, k: nat, c: nat, sid: Ulid, to: SessionState)
    requires Enabled(w, ResumeSession(k, c))
    ensures var v := Step(w, node, ResumeSession(k, c));
            Balance(v, sid, to) == Balance(w, sid, to) && w.issued <= v.issued && |v.issued| <= |w.issued| + 1
  {
    hide SessionStep, Moves, Announced, Ahead, WillAnnounce;
    var u := w.(suspended := w.suspended[..k] + w.suspended[k + 1..]);
    AheadWithout(w.suspended, k, sid, to);
    SessionBalances(u, node, S.ResumeCmd(w.suspended[k]), c, sid, to);
  }

  /** Every step but a crash balances. */
  lemma StepBalances(w: World, node: string, a: Action, sid: Ulid, to: SessionState)
    requires Enabled(w, a) && !a.Crash?
    ensures var v := Step(w, node, a);
            Balance(v, sid, to) == Balance(w, sid, to) && w.issued <= v.issued && |v.issued| <= |w.issued| + 1
  {
    hide SessionStep, MediationStep, Moves, Announced, Ahead, WillAnnounce;
    match a
    case StartSession(cmd, c) => SessionBalances(w, node, cmd, c, sid, to);
    case ResumeSession(k, c) => ResumeBalances(w, node, k, c, sid, to);
    case StartMediation(cmd, c) => MediationBalances(w, node, cmd, c, sid, to);
    case Deliver(_) =>
    case SweepNext(c) =>
      MediationBalances(w.(orphans := w.orphans[1..]), node, M.OrphanCmd(w.orphans[0]), c, sid, to);
  }

  lemma CrashKeeps(w: World, node: string, a: Action, sid: Ulid, to: SessionState)
    requires Kept(w, sid, to) && a.Crash? && Enabled(w, a)
    ensures Kept(Step(w, node, a), sid, to)
  {
    var v := Step(w, node, a);
    LedFront(w.issued, a.kept, sid, to);
    hide Moves, Announced, S.Fold, M.Fold;
    assert v.issued[..|v.issued|] == v.issued;
  }

  lemma StartsKept(sid: Ulid, to: SessionState)
    ensures Kept(INITIAL, sid, to) && Balance(INITIAL, sid, to) == 0
  {
  }

  lemma {:induction false} RunKeepsAccount(node: string, worlds: seq<World>, actions: seq<Action>, i: nat,
                                           sid: Ulid, to: SessionState)
    requires IsRun(node, worlds, actions) && i < |worlds|
    ensures Kept(worlds[i], sid, to)
    ensures (forall j :: 0 <= j < i ==> !actions[j].Crash?) ==> Balance(worlds[i], sid, to) == 0
  {
    hide Step, Enabled, Kept, Balance;
    if i == 0 {
      StartsKept(sid, to);
    } else {
      RunKeepsAccount(node, worlds, actions, i - 1, sid, to);
      if actions[i - 1].Crash? {
        CrashKeeps(worlds[i - 1], node, actions[i - 1], sid, to);
      } else {
        StepBalances(worlds[i - 1], node, actions[i - 1], sid, to);
        KeptBalance(worlds[i - 1], worlds[i], sid, to);
      }
    }
  }

  lemma KeptBalance(w: World, v: World, sid: Ulid, to: SessionState)
    requires Kept(w, sid, to) && Balance(v, sid, to) == Balance(w, sid, to)
    requires w.issued <= v.issued && |v.issued| <= |w.issued| + 1
    ensures Kept(v, sid, to)
  {
    StillLed(w, v, sid, to);
  }

  /**
   Milestones follow moves, in every interleaving: at any point of any run there are no more milestones of a session
   than moves that deserve them, counting those that suspended commands will still issue; and as long as the process
   has not crashed each such move has exactly one, issued or still to come.
   */
  lemma MilestonesFollowMoves(node: string, worlds: seq<World>, actions: seq<Action>, i: nat, sid: Ulid, to: SessionState)
    requires IsRun(node, worlds, actions) && i < |worlds|
    ensures var w := worlds[i];
            && Announced(w.issued, sid, to) + Ahead(w.suspended, sid, to) <= Moves(w.issued, sid, to)
            && ((forall j :: 0 <= j < i ==> !actions[j].Crash?) ==>
                  Announced(w.issued, sid, to) + Ahead(w.suspended, sid, to) == Moves(w.issued, sid, to))
  {
    hide Announced, Ahead, Moves;
    RunKeepsAccount(node, worlds, actions, i, sid, to);
  }
}
