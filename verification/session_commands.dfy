/**
 Session commands from start to end: what a command that nothing interleaves with leaves in the catalogue, and
 exactly which events it issues, in order.
 */
module SessionCommands {
  import opened Envelope
  import opened Sessions

  // ------------------------------------------------------ the state machine

  /** The transition table read by column: from where a state can be entered. */
  lemma EnteredFrom(from: SessionState, to: SessionState)
    ensures CanTransition(from, to) <==>
              match to
              case Discovered => false
              case Starting => from == Discovered
              case Running => from != Running && from != Archived
              case WaitingOnUser => from == Discovered || from == Running
              case Completed => from == Discovered || from == Running || from == WaitingOnUser
              case Failed => from == Discovered || from == Starting || from == Running || from == WaitingOnUser
              case Stopped => from == Discovered || from == Starting || from == Running || from == WaitingOnUser
              case Archived => from == Completed || from == Failed || from == Stopped
  {
  }

  // -------------------------------------------------------- to the very end

  /** How many awaits a suspended command may still reach. */
  function Awaits(next: Option<Task>): nat {
    if next.None? then 0 else if next.value.AwaitChanged? then 1 else 2
  }

  /** A segment and everything after its await, when nothing else runs in between. */
  function Undisturbed(o: Outcome): (Catalogue, seq<Draft>)
    decreases Awaits(o.next)
  {
    var here := if o.issued.Some? then [o.issued.value] else [];
    if o.next.None? then (o.catalogue, here)
    else
      var (c, later) := Undisturbed(Resume(o.catalogue, o.next.value));
      (c, here + later)
  }

  lemma Ends(o: Outcome)
    requires o.next.None?
    ensures Undisturbed(o) == (o.catalogue, if o.issued.Some? then [o.issued.value] else [])
  {
  }

  lemma GoesOn(o: Outcome, c: Catalogue, later: seq<Draft>)
    requires o.next.Some? && Undisturbed(Resume(o.catalogue, o.next.value)) == (c, later)
    ensures Undisturbed(o) == (c, (if o.issued.Some? then [o.issued.value] else []) + later)
  {
  }

  /** The milestone that a move announces besides itself. */
  function Milestones(sid: Ulid, from: SessionState, to: SessionState): seq<Draft> {
    if (to == Running && (from == Discovered || from == Starting))
       || to == Completed || to == Failed || to == Stopped || to == Archived
    then [Draft(Some(sid), SessionLifecycle(to))] else []
  }

  /** A legal move, made and announced. */
  ghost predicate Moved(c: Catalogue, sid: Ulid, to: SessionState, d: Catalogue, events: seq<Draft>)
    requires sid in c.byId
  {
    var s := c.byId[sid];
    && d == c.(byId := c.byId[sid := s.(state := to, ended := to in {Completed, Failed, Stopped, Archived})])
    && events == [Draft(Some(sid), SessionStateChanged(s.state, to))] + Milestones(sid, s.state, to)
  }

  lemma MilestoneIssued(c: Catalogue, sid: Ulid, from: SessionState, to: SessionState)
    ensures Undisturbed(Resume(c, AwaitChanged(sid, from, to))) == (c, Milestones(sid, from, to))
  {
    Ends(Resume(c, AwaitChanged(sid, from, to)));
  }

  /** Observing a state: a legal move is made and announced, the same state is ignored, any other is only reported. */
  lemma ObservationEnds(c: Catalogue, node: string, sid: Ulid, to: SessionState)
    requires sid in c.byId
    ensures var s := c.byId[sid];
            var (d, events) := Undisturbed(Segment(c, node, ObserveCmd(sid, to)));
            if s.state == to then d == c && events == []
            else if CanTransition(s.state, to) then Moved(c, sid, to, d, events)
            else d == c && events == [Draft(Some(sid), AdapterError("illegal_transition"))]
  {
    hide CanTransition, IsEnd;
    var o := Segment(c, node, ObserveCmd(sid, to));
    if o.next.Some? {
      EndStates(to);
      MilestoneIssued(o.catalogue, sid, c.byId[sid].state, to);
      GoesOn(o, o.catalogue, Milestones(sid, c.byId[sid].state, to));
    } else {
      Ends(o);
    }
  }

  lemma EndStates(s: SessionState)
    ensures IsEnd(s) <==> s in {Completed, Failed, Stopped, Archived}
  {
  }

  lemma ObservingStrangerEnds(c: Catalogue, node: string, sid: Ulid, to: SessionState)
    requires sid !in c.byId
    ensures Undisturbed(Segment(c, node, ObserveCmd(sid, to))) == (c, [])
  {
    Ends(Segment(c, node, ObserveCmd(sid, to)));
  }

  // -------------------------------------------------------------- discovery

  /** Where a hint takes a known session: it never un-parks, and never makes an illegal move. */
  function Hinted(s: SessionState, hint: SessionState): SessionState {
    if s != WaitingOnUser && CanTransition(s, hint) then hint else s
  }

  lemma HintEnds(c: Catalogue, sid: Ulid, hint: SessionState)
    requires sid in c.byId
    ensures var s := c.byId[sid].state;
            var (d, events) := Undisturbed(FollowHint(c, sid, hint));
            if Hinted(s, hint) == s then d == c && events == [] else Moved(c, sid, hint, d, events)
  {
    hide IsEnd;
    var o := FollowHint(c, sid, hint);
    EnteredFrom(c.byId[sid].state, hint);
    if o.next.Some? {
      EndStates(hint);
      MilestoneIssued(o.catalogue, sid, c.byId[sid].state, hint);
      GoesOn(o, o.catalogue, Milestones(sid, c.byId[sid].state, hint));
    } else {
      Ends(o);
    }
  }

  /** What discovery's descriptive fields make of a known session: what it does not say stays. */
  ghost predicate Described(s: Session, d: Descriptor, t: Session) {
    && t.title == (if d.title == "" then s.title else d.title)
    && t.model == (if d.model == None || d.model == Some("") then s.model else d.model)
    && (forall k :: k in t.metadata <==> k in s.metadata || k in d.metadata)
    && (forall k :: k in d.metadata ==> t.metadata[k] == d.metadata[k])
    && (forall k :: k in s.metadata && k !in d.metadata ==> t.metadata[k] == s.metadata[k])
    && t == s.(title := t.title, model := t.model, metadata := t.metadata)
  }

  /**
   Discovery of a known session, undisturbed: the session is described anew, an update is issued exactly when that
   changed it, and then the hint is followed unless the session is parked or the move would be illegal.
   */
  lemma KnownDiscoveryEnds(c: Catalogue, node: string, adapter: string, d: Descriptor, freshId: Ulid)
    returns (t: Session)
    requires Resolve(c, (adapter, d.nativeId)).Some?
    ensures var sid := c.byNative[(adapter, d.nativeId)];
            var s := c.byId[sid];
            var (e, events) := Undisturbed(Segment(c, node, UpsertCmd(adapter, d, freshId)));
            && Described(s, d, t)
            && e.byNative == c.byNative
            && sid in e.byId && e.byId == c.byId[sid := e.byId[sid]]
            && e.byId[sid] == t.(state := Hinted(s.state, d.state), ended := e.byId[sid].ended)
            && e.byId[sid].ended == (if Hinted(s.state, d.state) == s.state then s.ended
                                     else d.state in {Completed, Failed, Stopped, Archived})
            && events == (if t == s then [] else [Draft(Some(sid), SessionUpdated(t))]) +
                         (if Hinted(s.state, d.state) == s.state then []
                          else [Draft(Some(sid), SessionStateChanged(s.state, d.state))] +
                               Milestones(sid, s.state, d.state))
  {
    hide CanTransition, IsEnd, FollowHint;
    var sid := c.byNative[(adapter, d.nativeId)];
    var s := c.byId[sid];
    var o := Segment(c, node, UpsertCmd(adapter, d, freshId));
    t := Refreshed(s, d);
    var (e, events) := Undisturbed(FollowHint(Replace(c, sid, t), sid, d.state));
    HintEnds(Replace(c, sid, t), sid, d.state);
    if t != s {
      GoesOn(o, e, events);
    } else {
      assert c.byId[sid := s] == c.byId;
      assert Replace(c, sid, t) == c;
      assert [] + events == events;
    }
  }

  /** A first discovery, undisturbed: the session exists with what was found out, and in the state of the hint if legal. */
  lemma FirstDiscoveryEnds(c: Catalogue, node: string, adapter: string, d: Descriptor, id: Ulid)
    requires Resolve(c, (adapter, d.nativeId)).None?
    ensures var (e, events) := Undisturbed(Segment(c, node, UpsertCmd(adapter, d, id)));
            var s := Session(id, adapter, d.nativeId, node, d.title, d.project, d.model, "", Discovered, false, d.metadata);
            && e.byNative == c.byNative[(adapter, d.nativeId) := id]
            && id in e.byId && e.byId == c.byId[id := e.byId[id]]
            && e.byId[id] == s.(state := if CanTransition(Discovered, d.state) then d.state else Discovered,
                                ended := CanTransition(Discovered, d.state) && d.state in {Completed, Failed, Stopped, Archived})
            && events == [Draft(Some(id), SessionDiscovered(s))] +
                         (if d.state == Discovered then []
                          else if CanTransition(Discovered, d.state) then
                            [Draft(Some(id), SessionStateChanged(Discovered, d.state))] + Milestones(id, Discovered, d.state)
                          else [Draft(Some(id), AdapterError("illegal_transition"))])
  {
    hide IsEnd;
    var o := Segment(c, node, UpsertCmd(adapter, d, id));
    EnteredFrom(Discovered, d.state);
    if d.state == Discovered {
      Ends(Resume(o.catalogue, o.next.value));
      GoesOn(o, o.catalogue, []);
    } else {
      ObservationEnds(o.catalogue, node, id, d.state);
      var (e, events) := Undisturbed(Resume(o.catalogue, o.next.value));
      GoesOn(o, e, events);
    }
  }

  // ---------------------------------------------------------- descriptive

  /** A model given after a control call is recorded, and announced exactly when it is another one. */
  lemma ModelRefreshEnds(c: Catalogue, node: string, sid: Ulid, model: string)
    requires sid in c.byId
    ensures var t := c.byId[sid].(model := Some(model));
            Undisturbed(Segment(c, node, ModelCmd(sid, model))) ==
              if c.byId[sid].model == Some(model) then (c, [])
              else (c.(byId := c.byId[sid := t]), [Draft(Some(sid), SessionUpdated(t))])
  {
    Ends(Segment(c, node, ModelCmd(sid, model)));
  }

  lemma ModeRefreshEnds(c: Catalogue, node: string, sid: Ulid, mode: string)
    requires sid in c.byId
    ensures var t := c.byId[sid].(permissionMode := mode);
            Undisturbed(Segment(c, node, ModeCmd(sid, mode))) ==
              if c.byId[sid].permissionMode == mode then (c, [])
              else (c.(byId := c.byId[sid := t]), [Draft(Some(sid), SessionUpdated(t))])
  {
    Ends(Segment(c, node, ModeCmd(sid, mode)));
  }

  lemma RefreshingStrangerEnds(c: Catalogue, node: string, sid: Ulid, text: string)
    requires sid !in c.byId
    ensures Undisturbed(Segment(c, node, ModelCmd(sid, text))) == (c, [])
    ensures Undisturbed(Segment(c, node, ModeCmd(sid, text))) == (c, [])
  {
    Ends(Segment(c, node, ModelCmd(sid, text)));
    Ends(Segment(c, node, ModeCmd(sid, text)));
  }

  // ----------------------------------------------------------------- fold

  /** The fold writes what the events say: a discovery replaces, a move moves, an update describes and moves nothing. */
  lemma FoldWrites(c: Catalogue, e: Event)
    ensures e.body.SessionDiscovered? ==>
              var s := e.body.session;
              Apply(c, e) == Catalogue(c.byId[s.id := s], c.byNative[(s.adapter, s.nativeId) := s.id])
    ensures !e.body.SessionDiscovered? && (e.sessionId.None? || e.sessionId.value !in c.byId) ==> Apply(c, e) == c
    ensures e.body.SessionStateChanged? && e.sessionId.Some? && e.sessionId.value in c.byId ==>
              var sid, to := e.sessionId.value, e.body.to;
              Apply(c, e) == c.(byId := c.byId[
                sid := c.byId[sid].(state := to, ended := to in {Completed, Failed, Stopped, Archived})])
    ensures e.body.SessionUpdated? && e.sessionId.Some? && e.sessionId.value in c.byId ==>
              var sid, t := e.sessionId.value, e.body.snapshot;
              Apply(c, e) == c.(byId := c.byId[
                sid := c.byId[sid].(title := t.title, project := t.project, model := t.model,
                                    permissionMode := t.permissionMode, metadata := t.metadata)])
    ensures !e.body.SessionDiscovered? && !e.body.SessionStateChanged? && !e.body.SessionUpdated? ==> Apply(c, e) == c
  {
  }

  /** The names under which subscribers see the milestones. */
  lemma MilestoneNames()
    ensures TypeOf(SessionLifecycle(Running)) == "session.started"
    ensures TypeOf(SessionLifecycle(Completed)) == "session.completed" && TypeOf(SessionLifecycle(Failed)) == "session.failed"
    ensures TypeOf(SessionLifecycle(Stopped)) == "session.stopped" && TypeOf(SessionLifecycle(Archived)) == "session.archived"
  {
  }
}
