/**
 The session catalogue: its commands split at their awaits into atomic segments, and the fold that
 rebuilds it. A segment changes the catalogue and issues at most one event before it suspends.
 */
module Sessions {
  import opened Envelope
  import opened EventLog
  import opened Maps

  datatype Catalogue = Catalogue(byId: map<Ulid, Session>, byNative: map<NativeKey, Ulid>)

  const EMPTY := Catalogue(map[], map[])

  // -------------------------------------------------------------------- fold

  function SetState(s: Session, to: SessionState): Session {
    s.(state := to, ended := IsEnd(to))
  }

  /** Descriptive fields only: state and end marker stay with the session. */
  function Describe(s: Session, snapshot: Session): Session {
    s.(title := snapshot.title, project := snapshot.project, model := snapshot.model,
       permissionMode := snapshot.permissionMode, metadata := snapshot.metadata)
  }

  predicate Known(c: Catalogue, sid: Option<Ulid>) {
    sid.Some? && sid.value in c.byId
  }

  function Replace(c: Catalogue, sid: Ulid, s: Session): Catalogue {
    c.(byId := c.byId[sid := s])
  }

  function Apply(c: Catalogue, e: Event): Catalogue {
    match e.body
    case SessionDiscovered(s) =>
      Catalogue(c.byId[s.id := s], c.byNative[SessionKey(s) := s.id])
    case SessionStateChanged(_, to) =>
      if Known(c, e.sessionId) then Replace(c, e.sessionId.value, SetState(c.byId[e.sessionId.value], to)) else c
    case SessionUpdated(snapshot) =>
      if Known(c, e.sessionId) then Replace(c, e.sessionId.value, Describe(c.byId[e.sessionId.value], snapshot)) else c
    case _ => c
  }

  function Fold(c: Catalogue, log: seq<Event>): Catalogue {
    if log == [] then c else Apply(Fold(c, log[..|log| - 1]), log[|log| - 1])
  }

  lemma FoldStep(c: Catalogue, log: seq<Event>, e: Event)
    ensures Fold(c, log + [e]) == Apply(Fold(c, log), e)
  {
    hide Apply;
    assert (log + [e])[..|log|] == log;
  }

  lemma {:induction false} FoldConcat(c: Catalogue, a: seq<Event>, b: seq<Event>)
    ensures Fold(c, a + b) == Fold(Fold(c, a), b)
  {
    hide Apply;
    if b == [] {
      assert a + b == a;
    } else {
      var n := |b| - 1;
      FoldConcat(c, a, b[..n]);
      assert a + b == (a + b[..n]) + [b[n]];
      FoldStep(c, a + b[..n], b[n]);
    }
  }

  // ---------------------------------------------------------------- commands

  datatype Descriptor = Descriptor(
    nativeId: string, title: string, project: string, model: Option<string>,
    state: SessionState, metadata: map<string, string>)

  /** An event before it has an id: what a segment hands to `new_event`. */
  datatype Draft = Draft(sessionId: Option<Ulid>, body: Body)

  datatype Refusal = UnknownSession | IllegalTransition(from: SessionState, to: SessionState)

  /** A command suspended at a publish, and what it still has to do. */
  datatype Task =
    | AwaitUpdated(sid: Ulid, hinted: SessionState)
    | AwaitDiscovered(sid: Ulid, hinted: SessionState)
    | AwaitChanged(sid: Ulid, from: SessionState, to: SessionState)

  datatype Outcome = Outcome(catalogue: Catalogue, issued: Option<Draft>, next: Option<Task>)

  function Idle(c: Catalogue): Outcome { Outcome(c, None, None) }

  function Resolve(c: Catalogue, key: NativeKey): Option<Session> {
    if key in c.byNative && c.byNative[key] in c.byId then Some(c.byId[c.byNative[key]]) else None
  }

  predicate Given(m: Option<string>) { m.Some? && m.value != "" }

  /** Discovery's refresh of a known session: empty hints never erase a field. */
  function Refreshed(s: Session, d: Descriptor): Session {
    s.(title := if d.title != "" then d.title else s.title,
       model := if Given(d.model) then d.model else s.model,
       metadata := s.metadata + d.metadata)
  }

  function NewSession(id: Ulid, node: string, adapter: string, d: Descriptor): Session {
    Session(id, adapter, d.nativeId, node, d.title, d.project, d.model, "", Discovered, false, d.metadata)
  }

  function Upsert(c: Catalogue, node: string, adapter: string, d: Descriptor, freshId: Ulid): Outcome {
    match Resolve(c, (adapter, d.nativeId))
    case Some(s) =>
      var sid := c.byNative[(adapter, d.nativeId)];
      var refreshed := Refreshed(s, d);
      if refreshed != s then
        Outcome(Replace(c, sid, refreshed), Some(Draft(Some(sid), SessionUpdated(refreshed))),
                Some(AwaitUpdated(sid, d.state)))
      else FollowHint(c, sid, d.state)
    case None =>
      var s := NewSession(freshId, node, adapter, d);
      Outcome(Catalogue(c.byId[freshId := s], c.byNative[SessionKey(s) := freshId]),
              Some(Draft(Some(freshId), SessionDiscovered(s))), Some(AwaitDiscovered(freshId, d.state)))
  }

  /** Discovery's state hint for a known session: ignored while parked or when not legal. */
  function FollowHint(c: Catalogue, sid: Ulid, hinted: SessionState): Outcome {
    if sid in c.byId && c.byId[sid].state != hinted && !c.byId[sid].state.WaitingOnUser?
       && CanTransition(c.byId[sid].state, hinted)
    then Observe(c, sid, hinted) else Idle(c)
  }

  function Observe(c: Catalogue, sid: Ulid, to: SessionState): Outcome {
    if sid !in c.byId || c.byId[sid].state == to then Idle(c)
    else
      var from := c.byId[sid].state;
      if CanTransition(from, to) then
        Outcome(Replace(c, sid, SetState(c.byId[sid], to)),
                Some(Draft(Some(sid), SessionStateChanged(from, to))), Some(AwaitChanged(sid, from, to)))
      else Outcome(c, Some(Draft(Some(sid), AdapterError("illegal_transition"))), None)
  }

  function RefreshModel(c: Catalogue, sid: Ulid, model: string): Outcome {
    if sid in c.byId && c.byId[sid].model != Some(model) then Announce(c, c.byId[sid].(model := Some(model)), sid)
    else Idle(c)
  }

  function RefreshPermissionMode(c: Catalogue, sid: Ulid, mode: string): Outcome {
    if sid in c.byId && c.byId[sid].permissionMode != mode then
      Announce(c, c.byId[sid].(permissionMode := mode), sid)
    else Idle(c)
  }

  function Announce(c: Catalogue, s: Session, sid: Ulid): Outcome {
    Outcome(Replace(c, sid, s), Some(Draft(Some(sid), SessionUpdated(s))), None)
  }

  function LifecycleFor(from: SessionState, to: SessionState): Option<SessionState> {
    if to == Running then if from in {Discovered, Starting} then Some(Running) else None
    else if IsEnd(to) then Some(to) else None
  }

  /** What a suspended command does when its publish returns. */
  function Resume(c: Catalogue, t: Task): Outcome {
    match t
    case AwaitUpdated(sid, hinted) => FollowHint(c, sid, hinted)
    case AwaitDiscovered(sid, hinted) => if hinted.Discovered? then Idle(c) else Observe(c, sid, hinted)
    case AwaitChanged(sid, from, to) =>
      match LifecycleFor(from, to)
      case Some(s) => Outcome(c, Some(Draft(Some(sid), SessionLifecycle(s))), None)
      case None => Idle(c)
  }

  datatype Command =
    | UpsertCmd(adapter: string, desc: Descriptor, freshId: Ulid)
    | ObserveCmd(sid: Ulid, to: SessionState)
    | ModelCmd(sid: Ulid, model: string)
    | ModeCmd(sid: Ulid, mode: string)
    | ResumeCmd(task: Task)

  function Segment(c: Catalogue, node: string, cmd: Command): Outcome {
    match cmd
    case UpsertCmd(adapter, d, freshId) => Upsert(c, node, adapter, d, freshId)
    case ObserveCmd(sid, to) => Observe(c, sid, to)
    case ModelCmd(sid, model) => RefreshModel(c, sid, model)
    case ModeCmd(sid, mode) => RefreshPermissionMode(c, sid, mode)
    case ResumeCmd(t) => Resume(c, t)
  }

  /** Folding the event a segment issues (if any) is exactly the segment's change. */
  lemma SegmentIsFold(c: Catalogue, node: string, cmd: Command, e: Event)
    requires var o := Segment(c, node, cmd);
             o.issued.Some? ==> o.issued.value == Draft(e.sessionId, e.body)
    ensures var o := Segment(c, node, cmd);
            o.catalogue == if o.issued.Some? then Apply(c, e) else c
  {
  }

  // ---------------------------------------------------- discovery's promises

  /** Discovery of a known session never un-parks it, ends in an error, or makes an illegal move. */
  lemma KnownDiscoveryIsWeak(c: Catalogue, node: string, adapter: string, d: Descriptor, freshId: Ulid)
    requires Resolve(c, (adapter, d.nativeId)).Some?
    ensures var sid := c.byNative[(adapter, d.nativeId)];
            forall o :: o == Upsert(c, node, adapter, d, freshId) || o == Resume(c, AwaitUpdated(sid, d.state)) ==>
              && sid in o.catalogue.byId
              && (o.issued.Some? ==> !o.issued.value.body.AdapterError?)
              && var s, t := c.byId[sid].state, o.catalogue.byId[sid].state;
                 (s == WaitingOnUser ==> t == WaitingOnUser) && (t == s || CanTransition(s, t))
  {
  }

  /**
   The hint of a session discovered just now is followed without those guards, after an await:
   it un-parks, or is refused, exactly when the session has moved meanwhile so that it must.
   */
  lemma FreshDiscoveryIsStrong(c: Catalogue, sid: Ulid, hinted: SessionState)
    requires sid in c.byId
    ensures var o := Resume(c, AwaitDiscovered(sid, hinted));
            var s := c.byId[sid].state;
            && (o.issued == Some(Draft(Some(sid), AdapterError("illegal_transition"))) <==>
                  hinted != Discovered && hinted != s && !CanTransition(s, hinted))
            && (s == WaitingOnUser && o.catalogue.byId[sid].state != WaitingOnUser <==>
                  s == WaitingOnUser && hinted in {Running, Completed, Failed, Stopped})
  {
  }

  /** Another watcher parks a session between its discovery and its hint: the hint un-parks it. */
  lemma FreshDiscoveryCanUnpark(id: Ulid, d: Descriptor)
    requires d.state == Running
    ensures var created := Upsert(EMPTY, "local", "claude", d, id);
            var parked := Observe(created.catalogue, id, WaitingOnUser);
            var resumed := Resume(parked.catalogue, created.next.value);
            && created.next.Some? && parked.catalogue.byId[id].state == WaitingOnUser
            && resumed.catalogue.byId[id].state == Running
  {
  }

  // ------------------------------------------------------------ lawful logs

  /** What one session registry may add to its own log. */
  ghost predicate Lawful(c: Catalogue, e: Event) {
    match e.body
    case SessionDiscovered(s) =>
      e.sessionId == Some(s.id) && s.id !in c.byId && s.state == Discovered && !s.ended
    case SessionStateChanged(from, to) =>
      Known(c, e.sessionId) && c.byId[e.sessionId.value].state == from && CanTransition(from, to)
    case _ => true
  }

  ghost predicate LawfulLog(log: seq<Event>) {
    log != [] ==>
      LawfulLog(log[..|log| - 1]) && Lawful(Fold(EMPTY, log[..|log| - 1]), log[|log| - 1])
  }

  /** Each segment only ever issues what is lawful, so no interleaving of them can do otherwise. */
  lemma SegmentIsLawful(c: Catalogue, node: string, cmd: Command, e: Event)
    requires cmd.UpsertCmd? ==> cmd.freshId !in c.byId
    requires Segment(c, node, cmd).issued == Some(Draft(e.sessionId, e.body))
    ensures Lawful(c, e)
  {
  }

  type Move = (SessionState, SessionState)

  /** The recorded transitions of one session, in log order. */
  function Moves(log: seq<Event>, sid: Ulid): seq<Move> {
    if log == [] then []
    else
      var e := log[|log| - 1];
      var before := Moves(log[..|log| - 1], sid);
      if e.body.SessionStateChanged? && e.sessionId == Some(sid) then before + [(e.body.from, e.body.to)]
      else before
  }

  /** A contiguous walk through the state machine that starts where sessions start. */
  ghost predicate LegalPath(moves: seq<Move>) {
    && (moves != [] ==> moves[0].0 == Discovered)
    && (forall i :: 0 <= i < |moves| ==> CanTransition(moves[i].0, moves[i].1))
    && (forall i :: 0 < i < |moves| ==> moves[i - 1].1 == moves[i].0)
  }

  function EndOf(moves: seq<Move>): SessionState {
    if moves == [] then Discovered else moves[|moves| - 1].1
  }

  /** The catalogue's session stands where its recorded transitions end. */
  ghost predicate Tracks(c: Catalogue, sid: Ulid, moves: seq<Move>) {
    && LegalPath(moves)
    && if sid in c.byId then c.byId[sid].state == EndOf(moves) && c.byId[sid].ended == IsEnd(c.byId[sid].state)
       else moves == []
  }

  lemma PathExtends(moves: seq<Move>, to: SessionState)
    requires LegalPath(moves) && CanTransition(EndOf(moves), to)
    ensures LegalPath(moves + [(EndOf(moves), to)]) && EndOf(moves + [(EndOf(moves), to)]) == to
  {
    hide CanTransition;
  }

  lemma TrackStep(c: Catalogue, e: Event, sid: Ulid, moves: seq<Move>)
    requires Tracks(c, sid, moves) && Lawful(c, e)
    ensures Tracks(Apply(c, e), sid, if e.body.SessionStateChanged? && e.sessionId == Some(sid)
                                     then moves + [(e.body.from, e.body.to)] else moves)
  {
    hide LegalPath, CanTransition, SessionKey, IsEnd;
    if e.body.SessionStateChanged? && e.sessionId == Some(sid) {
      PathExtends(moves, e.body.to);
    } else if e.body.SessionDiscovered? {
      assert !IsEnd(Discovered) by { NotEnded(); }
    }
  }

  lemma NotEnded()
    ensures !IsEnd(Discovered)
  {
  }

  /** Every history is a legal path that ends in the catalogue's state, ended exactly in end states. */
  lemma {:induction false} HistoryIsLegal(log: seq<Event>, sid: Ulid)
    requires LawfulLog(log)
    ensures LegalPath(Moves(log, sid))
    ensures var c := Fold(EMPTY, log);
            if sid in c.byId then c.byId[sid].state == EndOf(Moves(log, sid)) && c.byId[sid].ended == IsEnd(c.byId[sid].state)
            else Moves(log, sid) == []
  {
    hide LegalPath, Lawful, IsEnd, EndOf;
    HistoryTracks(log, sid);
  }

  lemma {:induction false} HistoryTracks(log: seq<Event>, sid: Ulid)
    requires LawfulLog(log)
    ensures Tracks(Fold(EMPTY, log), sid, Moves(log, sid))
  {
    if log != [] {
      hide Tracks, Lawful, Apply;
      var before := log[..|log| - 1];
      HistoryTracks(before, sid);
      TrackStep(Fold(EMPTY, before), log[|log| - 1], sid, Moves(before, sid));
    }
  }

  /** A move that another one follows did not lead into `archived`. */
  lemma ArchivedIsAbsorbing(log: seq<Event>, sid: Ulid, i: nat)
    requires LawfulLog(log) && i + 1 < |Moves(log, sid)|
    ensures Moves(log, sid)[i].1 != Archived
  {
    HistoryIsLegal(log, sid);
    var moves := Moves(log, sid);
    var next := moves[i + 1];
    assert moves[i + 1 - 1].1 == next.0;
  }

  lemma {:induction false} LawfulPrefix(log: seq<Event>, k: nat)
    requires LawfulLog(log) && k <= |log|
    ensures LawfulLog(log[..k])
  {
    if k < |log| {
      LawfulPrefix(log[..|log| - 1], k);
      assert log[..|log| - 1][..k] == log[..k];
    } else {
      assert log[..k] == log;
    }
  }

  /** A log that lost one event in the middle need not be lawful: the recorder's order matters. */
  lemma LostMiddleBreaksHistory(s: Session)
    requires s.state == Discovered && !s.ended
    ensures var found := Event(1, "n", Some(s.id), SessionDiscovered(s));
            var ran := Event(2, "n", Some(s.id), SessionStateChanged(Discovered, Running));
            var done := Event(3, "n", Some(s.id), SessionStateChanged(Running, Completed));
            LegalPath(Moves([found, ran, done], s.id)) && !LegalPath(Moves([found, done], s.id))
  {
    var found := Event(1, "n", Some(s.id), SessionDiscovered(s));
    var ran := Event(2, "n", Some(s.id), SessionStateChanged(Discovered, Running));
    var done := Event(3, "n", Some(s.id), SessionStateChanged(Running, Completed));
    assert [found, ran, done][..2] == [found, ran] && [found, ran][..1] == [found] && [found][..0] == [];
    assert [found, done][..1] == [found];
    assert Moves([found], s.id) == [];
    assert Moves([found, ran], s.id) == [(Discovered, Running)];
    assert Moves([found, ran, done], s.id) == [(Discovered, Running), (Running, Completed)];
    assert Moves([found, done], s.id) == [(Running, Completed)];
  }

  // ----------------------------------------------------------- suffix replay

  /** `x` and `y` differ at most where `e` writes. */
  ghost predicate SameBut(e: Event, x: Catalogue, y: Catalogue) {
    match e.body
    case SessionDiscovered(s) =>
      AgreeOff(x.byId, y.byId, s.id) && AgreeOff(x.byNative, y.byNative, SessionKey(s))
    case SessionStateChanged(_, to) =>
      x == y ||
      (Known(x, e.sessionId) && Known(y, e.sessionId) && x.byNative == y.byNative
       && AgreeOff(x.byId, y.byId, e.sessionId.value)
       && SetState(x.byId[e.sessionId.value], to) == SetState(y.byId[e.sessionId.value], to))
    case SessionUpdated(snapshot) =>
      x == y ||
      (Known(x, e.sessionId) && Known(y, e.sessionId) && x.byNative == y.byNative
       && AgreeOff(x.byId, y.byId, e.sessionId.value)
       && Describe(x.byId[e.sessionId.value], snapshot) == Describe(y.byId[e.sessionId.value], snapshot))
    case _ => x == y
  }

  lemma SameButSettles(e: Event, x: Catalogue, y: Catalogue)
    requires SameBut(e, x, y)
    ensures Apply(x, e) == Apply(y, e)
  {
    hide IsEnd, SessionKey;
    var a, b := Apply(x, e), Apply(y, e);
    assert a.byId == b.byId;
    assert a.byNative == b.byNative;
  }

  lemma SameButStarts(e: Event, x: Catalogue)
    ensures SameBut(e, Apply(x, e), x)
  {
  }

  lemma SameButSteps(e: Event, f: Event, x: Catalogue, y: Catalogue)
    requires SameBut(e, x, y)
    ensures SameBut(e, Apply(x, f), Apply(y, f))
  {
    if x != y && e.body.SessionDiscovered? {
      DiscoveredSteps(e, f, x, y);
    } else if x != y {
      WriteSteps(e, f, x, y);
    }
  }

  lemma DiscoveredSteps(e: Event, f: Event, x: Catalogue, y: Catalogue)
    requires e.body.SessionDiscovered? && SameBut(e, x, y)
    ensures SameBut(e, Apply(x, f), Apply(y, f))
  {
    var s := e.body.session;
    match f.body
    case SessionDiscovered(t) =>
      PutAgrees(x.byId, y.byId, s.id, t.id, t, t);
      PutAgrees(x.byNative, y.byNative, SessionKey(s), SessionKey(t), t.id, t.id);
    case _ =>
  }

  lemma WriteSteps(e: Event, f: Event, x: Catalogue, y: Catalogue)
    requires (e.body.SessionStateChanged? || e.body.SessionUpdated?) && SameBut(e, x, y) && x != y
    ensures SameBut(e, Apply(x, f), Apply(y, f))
  {
    var sid := e.sessionId.value;
    match f.body
    case SessionDiscovered(t) =>
      PutAgrees(x.byId, y.byId, sid, t.id, t, t);
    case SessionStateChanged(_, to) =>
      if Known(x, f.sessionId) {
        var j := f.sessionId.value;
        PutAgrees(x.byId, y.byId, sid, j, SetState(x.byId[j], to), SetState(y.byId[j], to));
      }
    case SessionUpdated(snapshot) =>
      if Known(x, f.sessionId) {
        var j := f.sessionId.value;
        PutAgrees(x.byId, y.byId, sid, j, Describe(x.byId[j], snapshot), Describe(y.byId[j], snapshot));
      }
    case _ =>
  }

  lemma {:induction false} SameButFolds(e: Event, log: seq<Event>, x: Catalogue, y: Catalogue)
    requires SameBut(e, x, y)
    ensures SameBut(e, Fold(x, log), Fold(y, log))
  {
    if log != [] {
      var n := |log| - 1;
      SameButFolds(e, log[..n], x, y);
      SameButSteps(e, log[n], Fold(x, log[..n]), Fold(y, log[..n]));
    }
  }

  /** An event applied ahead of a log that holds it is absorbed: the log overwrites what it wrote. */
  lemma {:induction false} AheadIsAbsorbed(c: Catalogue, e: Event, log: seq<Event>)
    requires e in log
    ensures Fold(Apply(c, e), log) == Fold(c, log)
  {
    var n := |log| - 1;
    var before := log[..n];
    if log[n] == e {
      SameButStarts(e, c);
      SameButFolds(e, before, Apply(c, e), c);
      SameButSettles(e, Fold(Apply(c, e), before), Fold(c, before));
    } else {
      assert log == before + [log[n]];
      AheadIsAbsorbed(c, e, before);
    }
  }

  /** Folding any log a second time changes nothing, from any catalogue at all. */
  lemma {:induction false} ReplayIsHarmless(c: Catalogue, log: seq<Event>)
    ensures Fold(Fold(c, log), log) == Fold(c, log)
  {
    if log != [] {
      var n := |log| - 1;
      var e, x := log[n], Fold(c, log[..n]);
      ReplayIsHarmless(c, log[..n]);
      SameButStarts(e, x);
      SameButFolds(e, log[..n], Apply(x, e), x);
      SameButSettles(e, Fold(Apply(x, e), log[..n]), Fold(x, log[..n]));
    }
  }

  // --------------------------------------------------------- several machines

  /** Session ids and native identities that each belong to one machine. */
  datatype Ownership = Ownership(ofId: Ulid -> string, ofKey: NativeKey -> string)

  /** A session event writes only what its own machine owns. */
  ghost predicate WritesOwn(o: Ownership, e: Event) {
    match e.body
    case SessionDiscovered(s) => o.ofId(s.id) == e.node && o.ofKey(SessionKey(s)) == e.node
    case SessionStateChanged(_, _) => e.sessionId.Some? ==> o.ofId(e.sessionId.value) == e.node
    case SessionUpdated(_) => e.sessionId.Some? ==> o.ofId(e.sessionId.value) == e.node
    case _ => true
  }

  ghost function Restrict(o: Ownership, c: Catalogue, node: string): Catalogue {
    Catalogue(map id | id in c.byId && o.ofId(id) == node :: c.byId[id],
              map k | k in c.byNative && o.ofKey(k) == node :: c.byNative[k])
  }

  lemma RestrictReplace(o: Ownership, x: Catalogue, id: Ulid, s: Session, node: string)
    ensures var r := Restrict(o, x, node);
            Restrict(o, Replace(x, id, s), node) == if o.ofId(id) == node then Replace(r, id, s) else r
  {
    var r := Restrict(o, x, node);
    assert Restrict(o, Replace(x, id, s), node).byId == if o.ofId(id) == node then r.byId[id := s] else r.byId;
  }

  lemma RestrictIndex(o: Ownership, x: Catalogue, key: NativeKey, id: Ulid, node: string)
    ensures var r := Restrict(o, x, node);
            Restrict(o, x.(byNative := x.byNative[key := id]), node) ==
              if o.ofKey(key) == node then r.(byNative := r.byNative[key := id]) else r
  {
    var r := Restrict(o, x, node);
    assert Restrict(o, x.(byNative := x.byNative[key := id]), node).byNative ==
           if o.ofKey(key) == node then r.byNative[key := id] else r.byNative;
  }

  lemma RestrictApply(o: Ownership, x: Catalogue, e: Event, node: string)
    requires WritesOwn(o, e)
    ensures Restrict(o, Apply(x, e), node) ==
              if e.node == node then Apply(Restrict(o, x, node), e) else Restrict(o, x, node)
  {
    match e.body
    case SessionDiscovered(s) =>
      hide SessionKey;
      RestrictReplace(o, x, s.id, s, node);
      RestrictIndex(o, Replace(x, s.id, s), SessionKey(s), s.id, node);
    case SessionStateChanged(_, to) =>
      if Known(x, e.sessionId) {
        var id := e.sessionId.value;
        RestrictReplace(o, x, id, SetState(x.byId[id], to), node);
      }
    case SessionUpdated(snapshot) =>
      if Known(x, e.sessionId) {
        var id := e.sessionId.value;
        RestrictReplace(o, x, id, Describe(x.byId[id], snapshot), node);
      }
    case _ =>
  }

  /** What a fold of a mixed log holds for one machine is the fold of that machine's events. */
  lemma {:induction false} FoldOfOneNode(o: Ownership, log: seq<Event>, node: string)
    requires forall e :: e in log ==> WritesOwn(o, e)
    ensures Restrict(o, Fold(EMPTY, log), node) == Fold(EMPTY, Select(FromNode(node), log))
  {
    if log == [] {
      assert Restrict(o, EMPTY, node).byId == map[];
      assert Restrict(o, EMPTY, node).byNative == map[];
    } else {
      var n := |log| - 1;
      var e := log[n];
      FoldOfOneNode(o, log[..n], node);
      RestrictApply(o, Fold(EMPTY, log[..n]), e, node);
      SelectLast(FromNode(node), log);
      if e.node == node {
        FoldStep(EMPTY, Select(FromNode(node), log[..n]), e);
      } else {
        assert Select(FromNode(node), log) == Select(FromNode(node), log[..n]);
      }
    }
  }

  /** Logs with the same per-machine sequences fold to the same catalogue. */
  lemma InterleavingIsIrrelevant(o: Ownership, a: seq<Event>, b: seq<Event>)
    requires forall e :: e in a ==> WritesOwn(o, e)
    requires forall e :: e in b ==> WritesOwn(o, e)
    requires forall node :: Select(FromNode(node), a) == Select(FromNode(node), b)
    ensures Fold(EMPTY, a) == Fold(EMPTY, b)
  {
    var x, y := Fold(EMPTY, a), Fold(EMPTY, b);
    forall node ensures Restrict(o, x, node) == Restrict(o, y, node) {
      FoldOfOneNode(o, a, node);
      FoldOfOneNode(o, b, node);
    }
    RestrictionsDetermine(o, x, y);
  }

  lemma RestrictionsDetermine(o: Ownership, x: Catalogue, y: Catalogue)
    requires forall node :: Restrict(o, x, node) == Restrict(o, y, node)
    ensures x == y
  {
    forall id ensures (id in x.byId <==> id in y.byId) && (id in x.byId ==> x.byId[id] == y.byId[id]) {
      var p, q := Restrict(o, x, o.ofId(id)).byId, Restrict(o, y, o.ofId(id)).byId;
      assert id in p <==> id in x.byId;
      assert id in q <==> id in y.byId;
      assert p == q;
    }
    assert x.byId == y.byId;
    forall k ensures (k in x.byNative <==> k in y.byNative) && (k in x.byNative ==> x.byNative[k] == y.byNative[k]) {
      var p, q := Restrict(o, x, o.ofKey(k)).byNative, Restrict(o, y, o.ofKey(k)).byNative;
      assert k in p <==> k in x.byNative;
      assert k in q <==> k in y.byNative;
      assert p == q;
    }
    assert x.byNative == y.byNative;
  }

  /** Two machines sharing one native identity: which session it resolves to depends on the order. */
  lemma SharedIdentityIsOrderSensitive(s: Session, t: Session, m: string, n: string)
    requires s.id != t.id && SessionKey(s) == SessionKey(t) && m != n
    ensures var a := Event(1, m, Some(s.id), SessionDiscovered(s));
            var b := Event(2, n, Some(t.id), SessionDiscovered(t));
            && Fold(EMPTY, [a, b]).byNative[SessionKey(s)] == t.id
            && Fold(EMPTY, [b, a]).byNative[SessionKey(s)] == s.id
  {
    var a := Event(1, m, Some(s.id), SessionDiscovered(s));
    var b := Event(2, n, Some(t.id), SessionDiscovered(t));
    FoldStep(EMPTY, [a], b);
    FoldStep(EMPTY, [b], a);
    FoldStep(EMPTY, [], a);
    FoldStep(EMPTY, [], b);
    assert [a] + [b] == [a, b] && [b] + [a] == [b, a] && [] + [a] == [a] && [] + [b] == [b];
  }

  // ----------------------------------------------------------- the namespace

  lemma UnselectedIsIgnored(c: Catalogue, e: Event)
    requires !Selects(Namespace("session.*"), e)
    ensures Apply(c, e) == c
  {
    if !e.body.Other? {
      SessionNamespace(e.body);
    }
  }

  /** Rows outside `session.*` are never folded, so the rebuild query loses nothing. */
  lemma {:induction false} FoldOfNamespace(c: Catalogue, log: seq<Event>)
    ensures Fold(c, Select(Namespace("session.*"), log)) == Fold(c, log)
  {
    if log != [] {
      var n := |log| - 1;
      var q := Namespace("session.*");
      FoldOfNamespace(c, log[..n]);
      SelectLast(q, log);
      if Selects(q, log[n]) {
        FoldStep(c, Select(q, log[..n]), log[n]);
      } else {
        UnselectedIsIgnored(Fold(c, log[..n]), log[n]);
        assert Select(q, log) == Select(q, log[..n]);
      }
    }
  }

  // ------------------------------------------------------------ the registry

  /** One session object; commands and folds update its fields in place. */
  class SessionRecord {
    const id: Ulid
    const adapter: string
    const nativeId: string
    const node: string
    var title: string
    var project: string
    var model: Option<string>
    var permissionMode: string
    var state: SessionState
    var ended: bool
    var metadata: map<string, string>

    constructor (s: Session)
      ensures Value() == s && id == s.id
    {
      id, adapter, nativeId, node := s.id, s.adapter, s.nativeId, s.node;
      title, project, model, permissionMode := s.title, s.project, s.model, s.permissionMode;
      state, ended, metadata := s.state, s.ended, s.metadata;
    }

    function Value(): Session
      reads this
    {
      Session(id, adapter, nativeId, node, title, project, model, permissionMode, state, ended, metadata)
    }
  }

  class SessionRegistry {
    const node: string
    var byId: map<Ulid, SessionRecord>
    var byNative: map<NativeKey, Ulid>

    ghost predicate Valid()
      reads this
    {
      forall id :: id in byId ==> byId[id].id == id
    }

    ghost function View(): Catalogue
      reads this, byId.Values
    {
      Catalogue(map id | id in byId :: byId[id].Value(), byNative)
    }

    /** Writing one session's fields changes that session in the view and nothing else. */
    twostate lemma OneWritten(sid: Ulid)
      requires old(Valid()) && byId == old(byId) && byNative == old(byNative) && sid in byId
      requires forall id :: id in byId && id != sid ==> byId[id].Value() == old(byId[id].Value())
      ensures View() == Replace(old(View()), sid, byId[sid].Value())
    {
    }

    constructor (node: string)
      ensures Valid() && View() == EMPTY && this.node == node
    {
      this.node, byId, byNative := node, map[], map[];
    }

    method UpsertDiscovered(adapter: string, d: Descriptor, freshId: Ulid)
      returns (issued: Option<Draft>, next: Option<Task>)
      requires Valid()
      modifies this, byId.Values
      ensures Valid() && fresh(byId.Values - old(byId.Values))
      ensures Outcome(View(), issued, next) == Upsert(old(View()), node, adapter, d, freshId)
    {
      hide FollowHint, CanTransition;
      var key := (adapter, d.nativeId);
      if key in byNative && byNative[key] in byId {
        var sid := byNative[key];
        var changed := RefreshFields(sid, d);
        if changed {
          return Some(Draft(Some(sid), SessionUpdated(byId[sid].Value()))), Some(AwaitUpdated(sid, d.state));
        }
        issued, next := FollowDiscoveryHint(sid, d.state);
      } else {
        var s := NewSession(freshId, node, adapter, d);
        Adopt(s);
        issued := Some(Draft(Some(freshId), SessionDiscovered(s)));
        next := Some(AwaitDiscovered(freshId, d.state));
      }
    }

    /** Registers a session object and indexes it. */
    method Adopt(s: Session)
      requires Valid()
      modifies this
      ensures Valid() && fresh(byId.Values - old(byId.Values))
      ensures View() == old(Catalogue(View().byId[s.id := s], View().byNative[SessionKey(s) := s.id]))
    {
      var record := new SessionRecord(s);
      byId := byId[s.id := record];
      byNative := byNative[SessionKey(s) := s.id];
      assert View().byId == old(View().byId)[s.id := s];
    }

    /** Compares before writing, so an unchanged session publishes nothing. */
    method RefreshFields(sid: Ulid, d: Descriptor) returns (changed: bool)
      requires Valid() && sid in byId
      modifies byId[sid]
      ensures View() == Replace(old(View()), sid, Refreshed(old(byId[sid].Value()), d))
      ensures changed <==> View().byId[sid] != old(View()).byId[sid]
      ensures !changed ==> View() == old(View())
    {
      var s := byId[sid];
      changed := false;
      if d.title != "" && d.title != s.title {
        s.title := d.title;
        changed := true;
      }
      if Given(d.model) && d.model != s.model {
        s.model := d.model;
        changed := true;
      }
      if s.metadata + d.metadata != s.metadata {
        s.metadata := s.metadata + d.metadata;
        changed := true;
      }
      OneWritten(sid);
      assert !changed ==> View().byId == old(View()).byId;
    }

    method FollowDiscoveryHint(sid: Ulid, hinted: SessionState)
      returns (issued: Option<Draft>, next: Option<Task>)
      requires Valid()
      modifies byId.Values
      ensures Outcome(View(), issued, next) == FollowHint(old(View()), sid, hinted)
      ensures sid in byId ==>
                var s := old(byId[sid].state);
                && byId[sid].state == (if s != WaitingOnUser && CanTransition(s, hinted) then hinted else s)
                && issued == if byId[sid].state == s then None else Some(Draft(Some(sid), SessionStateChanged(s, hinted)))
    {
      if sid in byId && byId[sid].state != hinted {
        var parked := byId[sid].state == WaitingOnUser;
        if !parked && CanTransition(byId[sid].state, hinted) {
          var refused;
          refused, issued, next := ObserveState(sid, hinted);
          return;
        }
      }
      issued, next := None, None;
    }

    /** A refused transition issues `adapter.error` and leaves the session alone. */
    method ObserveState(sid: Ulid, to: SessionState)
      returns (refused: Option<Refusal>, issued: Option<Draft>, next: Option<Task>)
      requires Valid()
      modifies byId.Values
      ensures refused == if sid !in byId then Some(UnknownSession)
                         else if to != old(byId[sid].state) && !CanTransition(old(byId[sid].state), to)
                           then Some(IllegalTransition(old(byId[sid].state), to))
                         else None
      ensures Outcome(View(), issued, next) == Observe(old(View()), sid, to)
    {
      refused, issued, next := None, None, None;
      if sid !in byId {
        return Some(UnknownSession), None, None;
      }
      var s := byId[sid];
      var from := s.state;
      if from == to {
        return;
      }
      if !CanTransition(from, to) {
        return Some(IllegalTransition(from, to)), Some(Draft(Some(sid), AdapterError("illegal_transition"))), None;
      }
      WriteState(sid, to);
      issued := Some(Draft(Some(sid), SessionStateChanged(from, to)));
      next := Some(AwaitChanged(sid, from, to));
    }

    method RefreshSessionModel(sid: Ulid, model: string) returns (issued: Option<Draft>)
      requires Valid()
      modifies byId.Values
      ensures Outcome(View(), issued, None) == RefreshModel(old(View()), sid, model)
    {
      issued := None;
      if sid in byId && byId[sid].model != Some(model) {
        byId[sid].model := Some(model);
        OneWritten(sid);
        issued := Some(Draft(Some(sid), SessionUpdated(byId[sid].Value())));
      }
    }

    method RefreshMode(sid: Ulid, mode: string) returns (issued: Option<Draft>)
      requires Valid()
      modifies byId.Values
      ensures Outcome(View(), issued, None) == RefreshPermissionMode(old(View()), sid, mode)
    {
      issued := None;
      if sid in byId && byId[sid].permissionMode != mode {
        byId[sid].permissionMode := mode;
        OneWritten(sid);
        issued := Some(Draft(Some(sid), SessionUpdated(byId[sid].Value())));
      }
    }

    method ApplyEvent(e: Event)
      requires Valid()
      modifies this, byId.Values
      ensures Valid() && fresh(byId.Values - old(byId.Values))
      ensures View() == Apply(old(View()), e)
    {
      match e.body
      case SessionDiscovered(s) =>
        Adopt(s);
      case SessionStateChanged(_, to) =>
        if e.sessionId.Some? && e.sessionId.value in byId {
          WriteState(e.sessionId.value, to);
        }
      case SessionUpdated(snapshot) =>
        if e.sessionId.Some? && e.sessionId.value in byId {
          WriteSnapshot(e.sessionId.value, snapshot);
        }
      case _ =>
    }

    method WriteState(sid: Ulid, to: SessionState)
      requires Valid() && sid in byId
      modifies byId[sid]
      ensures View() == Replace(old(View()), sid, SetState(old(byId[sid].Value()), to))
    {
      var s := byId[sid];
      s.state := to;
      s.ended := IsEnd(to);
      OneWritten(sid);
    }

    method WriteSnapshot(sid: Ulid, snapshot: Session)
      requires Valid() && sid in byId
      modifies byId[sid]
      ensures View() == Replace(old(View()), sid, Describe(old(byId[sid].Value()), snapshot))
    {
      var s := byId[sid];
      s.title := snapshot.title;
      s.project := snapshot.project;
      s.model := snapshot.model;
      s.permissionMode := snapshot.permissionMode;
      s.metadata := snapshot.metadata;
      OneWritten(sid);
    }

    /** Events of this machine already went through the commands; other namespaces are ignored. */
    method ApplyRemote(e: Event)
      requires Valid()
      modifies this, byId.Values
      ensures Valid() && fresh(byId.Values - old(byId.Values))
      ensures View() == if e.node == node then old(View()) else Apply(old(View()), e)
    {
      if e.node == node || !StartsWith(TypeOf(e.body), "session.") {
        if IsSessionBody(e.body) {
          SessionTypesStart(e.body);
        }
        return;
      }
      ApplyEvent(e);
    }

    /** Pages through `session.*` and folds every row. */
    method Rebuild(store: SqliteEventStore)
      requires Valid() && store.Valid()
      modifies this, byId.Values
      ensures Valid()
      ensures View() == Fold(old(View()), store.rows)
    {
      hide Apply, Selects, Reverse, View;
      FoldOfNamespace(View(), store.rows);
      var at := Namespace("session.*");
      ghost var goal := Fold(View(), Select(at, store.rows));
      var batch := store.Fetch(at);
      while batch != []
        invariant Valid() && store.Valid() && fresh(byId.Values - old(byId.Values))
        invariant !at.newestFirst && store.rows == old(store.rows) && batch == Page(at, store.rows)
        invariant Fold(View(), Select(at, store.rows)) == goal
        decreases |Select(at, store.rows)|
      {
        PageStep(at, store.rows);
        FoldConcat(View(), batch, Select(NextPage(at, batch), store.rows));
        FoldBatch(batch);
        at := NextPage(at, batch);
        batch := store.Fetch(at);
      }
    }

    method FoldBatch(batch: seq<Event>)
      requires Valid()
      modifies this, byId.Values
      ensures Valid() && fresh(byId.Values - old(byId.Values))
      ensures View() == Fold(old(View()), batch)
    {
      hide View, Apply;
      for i := 0 to |batch|
        invariant Valid() && fresh(byId.Values - old(byId.Values))
        invariant View() == Fold(old(View()), batch[..i])
      {
        ApplyEvent(batch[i]);
        assert batch[..i + 1] == batch[..i] + [batch[i]];
      }
      assert batch[..|batch|] == batch;
    }
  }

  lemma SessionTypesStart(b: Body)
    requires IsSessionBody(b)
    ensures StartsWith(TypeOf(b), "session.")
  {
    match b
    case SessionDiscovered(_) => assert "session.discovered"[..8] == "session.";
    case SessionStateChanged(_, _) => assert "session.state_changed"[..8] == "session.";
    case SessionUpdated(_) => assert "session.updated"[..8] == "session.";
    case SessionLifecycle(to) => assert LifecycleName(to)[..8] == "session.";
  }
}
