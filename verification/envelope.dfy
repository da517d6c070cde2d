/** The domain records that travel in event payloads, and the event envelope itself. */
module Envelope {

  datatype Option<+T> = None | Some(value: T)

  /** ULIDs are compared as 128-bit numbers: `milliseconds * 2^80 + random`. */
  type Ulid = nat

  const ULID_RANDOM_RANGE: nat := 0x1_0000_0000_0000_0000_0000

  // ---------------------------------------------------------------- sessions

  datatype SessionState =
    Discovered | Starting | Running | WaitingOnUser | Completed | Failed | Stopped | Archived

  /** The states whose sessions carry an end marker. */
  predicate IsEnd(s: SessionState) {
    s in {Completed, Failed, Stopped, Archived}
  }

  function Legal(from: SessionState): set<SessionState> {
    match from
    case Discovered => {Starting, Running, WaitingOnUser, Completed, Failed, Stopped}
    case Starting => {Running, Failed, Stopped}
    case Running => {WaitingOnUser, Completed, Failed, Stopped}
    case WaitingOnUser => {Running, Completed, Failed, Stopped}
    case Completed => {Running, Archived}
    case Failed => {Running, Archived}
    case Stopped => {Running, Archived}
    case Archived => {}
  }

  predicate CanTransition(from: SessionState, to: SessionState) {
    to in Legal(from)
  }

  /** A session without its timestamps; `ended` says whether `ended_at` is set. */
  datatype Session = Session(
    id: Ulid, adapter: string, nativeId: string, node: string, title: string, project: string,
    model: Option<string>, permissionMode: string, state: SessionState, ended: bool,
    metadata: map<string, string>)

  type NativeKey = (string, string)

  function SessionKey(s: Session): NativeKey { (s.adapter, s.nativeId) }

  // ------------------------------------------------------------ interactions

  datatype InteractionKind = Permission | Question

  datatype InteractionStatus = Pending | Answered | TimedOut | Cancelled

  datatype Answer = Answer(allow: Option<bool>, text: string)

  datatype Interaction = Interaction(
    id: Ulid, sessionId: Ulid, adapter: string, nativeId: string, node: string,
    kind: InteractionKind, title: string, status: InteractionStatus,
    answeredBy: string, answer: Option<Answer>)

  function InteractionKey(i: Interaction): NativeKey { (i.adapter, i.nativeId) }

  // ------------------------------------------------------------------ events

  datatype Body =
    | SessionDiscovered(session: Session)
    | SessionStateChanged(from: SessionState, to: SessionState)
    | SessionUpdated(snapshot: Session)
    | SessionLifecycle(entered: SessionState)
    | InteractionRequested(interaction: Interaction)
    | InteractionAnswered(answeredId: Ulid, answer: Answer, answeredBy: string)
    | InteractionTimedOut(timedOutId: Ulid)
    | InteractionCancelled(cancelledId: Ulid)
    | AdapterError(error: string)
    | Other(name: string)

  datatype Event = Event(id: Ulid, node: string, sessionId: Option<Ulid>, body: Body)

  function LifecycleName(s: SessionState): string {
    match s
    case Completed => "session.completed"
    case Failed => "session.failed"
    case Stopped => "session.stopped"
    case Archived => "session.archived"
    case _ => "session.started"
  }

  function TypeOf(b: Body): string {
    match b
    case SessionDiscovered(_) => "session.discovered"
    case SessionStateChanged(_, _) => "session.state_changed"
    case SessionUpdated(_) => "session.updated"
    case SessionLifecycle(s) => LifecycleName(s)
    case InteractionRequested(_) => "interaction.requested"
    case InteractionAnswered(_, _, _) => "interaction.answered"
    case InteractionTimedOut(_) => "interaction.timed_out"
    case InteractionCancelled(_) => "interaction.cancelled"
    case AdapterError(_) => "adapter.error"
    case Other(name) => name
  }

  predicate IsSessionBody(b: Body) {
    b.SessionDiscovered? || b.SessionStateChanged? || b.SessionUpdated? || b.SessionLifecycle?
  }

  predicate IsInteractionBody(b: Body) {
    b.InteractionRequested? || b.InteractionAnswered? || b.InteractionTimedOut? || b.InteractionCancelled?
  }

  /** Rows in primary-key order; ids are unique. */
  ghost predicate Sorted(log: seq<Event>) {
    forall i, j :: 0 <= i < j < |log| ==> log[i].id < log[j].id
  }

  /** The id of the newest event, 0 when there is none. */
  function LastId(log: seq<Event>): nat {
    if log == [] then 0 else log[|log| - 1].id
  }

  // ------------------------------------------------------------ new event ids

  /** The id `_new_id` assigns, given the fresh ULID drawn from the clock. */
  function NextId(last: nat, candidate: nat): (id: nat)
    ensures id > last && id >= candidate
  {
    if candidate <= last then last + 1 else candidate
  }

  /** The process-wide id source; `last` is lost with the process. */
  class IdSource {
    var last: nat

    constructor ()
      ensures last == 0
    {
      last := 0;
    }

    method NewId(candidate: nat) returns (id: nat)
      modifies this
      ensures id == last == NextId(old(last), candidate)
      ensures id == if candidate > old(last) then candidate else old(last) + 1
    {
      id := candidate;
      if id <= last {
        id := last + 1;
      }
      last := id;
    }
  }

  // ------------------------------------------------------- pattern matching

  predicate StartsWith(s: string, prefix: string) {
    |prefix| <= |s| && s[..|prefix|] == prefix
  }

  /** Exact (`session.started`), namespace wildcard (`session.*`) or global (`*`). */
  predicate Matches(pattern: string, eventType: string) {
    if pattern == "*" || pattern == eventType then true
    else if |pattern| >= 2 && pattern[|pattern| - 2..] == ".*" then
      StartsWith(eventType, pattern[..|pattern| - 1])
    else false
  }

  /** Being a prefix means that something completes it. */
  lemma PrefixExactly(s: string, prefix: string)
    ensures StartsWith(s, prefix) <==> exists rest: string :: s == prefix + rest
  {
    if StartsWith(s, prefix) {
      assert s == prefix + s[|prefix|..];
    }
    if rest: string :| s == prefix + rest {
      assert s[..|prefix|] == prefix;
    }
  }

  /** What the three kinds of patterns match: everything, their own text, or what lies in their namespace. */
  lemma MatchesExactly(pattern: string, eventType: string)
    ensures Matches(pattern, eventType) <==>
              || pattern == "*" || pattern == eventType
              || exists ns: string, rest: string :: pattern == ns + ".*" && eventType == ns + "." + rest
  {
    if Matches(pattern, eventType) && pattern != "*" && pattern != eventType {
      var ns := pattern[..|pattern| - 2];
      assert pattern == ns + ".*" && pattern[..|pattern| - 1] == ns + ".";
      PrefixExactly(eventType, ns + ".");
      var rest: string :| eventType == ns + "." + rest;
      assert pattern == ns + ".*" && eventType == ns + "." + rest;
    }
    if ns: string, rest: string :| pattern == ns + ".*" && eventType == ns + "." + rest {
      NamespacePattern(ns, eventType);
      PrefixExactly(eventType, ns + ".");
    }
  }

  /** A namespace pattern selects exactly the types below its dot (and itself, read as a type). */
  lemma NamespacePattern(ns: string, eventType: string)
    ensures Matches(ns + ".*", eventType) <==>
              eventType == ns + ".*" || StartsWith(eventType, ns + ".")
  {
    var pattern := ns + ".*";
    assert pattern[|pattern| - 2..] == ".*";
    assert pattern[..|pattern| - 1] == ns + ".";
  }

  /** Session bodies are exactly what `session.*` selects among the core bodies. */
  lemma SessionNamespace(b: Body)
    requires !b.Other?
    ensures Matches("session.*", TypeOf(b)) <==> IsSessionBody(b)
  {
    NamespacePattern("session", TypeOf(b));
    assert "session" + ".*" == "session.*";
    assert "session" + "." == "session.";
    if IsSessionBody(b) {
      assert TypeOf(b)[..8] == "session.";
    } else {
      assert TypeOf(b)[0] != 's';
    }
  }

  lemma InteractionNamespace(b: Body)
    requires !b.Other?
    ensures Matches("interaction.*", TypeOf(b)) <==> IsInteractionBody(b)
  {
    NamespacePattern("interaction", TypeOf(b));
    assert "interaction" + ".*" == "interaction.*";
    assert "interaction" + "." == "interaction.";
    if IsInteractionBody(b) {
      assert TypeOf(b)[..12] == "interaction.";
    } else {
      assert TypeOf(b)[0] != 'i';
    }
  }
}
