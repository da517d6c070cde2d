/** The hub's read-model: both folds side by side, replayed suffixes and merged machines. */
module ReadModel {
  import opened Envelope
  import opened EventLog
  import S = Sessions
  import M = Mediation

  datatype Model = Model(sessions: S.Catalogue, inbox: M.Inbox)

  const EMPTY := Model(S.EMPTY, M.EMPTY)

  function Apply(m: Model, e: Event): Model {
    Model(S.Apply(m.sessions, e), M.Apply(m.inbox, e))
  }

  function Fold(m: Model, log: seq<Event>): Model {
    Model(S.Fold(m.sessions, log), M.Fold(m.inbox, log))
  }

  lemma FoldStep(m: Model, log: seq<Event>, e: Event)
    ensures Fold(m, log + [e]) == Apply(Fold(m, log), e)
  {
    S.FoldStep(m.sessions, log, e);
    M.FoldStep(m.inbox, log, e);
  }

  lemma FoldConcat(m: Model, a: seq<Event>, b: seq<Event>)
    ensures Fold(m, a + b) == Fold(Fold(m, a), b)
  {
    S.FoldConcat(m.sessions, a, b);
    M.FoldConcat(m.inbox, a, b);
  }

  // ----------------------------------------------------------- suffix replay

  ghost predicate Requests(e: Event, id: Ulid) {
    e.body.InteractionRequested? && e.body.interaction.id == id
  }

  /** Requests are stored pending, and two requests for one id name the same native identity. */
  ghost predicate StableKeys(log: seq<Event>) {
    && (forall e :: e in log && e.body.InteractionRequested? ==> e.body.interaction.status.Pending?)
    && (forall a, b :: a in log && b in log && a.body.InteractionRequested? && b.body.InteractionRequested?
                       && a.body.interaction.id == b.body.interaction.id ==>
          InteractionKey(a.body.interaction) == InteractionKey(b.body.interaction))
  }

  ghost function KeyIn(log: seq<Event>, id: Ulid): NativeKey {
    if exists e :: e in log && Requests(e, id) then
      var e :| e in log && Requests(e, id); InteractionKey(e.body.interaction)
    else ("", "")
  }

  lemma StableIsKeyed(log: seq<Event>) returns (keyOf: Ulid -> NativeKey)
    requires StableKeys(log)
    ensures KeyedLog(keyOf, log)
  {
    keyOf := (id: Ulid) => KeyIn(log, id);
    forall e | e in log ensures M.Keyed(keyOf, e) {
      if e.body.InteractionRequested? {
        assert Requests(e, e.body.interaction.id);
      }
    }
  }

  ghost predicate KeyedModel(keyOf: Ulid -> NativeKey, m: Model) { M.KeyedInbox(keyOf, m.inbox) }

  ghost predicate KeyedLog(keyOf: Ulid -> NativeKey, log: seq<Event>) {
    forall e :: e in log ==> M.Keyed(keyOf, e)
  }

  lemma AheadIsAbsorbed(keyOf: Ulid -> NativeKey, m: Model, e: Event, log: seq<Event>)
    requires e in log && KeyedModel(keyOf, m) && KeyedLog(keyOf, log)
    ensures Fold(Apply(m, e), log) == Fold(m, log)
  {
    S.AheadIsAbsorbed(m.sessions, e, log);
    M.AheadIsAbsorbed(keyOf, m.inbox, e, log);
  }

  /**
   Suffix replay is harmless: after folding a log, folding any suffix of it again changes nothing, so
   resuming from an earlier cursor converges to the same sessions, index, interactions and pendings.
   */
  lemma SuffixReplay(log: seq<Event>, k: nat)
    requires StableKeys(log) && k <= |log|
    ensures Fold(Fold(EMPTY, log), log[k..]) == Fold(EMPTY, log)
  {
    var keyOf := StableIsKeyed(log);
    assert log == log[..k] + log[k..];
    var mid := Fold(EMPTY, log[..k]);
    FoldConcat(EMPTY, log[..k], log[k..]);
    S.ReplayIsHarmless(mid.sessions, log[k..]);
    M.FoldKeyed(keyOf, M.EMPTY, log[..k]);
    M.ReplayIsHarmless(keyOf, mid.inbox, log[k..]);
  }

  /** A lawful log of one machine has stable keys: ids are requested once. */
  lemma {:induction false} LawfulIsStable(node: string, log: seq<Event>)
    requires M.LawfulLog(node, log)
    ensures StableKeys(log)
    ensures forall e :: e in log && e.body.InteractionRequested? ==>
              e.body.interaction.id in M.Fold(M.EMPTY, log).byId
  {
    if log != [] {
      LawfulIsStable(node, log[..|log| - 1]);
      assert log == log[..|log| - 1] + [log[|log| - 1]];
    }
  }

  /**
   What still holds when a crash keeps any part of a machine's log, holes and all: the pending index names
   interactions under their own identity, and folding any suffix again changes nothing.
   */
  lemma PartOfALogIsSound(node: string, log: seq<Event>, part: seq<Event>, k: nat)
    requires M.LawfulLog(node, log) && (forall e :: e in part ==> e in log) && k <= |part|
    ensures StableKeys(part) && M.IndexSound(Fold(EMPTY, part).inbox)
    ensures Fold(Fold(EMPTY, part), part[k..]) == Fold(EMPTY, part)
  {
    LawfulIsStable(node, log);
    var keyOf := StableIsKeyed(part);
    M.KeyedIndexSound(keyOf, part);
    SuffixReplay(part, k);
  }

  // --------------------------------------------------------- several machines

  /** Which machine owns each id and native identity: no two machines share one. */
  datatype Ownership = Ownership(sessions: S.Ownership, interactions: M.Ownership)

  ghost predicate WritesOwn(o: Ownership, e: Event) {
    S.WritesOwn(o.sessions, e) && M.WritesOwn(o.interactions, e)
  }

  /** Histories that agree machine by machine on what each machine's events fold to agree altogether. */
  lemma SameByMachine(o: Ownership, a: seq<Event>, b: seq<Event>)
    requires forall e :: e in a ==> WritesOwn(o, e)
    requires forall e :: e in b ==> WritesOwn(o, e)
    requires forall node :: Fold(EMPTY, Select(FromNode(node), a)) == Fold(EMPTY, Select(FromNode(node), b))
    ensures Fold(EMPTY, a) == Fold(EMPTY, b)
  {
    hide S.Restrict, M.Restrict, Select;
    var x, y := Fold(EMPTY, a), Fold(EMPTY, b);
    forall node
      ensures S.Restrict(o.sessions, x.sessions, node) == S.Restrict(o.sessions, y.sessions, node)
      ensures M.Restrict(o.interactions, x.inbox, node) == M.Restrict(o.interactions, y.inbox, node)
    {
      S.FoldOfOneNode(o.sessions, a, node);
      S.FoldOfOneNode(o.sessions, b, node);
      M.FoldOfOneNode(o.interactions, a, node);
      M.FoldOfOneNode(o.interactions, b, node);
      assert Fold(EMPTY, Select(FromNode(node), a)) == Fold(EMPTY, Select(FromNode(node), b));
    }
    S.RestrictionsDetermine(o.sessions, x.sessions, y.sessions);
    M.RestrictionsDetermine(o.interactions, x.inbox, y.inbox);
  }

  /**
   Folds of different machines commute: two histories with the same events per machine, in the same
   order per machine, fold to the same read-model however they are interleaved.
   */
  lemma InterleavingIsIrrelevant(o: Ownership, a: seq<Event>, b: seq<Event>)
    requires forall e :: e in a ==> WritesOwn(o, e)
    requires forall e :: e in b ==> WritesOwn(o, e)
    requires forall node :: Select(FromNode(node), a) == Select(FromNode(node), b)
    ensures Fold(EMPTY, a) == Fold(EMPTY, b)
  {
    S.InterleavingIsIrrelevant(o.sessions, a, b);
    M.InterleavingIsIrrelevant(o.interactions, a, b);
  }

  /**
   A hub restart does not change what the hub showed. `applied` is the order in which the hub folded its
   own and the mirrored events; the store holds the same events in id order; each machine's events were
   applied in id order. Then the rebuild over the id-merged log is the model the hub held.
   */
  lemma RestartShowsTheSame(o: Ownership, applied: seq<Event>, rows: seq<Event>)
    requires forall e :: e in applied ==> WritesOwn(o, e)
    requires Sorted(rows) && forall e :: e in rows <==> e in applied
    requires forall node :: Sorted(Select(FromNode(node), applied))
    ensures Fold(EMPTY, rows) == Fold(EMPTY, applied)
  {
    forall node ensures Select(FromNode(node), rows) == Select(FromNode(node), applied) {
      var q := FromNode(node);
      SelectSorted(q, rows);
      forall e ensures e in Select(q, rows) <==> e in Select(q, applied) {
        SelectMember(q, rows, e);
        SelectMember(q, applied, e);
      }
      SortedUnique(Select(q, rows), Select(q, applied));
    }
    InterleavingIsIrrelevant(o, rows, applied);
  }
}
