/** Retention passes: walk each rule's expired window, archive what may go, then delete it. */
module Retention {
  import opened Envelope
  import opened EventLog
  import S = Sessions
  import M = Mediation

  /** The smallest ULID of a millisecond. */
  function MinUlidAt(ms: nat): (id: Ulid)
    ensures forall x: nat :: x < id <==> x / ULID_RANDOM_RANGE < ms
  {
    Milliseconds(ms);
    ms * ULID_RANDOM_RANGE
  }

  lemma Milliseconds(ms: nat)
    ensures forall x: nat :: x < ms * ULID_RANDOM_RANGE <==> x / ULID_RANDOM_RANGE < ms
  {
  }

  datatype Rule = Rule(types: string, cutoff: Ulid, archive: bool)

  const PROTECTED: seq<string> := ["session.", "schedule.", "interaction.", "machine."]

  predicate Protected(e: Event) {
    exists i :: 0 <= i < |PROTECTED| && StartsWith(TypeOf(e.body), PROTECTED[i])
  }

  /** The window a rule walks. */
  function Window(r: Rule): Query {
    Query(None, Some(r.cutoff), r.types, None, None, 500, false)
  }

  predicate Expendable(r: Rule, e: Event) {
    Selects(Window(r), e) && !Protected(e)
  }

  function Expired(r: Rule, rows: seq<Event>): seq<Event> {
    if rows == [] then []
    else (if Expendable(r, rows[0]) then [rows[0]] else []) + Expired(r, rows[1..])
  }

  function Kept(r: Rule, rows: seq<Event>): seq<Event> {
    if rows == [] then []
    else (if Expendable(r, rows[0]) then [] else [rows[0]]) + Kept(r, rows[1..])
  }

  function Unprotected(es: seq<Event>): seq<Event> {
    if es == [] then []
    else (if Protected(es[0]) then [] else [es[0]]) + Unprotected(es[1..])
  }

  function Ids(es: seq<Event>): (ids: seq<Ulid>)
    ensures |ids| == |es| && forall i :: 0 <= i < |es| ==> ids[i] == es[i].id
  {
    if es == [] then [] else [es[0].id] + Ids(es[1..])
  }

  // -------------------------------------------------------------- partitions

  /** Every row is either kept or expired, once. */
  lemma {:induction false} Partition(r: Rule, rows: seq<Event>)
    ensures multiset(rows) == multiset(Kept(r, rows)) + multiset(Expired(r, rows))
  {
    hide Expendable;
    if rows != [] {
      assert rows == [rows[0]] + rows[1..];
      Partition(r, rows[1..]);
    }
  }

  lemma {:induction false} KeptSorted(r: Rule, rows: seq<Event>)
    requires Sorted(rows)
    ensures Sorted(Kept(r, rows)) && forall e :: e in Kept(r, rows) <==> e in rows && !Expendable(r, e)
  {
    hide Expendable;
    if rows != [] {
      KeptSorted(r, rows[1..]);
      var rest := Kept(r, rows[1..]);
      forall e ensures e in Kept(r, rows) <==> e in rows && !Expendable(r, e) {
        HeadThenTail(rows, e);
      }
      ConsSorted(rows[0], rest);
    }
  }

  lemma {:induction false} ExpiredIsUnprotected(r: Rule, rows: seq<Event>)
    ensures Expired(r, rows) == Unprotected(Select(Window(r), rows))
  {
    if rows != [] {
      ExpiredIsUnprotected(r, rows[1..]);
    }
  }

  lemma {:induction false} UnprotectedConcat(a: seq<Event>, b: seq<Event>)
    ensures Unprotected(a + b) == Unprotected(a) + Unprotected(b)
  {
    if a == [] {
      assert a + b == b;
    } else {
      assert (a + b)[1..] == a[1..] + b;
      UnprotectedConcat(a[1..], b);
    }
  }

  lemma {:induction false} ExpiredMember(r: Rule, rows: seq<Event>, e: Event)
    ensures e in Expired(r, rows) <==> e in rows && Expendable(r, e)
  {
    hide Expendable;
    if rows != [] {
      assert rows == [rows[0]] + rows[1..];
      ExpiredMember(r, rows[1..], e);
    }
  }

  /** Deleting the expired ids leaves exactly the kept rows. */
  lemma DeleteExpired(r: Rule, rows: seq<Event>)
    requires Sorted(rows)
    ensures Without(rows, IdSet(Ids(Expired(r, rows)))) == Kept(r, rows)
  {
    var ids := IdSet(Ids(Expired(r, rows)));
    WithoutSorted(rows, ids);
    KeptSorted(r, rows);
    forall e ensures e in Without(rows, ids) <==> e in Kept(r, rows) {
      if e in rows {
        ExpiredId(r, rows, e);
      }
    }
    SortedUnique(Without(rows, ids), Kept(r, rows));
  }

  lemma ExpiredId(r: Rule, rows: seq<Event>, e: Event)
    requires Sorted(rows) && e in rows
    ensures e.id in IdSet(Ids(Expired(r, rows))) <==> Expendable(r, e)
  {
    var x := Expired(r, rows);
    ExpiredMember(r, rows, e);
    if e in x {
      var i :| 0 <= i < |x| && x[i] == e;
      assert Ids(x)[i] == e.id;
    }
    if e.id in IdSet(Ids(x)) {
      var i :| 0 <= i < |Ids(x)| && Ids(x)[i] == e.id;
      ExpiredMember(r, rows, x[i]);
      assert x[i] in x && x[i] in rows && x[i].id == e.id;
    }
  }

  // ------------------------------------------------------- what a rule covers

  /** Older than the cutoff, of a type the rule names, and nothing that a rebuild needs. */
  predicate Covers(r: Rule, e: Event) {
    var t := TypeOf(e.body);
    && e.id < r.cutoff && Matches(r.types, t)
    && !StartsWith(t, "session.") && !StartsWith(t, "schedule.") && !StartsWith(t, "interaction.") && !StartsWith(t, "machine.")
  }

  lemma ProtectedTypes(e: Event)
    ensures var t := TypeOf(e.body);
            Protected(e) <==>
              StartsWith(t, "session.") || StartsWith(t, "schedule.") || StartsWith(t, "interaction.") || StartsWith(t, "machine.")
  {
    hide StartsWith, TypeOf;
    assert PROTECTED[0] == "session." && PROTECTED[1] == "schedule." && PROTECTED[2] == "interaction." && PROTECTED[3] == "machine.";
  }

  lemma ExpendableIsCovered(r: Rule, e: Event)
    ensures Expendable(r, e) <==> Covers(r, e)
  {
    hide StartsWith, TypeOf, Matches, Protected;
    ProtectedTypes(e);
  }

  /** A rule removes exactly what it covers. */
  lemma KeptExactly(r: Rule, rows: seq<Event>)
    requires Sorted(rows)
    ensures forall e :: e in Kept(r, rows) <==> e in rows && !Covers(r, e)
  {
    hide Expendable, Covers;
    KeptSorted(r, rows);
    forall e ensures Expendable(r, e) <==> Covers(r, e) {
      ExpendableIsCovered(r, e);
    }
  }

  /** A rule for events older than some age, as seen at an instant; both in milliseconds. */
  function RuleAt(types: string, age: nat, archive: bool, now: nat): Rule {
    Rule(types, if now < age then 0 else MinUlidAt(now - age), archive)
  }

  lemma KeptInDetail(r: Rule, rows: seq<Event>)
    requires Sorted(rows)
    ensures forall e :: e in Kept(r, rows) <==>
              var t := TypeOf(e.body);
              e in rows && !(e.id < r.cutoff && Matches(r.types, t)
                && !StartsWith(t, "session.") && !StartsWith(t, "schedule.")
                && !StartsWith(t, "interaction.") && !StartsWith(t, "machine."))
  {
    hide Kept, TypeOf, Matches, StartsWith;
    KeptExactly(r, rows);
  }

  /** Whether an event may go depends on its age, its type and nothing else. */
  lemma AgeDecides(types: string, age: nat, archive: bool, now: nat, e: Event)
    ensures Covers(RuleAt(types, age, archive, now), e) <==>
              && e.id / ULID_RANDOM_RANGE + age < now
              && Matches(types, TypeOf(e.body)) && !Protected(e)
  {
    hide Protected, Matches, TypeOf, StartsWith;
    ProtectedTypes(e);
  }

  predicate SomeCovers(rules: seq<Rule>, e: Event) {
    exists i :: 0 <= i < |rules| && Covers(rules[i], e)
  }

  // ------------------------------------------------------------ whole passes

  function After(rules: seq<Rule>, rows: seq<Event>): seq<Event>
    decreases rules
  {
    if rules == [] then rows else After(rules[1..], Kept(rules[0], rows))
  }

  /** What the archiving rules (or the others) remove in one pass, rule by rule. */
  function Removed(rules: seq<Rule>, rows: seq<Event>, archiving: bool): seq<Event>
    decreases rules
  {
    if rules == [] then []
    else (if rules[0].archive == archiving then Expired(rules[0], rows) else []) +
         Removed(rules[1..], Kept(rules[0], rows), archiving)
  }

  /**
   Conservation: a pass splits the log into what remains, what was archived and what was opted out, each
   event in exactly one of them however the rules overlap.
   */
  lemma {:induction false} PassConserves(rules: seq<Rule>, rows: seq<Event>)
    ensures multiset(rows) ==
              multiset(After(rules, rows)) + multiset(Removed(rules, rows, true)) + multiset(Removed(rules, rows, false))
    decreases rules
  {
    if rules != [] {
      Partition(rules[0], rows);
      PassConserves(rules[1..], Kept(rules[0], rows));
    }
  }

  lemma SomeCoversTail(rules: seq<Rule>, e: Event)
    requires rules != []
    ensures SomeCovers(rules, e) <==> Covers(rules[0], e) || SomeCovers(rules[1..], e)
  {
    hide Covers;
    if SomeCovers(rules, e) {
      var i :| 0 <= i < |rules| && Covers(rules[i], e);
      assert i > 0 ==> rules[1..][i - 1] == rules[i];
    }
  }

  /** A pass removes exactly what some of its rules covers. */
  lemma {:induction false} PassRemovesExactly(rules: seq<Rule>, rows: seq<Event>)
    requires Sorted(rows)
    ensures Sorted(After(rules, rows))
    ensures forall e :: e in After(rules, rows) <==> e in rows && !SomeCovers(rules, e)
    decreases rules
  {
    hide Covers, SomeCovers, Kept, Sorted;
    if rules == [] {
      NoneCovers();
    } else {
      KeptSorted(rules[0], rows);
      KeptExactly(rules[0], rows);
      PassRemovesExactly(rules[1..], Kept(rules[0], rows));
      forall e ensures e in After(rules, rows) <==> e in rows && !SomeCovers(rules, e) {
        SomeCoversTail(rules, e);
      }
    }
  }

  lemma NoneCovers()
    ensures forall e :: !SomeCovers([], e)
  {
  }

  /** The first rule of a pass that covers an event decides whether it is archived. */
  predicate FirstArchives(rules: seq<Rule>, e: Event, archiving: bool)
    decreases rules
  {
    rules != [] && if Covers(rules[0], e) then rules[0].archive == archiving else FirstArchives(rules[1..], e, archiving)
  }

  lemma {:induction false} PassFilesExactly(rules: seq<Rule>, rows: seq<Event>, archiving: bool)
    requires Sorted(rows)
    ensures forall e :: e in Removed(rules, rows, archiving) <==> e in rows && FirstArchives(rules, e, archiving)
    decreases rules
  {
    hide Covers, Expendable, Kept, Expired, Sorted;
    if rules != [] {
      KeptSorted(rules[0], rows);
      KeptExactly(rules[0], rows);
      PassFilesExactly(rules[1..], Kept(rules[0], rows), archiving);
      forall e ensures e in Removed(rules, rows, archiving) <==> e in rows && FirstArchives(rules, e, archiving) {
        ExpiredMember(rules[0], rows, e);
        ExpendableIsCovered(rules[0], e);
      }
    }
  }

  lemma {:induction false} SelectKept(q: Query, r: Rule, rows: seq<Event>)
    requires forall e :: e in rows && Selects(q, e) ==> Protected(e)
    ensures Select(q, Kept(r, rows)) == Select(q, rows)
  {
    if rows != [] {
      SelectKept(q, r, rows[1..]);
      SelectAppend(q, if Expendable(r, rows[0]) then [] else [rows[0]], Kept(r, rows[1..]));
    }
  }

  lemma NamespaceIsProtected(i: nat, e: Event)
    requires i < |PROTECTED| && Selects(Namespace(PROTECTED[i] + "*"), e)
    ensures Protected(e)
  {
    var ns := PROTECTED[i][..|PROTECTED[i]| - 1];
    assert PROTECTED[i] == ns + ".";
    assert PROTECTED[i] + "*" == ns + ".*";
    NamespacePattern(ns, TypeOf(e.body));
    assert StartsWith(TypeOf(e.body), PROTECTED[i]);
  }

  /** No pass removes a row that any rebuild reads. */
  lemma {:induction false} PassKeepsNamespace(rules: seq<Rule>, rows: seq<Event>, i: nat)
    requires i < |PROTECTED|
    ensures Select(Namespace(PROTECTED[i] + "*"), After(rules, rows)) == Select(Namespace(PROTECTED[i] + "*"), rows)
    decreases rules
  {
    if rules != [] {
      PassKeepsNamespace(rules[1..], Kept(rules[0], rows), i);
      forall e | e in rows && Selects(Namespace(PROTECTED[i] + "*"), e) ensures Protected(e) {
        NamespaceIsProtected(i, e);
      }
      SelectKept(Namespace(PROTECTED[i] + "*"), rules[0], rows);
    }
  }

  function Passes(passes: seq<seq<Rule>>, rows: seq<Event>): seq<Event>
    decreases passes
  {
    if passes == [] then rows else Passes(passes[1..], After(passes[0], rows))
  }

  /**
   Retention preserves every rebuild: after any number of passes under any rules, each rebuild query
   returns the same rows, so sessions and interactions fold to the same catalogues.
   */
  lemma {:induction false} RebuildsSurvive(passes: seq<seq<Rule>>, rows: seq<Event>)
    ensures forall i :: 0 <= i < |PROTECTED| ==>
              Select(Namespace(PROTECTED[i] + "*"), Passes(passes, rows)) == Select(Namespace(PROTECTED[i] + "*"), rows)
    ensures S.Fold(S.EMPTY, Passes(passes, rows)) == S.Fold(S.EMPTY, rows)
    ensures M.Fold(M.EMPTY, Passes(passes, rows)) == M.Fold(M.EMPTY, rows)
    decreases passes
  {
    if passes != [] {
      var next := After(passes[0], rows);
      RebuildsSurvive(passes[1..], next);
      forall i | 0 <= i < |PROTECTED| { PassKeepsNamespace(passes[0], rows, i); }
      assert PROTECTED[0] + "*" == "session.*" && PROTECTED[2] + "*" == "interaction.*";
      S.FoldOfNamespace(S.EMPTY, next);
      S.FoldOfNamespace(S.EMPTY, rows);
      M.FoldOfNamespace(M.EMPTY, next);
      M.FoldOfNamespace(M.EMPTY, rows);
    }
  }

  // ------------------------------------- crashes and concurrent appends

  /** `ever` (auxiliary) is every event appended so far; `chosen` is a batch between archiving and deleting. */
  datatype World = World(
    rows: seq<Event>, archive: seq<Event>, optedOut: seq<Event>, ever: seq<Event>,
    chosen: seq<Event>, archiving: bool)

  datatype Action = Append(e: Event) | Choose(rule: Rule, cursor: Option<Ulid>) | DeleteChosen | Crash

  /** Ids are unique: an id seen again is the same event again (a mirrored event published twice). */
  ghost predicate Enabled(w: World, a: Action) {
    match a
    case Append(e) => forall x :: x in w.ever && x.id == e.id ==> x == e
    case Choose(_, _) => w.chosen == []
    case DeleteChosen => w.chosen != []
    case Crash => true
  }

  function Step(w: World, a: Action): World {
    match a
    case Append(e) => w.(rows := Insert(w.rows, e), ever := w.ever + [e])
    case Choose(rule, cursor) =>
      var batch := Unprotected(Page(Window(rule).(afterId := cursor), w.rows));
      w.(chosen := batch, archiving := rule.archive, archive := if rule.archive then w.archive + batch else w.archive)
    case DeleteChosen =>
      w.(rows := Without(w.rows, IdSet(Ids(w.chosen))), chosen := [],
         optedOut := if w.archiving then w.optedOut else w.optedOut + w.chosen)
    case Crash => w.(chosen := [])
  }

  ghost predicate IsRun(worlds: seq<World>, actions: seq<Action>) {
    && |worlds| == |actions| + 1
    && worlds[0] == World([], [], [], [], [], false)
    && forall i :: 0 <= i < |actions| ==> Enabled(worlds[i], actions[i]) && worlds[i + 1] == Step(worlds[i], actions[i])
  }

  ghost predicate Inv(w: World) {
    && Sorted(w.rows)
    && UniqueIds(w.ever)
    && (forall e :: e in w.rows ==> e in w.ever)
    && (forall e :: e in w.chosen ==> e in w.ever && !Protected(e) && (w.archiving ==> e in w.archive))
    && (forall e :: e in w.ever ==> e in w.rows || (!Protected(e) && (e in w.archive || e in w.optedOut)))
  }

  lemma {:induction false} UnprotectedMember(es: seq<Event>, e: Event)
    ensures e in Unprotected(es) <==> e in es && !Protected(e)
  {
    if es != [] {
      assert es == [es[0]] + es[1..];
      UnprotectedMember(es[1..], e);
    }
  }

  lemma PageMember(q: Query, rows: seq<Event>, e: Event)
    requires e in Page(q, rows)
    ensures e in rows
  {
    var sel := Select(q, rows);
    var all := if q.newestFirst then Reverse(sel) else sel;
    var i :| 0 <= i < |Page(q, rows)| && Page(q, rows)[i] == e;
    assert all[i] == e;
    assert e in sel;
    SelectMember(q, rows, e);
  }

  lemma DeleteKeeps(w: World)
    requires Inv(w)
    ensures Inv(Step(w, DeleteChosen))
  {
    var ids := IdSet(Ids(w.chosen));
    var v := Step(w, DeleteChosen);
    WithoutSorted(w.rows, ids);
    forall e | e in w.ever && e !in v.rows
      ensures !Protected(e) && (e in v.archive || e in v.optedOut)
    {
      if e in w.rows {
        var i :| 0 <= i < |Ids(w.chosen)| && Ids(w.chosen)[i] == e.id;
        assert w.chosen[i] in w.chosen && w.chosen[i] == e;
      }
    }
  }

  ghost predicate UniqueIds(ever: seq<Event>) {
    forall x, y :: x in ever && y in ever && x.id == y.id ==> x == y
  }

  lemma AppendKeeps(w: World, e: Event)
    requires Inv(w) && Enabled(w, Append(e))
    ensures Inv(w.(rows := Insert(w.rows, e), ever := w.ever + [e]))
  {
    InsertSorted(w.rows, e);
    var rows, ever := Insert(w.rows, e), w.ever + [e];
    assert UniqueIds(ever);
    if HasId(w.rows, e.id) {
      var i :| 0 <= i < |w.rows| && w.rows[i].id == e.id;
      assert w.rows[i] in w.ever && w.rows[i] == e;
    }
    assert e in rows;
  }

  lemma ChooseKeeps(w: World, rule: Rule, cursor: Option<Ulid>)
    requires Inv(w) && Enabled(w, Choose(rule, cursor))
    ensures Inv(Step(w, Choose(rule, cursor)))
  {
    var q := Window(rule).(afterId := cursor);
    var page := Page(q, w.rows);
    var v := Step(w, Choose(rule, cursor));
    forall e | e in v.chosen ensures e in w.ever && !Protected(e) {
      UnprotectedMember(page, e);
      PageMember(q, w.rows, e);
    }
  }

  lemma StepKeeps(w: World, a: Action)
    requires Inv(w) && Enabled(w, a)
    ensures Inv(Step(w, a))
  {
    match a
    case Append(e) => AppendKeeps(w, e);
    case Choose(rule, cursor) => ChooseKeeps(w, rule, cursor);
    case DeleteChosen => DeleteKeeps(w);
    case Crash =>
  }

  lemma {:induction false} RunKeeps(worlds: seq<World>, actions: seq<Action>, i: nat)
    requires IsRun(worlds, actions) && i < |worlds|
    ensures Inv(worlds[i])
  {
    if i > 0 {
      RunKeeps(worlds, actions, i - 1);
      StepKeeps(worlds[i - 1], actions[i - 1]);
    }
  }

  /**
   Nothing is lost at any step, with appends in between and crashes between archiving and deleting: an
   event gone from the log is in the archive or was removed under a rule that opts out of archiving, and
   a protected event is never gone.
   */
  lemma NothingIsLost(worlds: seq<World>, actions: seq<Action>, i: nat, e: Event)
    requires IsRun(worlds, actions) && i < |worlds| && e in worlds[i].ever
    ensures e in worlds[i].rows || (!Protected(e) && (e in worlds[i].archive || e in worlds[i].optedOut))
  {
    RunKeeps(worlds, actions, i);
  }

  /** A rule of a batch chosen before step `i` covers the event. */
  ghost predicate Doomed(actions: seq<Action>, i: nat, e: Event) {
    exists j :: 0 <= j < i && j < |actions| && actions[j].Choose? && Covers(actions[j].rule, e)
  }

  lemma DoomedStays(actions: seq<Action>, i: nat, e: Event)
    requires Doomed(actions, i, e)
    ensures Doomed(actions, i + 1, e)
  {
    hide Covers;
  }

  lemma ChosenIsCovered(rule: Rule, cursor: Option<Ulid>, rows: seq<Event>, e: Event)
    requires e in Unprotected(Page(Window(rule).(afterId := cursor), rows))
    ensures Covers(rule, e)
  {
    var q := Window(rule).(afterId := cursor);
    UnprotectedMember(Page(q, rows), e);
    PageSelects(q, rows, e);
    ExpendableIsCovered(rule, e);
  }

  lemma PageSelects(q: Query, rows: seq<Event>, e: Event)
    requires e in Page(q, rows) && !q.newestFirst
    ensures Selects(q, e)
  {
    hide Selects;
    var i :| 0 <= i < |Page(q, rows)| && Page(q, rows)[i] == e;
    assert Select(q, rows)[i] == e;
    SelectMember(q, rows, e);
  }

  ghost predicate Explained(w: World, actions: seq<Action>, i: nat) {
    && (forall e :: e in w.chosen ==> Doomed(actions, i, e))
    && (forall e :: e in w.ever && e !in w.rows ==> Doomed(actions, i, e))
  }

  lemma AppendExplains(w: World, actions: seq<Action>, i: nat, a: Event)
    requires Inv(w) && Enabled(w, Append(a)) && Explained(w, actions, i)
    ensures Explained(Step(w, Append(a)), actions, i + 1)
  {
    hide Doomed;
    AppendKeeps(w, a);
    InsertSorted(w.rows, a);
    forall e | Doomed(actions, i, e) ensures Doomed(actions, i + 1, e) {
      DoomedStays(actions, i, e);
    }
    if HasId(w.rows, a.id) {
      var k :| 0 <= k < |w.rows| && w.rows[k].id == a.id;
      assert w.rows[k] in w.rows && w.rows[k] == a;
    }
  }

  lemma StepExplains(w: World, actions: seq<Action>, i: nat)
    requires Inv(w) && i < |actions| && Enabled(w, actions[i]) && Explained(w, actions, i)
    ensures Explained(Step(w, actions[i]), actions, i + 1)
  {
    var a, v := actions[i], Step(w, actions[i]);
    hide Covers, Page, Unprotected, Select, Without, Sorted;
    match a
    case Append(e) => AppendExplains(w, actions, i, e);
    case Choose(rule, cursor) =>
      forall e | e in v.chosen ensures Doomed(actions, i + 1, e) {
        ChosenIsCovered(rule, cursor, w.rows, e);
      }
    case DeleteChosen =>
      forall e | e in v.ever && e !in v.rows ensures Doomed(actions, i + 1, e) {
        if e in w.rows {
          DeletedWasChosen(w, e);
        }
      }
    case Crash =>
  }

  lemma DeletedWasChosen(w: World, e: Event)
    requires Inv(w) && e in w.rows && e !in Without(w.rows, IdSet(Ids(w.chosen)))
    ensures e in w.chosen
  {
    WithoutSorted(w.rows, IdSet(Ids(w.chosen)));
    var i :| 0 <= i < |Ids(w.chosen)| && Ids(w.chosen)[i] == e.id;
    assert w.chosen[i] in w.chosen && w.chosen[i] in w.ever && e in w.ever;
  }

  /** The archive holds only what rules that archive have chosen, and what is opted out was chosen by one that does not. */
  ghost predicate Justified(w: World, actions: seq<Action>, i: nat) {
    && (forall e :: e in w.archive ==> ChosenBy(actions, i, e, true))
    && (forall e :: e in w.optedOut ==> ChosenBy(actions, i, e, false))
    && (forall e :: e in w.chosen ==> ChosenBy(actions, i, e, w.archiving))
  }

  ghost predicate ChosenBy(actions: seq<Action>, i: nat, e: Event, archiving: bool) {
    exists j :: 0 <= j < i && j < |actions| && actions[j].Choose? && actions[j].rule.archive == archiving
                && Covers(actions[j].rule, e)
  }

  lemma StepJustifies(w: World, actions: seq<Action>, i: nat)
    requires i < |actions| && Justified(w, actions, i)
    ensures Justified(Step(w, actions[i]), actions, i + 1)
  {
    hide Covers, Page, Unprotected, Select, Without;
    var v := Step(w, actions[i]);
    if actions[i].Choose? {
      forall e | e in v.chosen ensures ChosenBy(actions, i + 1, e, v.archiving) {
        ChosenIsCovered(actions[i].rule, actions[i].cursor, w.rows, e);
      }
    }
  }

  lemma {:induction false} ArchiveIsJustified(worlds: seq<World>, actions: seq<Action>, i: nat)
    requires IsRun(worlds, actions) && i < |worlds|
    ensures Justified(worlds[i], actions, i)
  {
    hide Step, Enabled, ChosenBy;
    if i > 0 {
      hide Justified;
      ArchiveIsJustified(worlds, actions, i - 1);
      StepJustifies(worlds[i - 1], actions, i - 1);
    }
  }

  /** And nothing goes without reason: an event is gone only if some rule that was applied covers it. */
  lemma {:induction false} OnlyCoveredGo(worlds: seq<World>, actions: seq<Action>, i: nat)
    requires IsRun(worlds, actions) && i < |worlds|
    ensures Explained(worlds[i], actions, i)
  {
    hide Inv, Step, Enabled, Doomed;
    if i > 0 {
      hide Explained;
      OnlyCoveredGo(worlds, actions, i - 1);
      RunKeeps(worlds, actions, i - 1);
      StepExplains(worlds[i - 1], actions, i - 1);
    }
  }

  /** With ids unique and nothing else going on, choosing a window and deleting it removes all that it held. */
  lemma ChosenGoes(w: World, rule: Rule, cursor: Option<Ulid>, e: Event)
    requires Sorted(w.rows) && w.chosen == [] && e in Page(Window(rule).(afterId := cursor), w.rows) && !Protected(e)
    ensures e !in Step(Step(w, Choose(rule, cursor)), DeleteChosen).rows
  {
    hide Page, Select, Unprotected, Protected, Sorted, Ids, Without;
    var v := Step(w, Choose(rule, cursor));
    UnprotectedMember(Page(Window(rule).(afterId := cursor), w.rows), e);
    var i :| 0 <= i < |v.chosen| && v.chosen[i] == e;
    assert Ids(v.chosen)[i] == e.id;
    WithoutSorted(w.rows, IdSet(Ids(v.chosen)));
  }

  // ----------------------------------------------------------- the archive

  type Archive = map<string, seq<Event>>

  function InMonth(monthOf: Event -> string, es: seq<Event>, month: string): seq<Event> {
    if es == [] then []
    else (if monthOf(es[0]) == month then [es[0]] else []) + InMonth(monthOf, es[1..], month)
  }

  function File(a: Archive, month: string): seq<Event> {
    if month in a then a[month] else []
  }

  /** The archive gained exactly these events, each at the end of its month's file, in order. */
  ghost predicate Gained(monthOf: Event -> string, before: Archive, after: Archive, es: seq<Event>) {
    forall month :: File(after, month) == File(before, month) + InMonth(monthOf, es, month)
  }

  lemma {:induction false} InMonthConcat(monthOf: Event -> string, a: seq<Event>, b: seq<Event>, month: string)
    ensures InMonth(monthOf, a + b, month) == InMonth(monthOf, a, month) + InMonth(monthOf, b, month)
  {
    if a == [] {
      assert a + b == b;
    } else {
      assert (a + b)[0] == a[0] && (a + b)[1..] == a[1..] + b;
      InMonthConcat(monthOf, a[1..], b, month);
      Regroup(if monthOf(a[0]) == month then [a[0]] else [], InMonth(monthOf, a[1..], month), InMonth(monthOf, b, month));
    }
  }

  lemma FileGained(monthOf: Event -> string, x: Archive, y: Archive, es: seq<Event>, month: string)
    requires Gained(monthOf, x, y, es)
    ensures File(y, month) == File(x, month) + InMonth(monthOf, es, month)
  {
  }

  lemma GainedConcat(monthOf: Event -> string, x: Archive, y: Archive, z: Archive, a: seq<Event>, b: seq<Event>)
    requires Gained(monthOf, x, y, a) && Gained(monthOf, y, z, b)
    ensures Gained(monthOf, x, z, a + b)
  {
    forall month ensures File(z, month) == File(x, month) + InMonth(monthOf, a + b, month) {
      hide *;
      FileGained(monthOf, x, y, a, month);
      FileGained(monthOf, y, z, b, month);
      InMonthConcat(monthOf, a, b, month);
      Regroup(File(x, month), InMonth(monthOf, a, month), InMonth(monthOf, b, month));
    }
  }

  lemma InMonthSnoc(monthOf: Event -> string, es: seq<Event>, e: Event, month: string)
    ensures InMonth(monthOf, es + [e], month) ==
              if monthOf(e) == month then InMonth(monthOf, es, month) + [e] else InMonth(monthOf, es, month)
  {
    InMonthConcat(monthOf, es, [e], month);
    assert [e][1..] == [];
  }

  lemma GainedNothing(monthOf: Event -> string, a: Archive)
    ensures Gained(monthOf, a, a, [])
  {
  }

  // ------------------------------------------------------------ the service

  lemma {:induction false} SelectWithout(q: Query, rows: seq<Event>, ids: set<Ulid>)
    requires forall e :: e in rows && Selects(q, e) ==> e.id !in ids
    ensures Select(q, Without(rows, ids)) == Select(q, rows)
  {
    if rows != [] {
      SelectWithout(q, rows[1..], ids);
      SelectAppend(q, if rows[0].id in ids then [] else [rows[0]], Without(rows[1..], ids));
    }
  }

  /** The ids gone after the first `n` events of the window were walked. */
  function Gone(all: seq<Event>, n: nat): set<Ulid>
    requires n <= |all|
  {
    IdSet(Ids(Unprotected(all[..n])))
  }

  function CursorAt(all: seq<Event>, n: nat): Option<Ulid>
    requires n <= |all|
  {
    if n == 0 then None else Some(all[n - 1].id)
  }

  lemma GoneBelow(all: seq<Event>, n: nat)
    requires Sorted(all) && n <= |all|
    ensures forall id :: id in Gone(all, n) ==> n > 0 && id <= all[n - 1].id
  {
    var gone := Gone(all, n);
    forall id | id in gone ensures n > 0 && id <= all[n - 1].id {
      var x := Unprotected(all[..n]);
      var i :| 0 <= i < |Ids(x)| && Ids(x)[i] == id;
      assert x[i] in x;
      UnprotectedMember(all[..n], x[i]);
    }
  }

  /** Behind the cursor deletion changes nothing the walk will still see. */
  lemma WalkContinues(r: Rule, rows: seq<Event>, n: nat)
    requires Sorted(rows) && n <= |Select(Window(r), rows)|
    ensures var all := Select(Window(r), rows);
            Select(Window(r).(afterId := CursorAt(all, n)), Without(rows, Gone(all, n))) == all[n..]
  {
    hide Without;
    var all := Select(Window(r), rows);
    var q := Window(r).(afterId := CursorAt(all, n));
    if n == 0 {
      assert Gone(all, 0) == {};
      WithoutNothing(rows);
    } else {
      SelectSorted(Window(r), rows);
      GoneBelow(all, n);
      SelectWithout(q, rows, Gone(all, n));
      AdvanceAfter(Window(r), rows, n - 1);
    }
  }

  lemma GoneGrows(all: seq<Event>, n: nat, k: nat)
    requires n + k <= |all|
    ensures Unprotected(all[..n + k]) == Unprotected(all[..n]) + Unprotected(all[n..n + k])
    ensures Gone(all, n + k) == Gone(all, n) + IdSet(Ids(Unprotected(all[n..n + k])))
  {
    assert all[..n + k] == all[..n] + all[n..n + k];
    UnprotectedConcat(all[..n], all[n..n + k]);
    IdsConcat(Unprotected(all[..n]), Unprotected(all[n..n + k]));
  }

  lemma {:induction false} IdsConcat(a: seq<Event>, b: seq<Event>)
    ensures Ids(a + b) == Ids(a) + Ids(b)
  {
    if a == [] {
      assert a + b == b;
    } else {
      assert (a + b)[1..] == a[1..] + b;
      IdsConcat(a[1..], b);
    }
  }

  lemma PageExpires(r: Rule, rows: seq<Event>, n: nat, batch: seq<Event>)
    requires Sorted(rows)
    requires var all := Select(Window(r), rows); n + |batch| <= |all| && batch == all[n..n + |batch|]
    ensures var all := Select(Window(r), rows);
            var now, later := Without(rows, Gone(all, n)), Without(rows, Gone(all, n + |batch|));
            && Without(now, IdSet(Ids(Unprotected(batch)))) == later
            && |now| - |later| == |Unprotected(batch)|
  {
    hide Gone, Unprotected, Select, Without, IdSet, Ids, Sorted;
    var all := Select(Window(r), rows);
    GoneGrows(all, n, |batch|);
    WithoutUnion(rows, Gone(all, n), IdSet(Ids(Unprotected(batch))));
    GoneCount(r, rows, n);
    GoneCount(r, rows, n + |batch|);
  }

  /** What the archive gains from events removed under a rule. */
  function Filed(r: Rule, es: seq<Event>): seq<Event> {
    if r.archive then es else []
  }

  lemma GroupsGained(monthOf: Event -> string, before: Archive, after: Archive,
                     groups: map<string, seq<Event>>, months: seq<string>, events: seq<Event>)
    requires forall m :: m in groups <==> m in months
    requires forall m :: File(groups, m) == InMonth(monthOf, events, m)
    requires forall m :: File(after, m) == if m in months then File(before, m) + groups[m] else File(before, m)
    ensures Gained(monthOf, before, after, events)
  {
    forall m ensures File(after, m) == File(before, m) + InMonth(monthOf, events, m) {
      if m !in months {
        assert InMonth(monthOf, events, m) == [];
      }
    }
  }

  /** The page a walk fetches after the first `n` events of its window. */
  ghost function Upcoming(all: seq<Event>, n: nat): (page: seq<Event>)
    requires n <= |all|
    ensures n + |page| <= |all| && page == all[n..n + |page|] && (page == [] <==> n == |all|)
  {
    Take(all[n..], 500)
  }

  /** What the first `n` events of a window lost. */
  ghost function GoneSoFar(all: seq<Event>, n: nat): seq<Event>
    requires n <= |all|
  {
    Unprotected(all[..n])
  }

  lemma WalkStarted(r: Rule, rows: seq<Event>, all: seq<Event>)
    requires Sorted(rows) && all == Select(Window(r), rows)
    ensures rows == Without(rows, Gone(all, 0)) && GoneSoFar(all, 0) == []
    ensures Page(Window(r), rows) == Upcoming(all, 0)
  {
    WalkStarts(r, rows);
    assert all[0..] == all;
  }

  lemma WalkGoesOn(r: Rule, rows: seq<Event>, all: seq<Event>, n: nat)
    requires Sorted(rows) && all == Select(Window(r), rows) && 0 < n <= |all|
    ensures Page(Window(r).(afterId := Some(all[n - 1].id)), Without(rows, Gone(all, n))) == Upcoming(all, n)
  {
    WalkContinues(r, rows, n);
  }

  lemma GoneSoFarGrows(r: Rule, all: seq<Event>, n: nat, batch: seq<Event>)
    requires n + |batch| <= |all| && batch == all[n..n + |batch|]
    ensures GoneSoFar(all, n + |batch|) == GoneSoFar(all, n) + Unprotected(batch)
    ensures Filed(r, GoneSoFar(all, n + |batch|)) == Filed(r, GoneSoFar(all, n)) + Filed(r, Unprotected(batch))
  {
    assert all[..n + |batch|] == all[..n] + batch;
    UnprotectedConcat(all[..n], batch);
  }

  lemma WalkEnds(r: Rule, rows: seq<Event>, all: seq<Event>)
    requires Sorted(rows) && all == Select(Window(r), rows)
    ensures GoneSoFar(all, |all|) == Expired(r, rows)
    ensures Without(rows, Gone(all, |all|)) == Kept(r, rows)
  {
    assert all[..|all|] == all;
    ExpiredIsUnprotected(r, rows);
    DeleteExpired(r, rows);
  }

  /** Where a pass stands before rule `i`: what is left of it completes what was done. */
  ghost predicate Passed(rules: seq<Rule>, rows: seq<Event>, i: nat, now: seq<Event>,
                         filed: seq<Event>, deleted: nat, archived: nat)
  {
    && i <= |rules|
    && After(rules[i..], now) == After(rules, rows)
    && filed + Removed(rules[i..], now, true) == Removed(rules, rows, true)
    && archived == |filed| <= deleted
    && deleted - archived + |Removed(rules[i..], now, false)| == |Removed(rules, rows, false)|
  }

  lemma PassStarts(rules: seq<Rule>, rows: seq<Event>)
    ensures Passed(rules, rows, 0, rows, [], 0, 0)
  {
    assert rules[0..] == rules;
  }

  lemma PeelRule(rules: seq<Rule>, i: nat, now: seq<Event>, archiving: bool)
    requires i < |rules|
    ensures After(rules[i..], now) == After(rules[i + 1..], Kept(rules[i], now))
    ensures Removed(rules[i..], now, archiving) ==
              (if rules[i].archive == archiving then Expired(rules[i], now) else []) +
              Removed(rules[i + 1..], Kept(rules[i], now), archiving)
  {
    assert rules[i..][1..] == rules[i + 1..];
  }

  lemma PassGoesOn(rules: seq<Rule>, rows: seq<Event>, i: nat, now: seq<Event>,
                   filed: seq<Event>, deleted: nat, archived: nat, expired: seq<Event>)
    requires i < |rules| && Passed(rules, rows, i, now, filed, deleted, archived)
    requires expired == Expired(rules[i], now)
    ensures Passed(rules, rows, i + 1, Kept(rules[i], now), filed + Filed(rules[i], expired),
                   deleted + |expired|, archived + |Filed(rules[i], expired)|)
  {
    PeelRule(rules, i, now, true);
    PeelRule(rules, i, now, false);
    var more := Filed(rules[i], expired);
    var left, kept := Removed(rules[i + 1..], Kept(rules[i], now), true), Removed(rules[i + 1..], Kept(rules[i], now), false);
    Regroup(filed, more, left);
    assert |Removed(rules[i..], now, false)| == |expired| - |more| + |kept|;
  }

  lemma Regroup(a: seq<Event>, b: seq<Event>, c: seq<Event>)
    ensures (a + b) + c == a + (b + c)
  {
  }

  lemma PassEnds(rules: seq<Rule>, rows: seq<Event>, now: seq<Event>, filed: seq<Event>, deleted: nat, archived: nat)
    requires Passed(rules, rows, |rules|, now, filed, deleted, archived)
    ensures now == After(rules, rows) && filed == Removed(rules, rows, true) && archived == |filed|
    ensures deleted == archived + |Removed(rules, rows, false)|
  {
    assert rules[|rules|..] == [] && filed + [] == filed;
  }

  class RetentionService {
    const monthOf: Event -> string
    const store: SqliteEventStore
    var archive: Archive

    constructor (store: SqliteEventStore, monthOf: Event -> string)
      ensures this.store == store && this.monthOf == monthOf && archive == map[]
    {
      this.store, this.monthOf, archive := store, monthOf, map[];
    }

    method GroupByMonth(events: seq<Event>) returns (byMonth: map<string, seq<Event>>, months: seq<string>)
      ensures forall m :: File(byMonth, m) == InMonth(monthOf, events, m)
      ensures forall m :: m in byMonth <==> m in months
      ensures forall a, b :: 0 <= a < b < |months| ==> months[a] != months[b]
    {
      byMonth, months := map[], [];
      for i := 0 to |events|
        invariant forall m :: File(byMonth, m) == InMonth(monthOf, events[..i], m)
        invariant forall m :: m in byMonth <==> m in months
        invariant forall a, b :: 0 <= a < b < |months| ==> months[a] != months[b]
      {
        var m := monthOf(events[i]);
        assert events[..i + 1] == events[..i] + [events[i]];
        forall k { InMonthSnoc(monthOf, events[..i], events[i], k); }
        if m !in byMonth {
          months := months + [m];
        }
        byMonth := byMonth[m := File(byMonth, m) + [events[i]]];
      }
      assert events[..|events|] == events;
    }

    /** Groups the events by month, then appends each group to its month's file. */
    method ArchiveEvents(events: seq<Event>)
      modifies this`archive
      ensures Gained(monthOf, old(archive), archive, events)
    {
      var byMonth, months := GroupByMonth(events);
      AppendGroups(byMonth, months);
      GroupsGained(monthOf, old(archive), archive, byMonth, months, events);
    }

    method AppendGroups(groups: map<string, seq<Event>>, months: seq<string>)
      requires forall m :: m in months ==> m in groups
      requires forall a, b :: 0 <= a < b < |months| ==> months[a] != months[b]
      modifies this`archive
      ensures forall m :: File(archive, m) ==
                if m in months then old(File(archive, m)) + groups[m] else old(File(archive, m))
    {
      for j := 0 to |months|
        invariant forall m :: File(archive, m) ==
                    if m in months[..j] then old(File(archive, m)) + groups[m] else old(File(archive, m))
      {
        assert months[..j + 1] == months[..j] + [months[j]];
        archive := archive[months[j] := File(archive, months[j]) + groups[months[j]]];
      }
      assert months[..|months|] == months;
    }

    /** One page of the walk: archive what may go (unless the rule opts out), then delete it. */
    method ExpirePage(r: Rule, batch: seq<Event>, ghost rows: seq<Event>, ghost all: seq<Event>, ghost n: nat)
      returns (deleted: nat, archived: nat)
      requires store.Valid() && Sorted(rows) && all == Select(Window(r), rows)
      requires n + |batch| <= |all| && batch == all[n..n + |batch|]
      requires store.rows == Without(rows, Gone(all, n))
      modifies this`archive, store
      ensures store.Valid()
      ensures store.rows == Without(rows, Gone(all, n + |batch|))
      ensures deleted == |Unprotected(batch)| && archived == |Filed(r, Unprotected(batch))|
      ensures Gained(monthOf, old(archive), archive, Filed(r, Unprotected(batch)))
    {
      deleted, archived := 0, 0;
      var expendable := Unprotected(batch);
      PageExpires(r, rows, n, batch);
      GainedNothing(monthOf, archive);
      if expendable != [] {
        if r.archive {
          ArchiveEvents(expendable);
          archived := |expendable|;
        }
        deleted := store.Delete(Ids(expendable));
      } else {
        assert IdSet(Ids(expendable)) == {};
        WithoutNothing(store.rows);
      }
    }

    /** Walks one rule's expired window page by page. */
    method ApplyRule(r: Rule) returns (deleted: nat, archived: nat)
      requires store.Valid()
      modifies this`archive, store
      ensures store.Valid() && store.rows == Kept(r, old(store.rows))
      ensures deleted == |Expired(r, old(store.rows))|
      ensures archived == |Filed(r, Expired(r, old(store.rows)))|
      ensures Gained(monthOf, old(archive), archive, Filed(r, Expired(r, old(store.rows))))
      ensures forall e :: e in store.rows <==>
                var t := TypeOf(e.body);
                e in old(store.rows) && !(e.id < r.cutoff && Matches(r.types, t)
                  && !StartsWith(t, "session.") && !StartsWith(t, "schedule.")
                  && !StartsWith(t, "interaction.") && !StartsWith(t, "machine."))
    {
      hide Matches, TypeOf, StartsWith, Page, Gone, GoneSoFar, Gained, Kept, Expired, Unprotected, Upcoming, Select, Without, Sorted;
      deleted, archived := 0, 0;
      ghost var rows, before, n := store.rows, archive, 0;
      ghost var all := Select(Window(r), rows);
      WalkStarted(r, rows, all);
      GainedNothing(monthOf, archive);
      var batch := store.Fetch(Window(r));
      while batch != []
        invariant store.Valid() && n <= |all| && batch == Upcoming(all, n)
        invariant store.rows == Without(rows, Gone(all, n))
        invariant deleted == |GoneSoFar(all, n)| && archived == |Filed(r, GoneSoFar(all, n))|
        invariant Gained(monthOf, before, archive, Filed(r, GoneSoFar(all, n)))
        decreases |all| - n
      {
        GoneSoFarGrows(r, all, n, batch);
        ghost var middle := archive;
        var d, a := ExpirePage(r, batch, rows, all, n);
        GainedConcat(monthOf, before, middle, archive, Filed(r, GoneSoFar(all, n)), Filed(r, Unprotected(batch)));
        deleted, archived := deleted + d, archived + a;
        n := n + |batch|;
        WalkGoesOn(r, rows, all, n);
        batch := store.Fetch(Window(r).(afterId := Some(LastId(batch))));
      }
      WalkEnds(r, rows, all);
      KeptInDetail(r, rows);
    }

    /** One full pass; the counts are exactly what was removed, rule by rule. */
    method RunOnce(rules: seq<Rule>) returns (deleted: nat, archived: nat)
      requires store.Valid()
      modifies this`archive, store
      ensures store.Valid() && store.rows == After(rules, old(store.rows))
      ensures deleted == |Removed(rules, old(store.rows), true)| + |Removed(rules, old(store.rows), false)|
      ensures archived == |Removed(rules, old(store.rows), true)|
      ensures Gained(monthOf, old(archive), archive, Removed(rules, old(store.rows), true))
      ensures forall e :: e in store.rows <==> e in old(store.rows) && !SomeCovers(rules, e)
    {
      PassRemovesExactly(rules, store.rows);
      deleted, archived := 0, 0;
      ghost var rows, before, filed: seq<Event> := store.rows, archive, [];
      GainedNothing(monthOf, archive);
      PassStarts(rules, rows);
      for i := 0 to |rules|
        invariant store.Valid() && Passed(rules, rows, i, store.rows, filed, deleted, archived)
        invariant Gained(monthOf, before, archive, filed)
      {
        ghost var middle, expired := archive, Expired(rules[i], store.rows);
        PassGoesOn(rules, rows, i, store.rows, filed, deleted, archived, expired);
        var d, a := ApplyRule(rules[i]);
        GainedConcat(monthOf, before, middle, archive, filed, Filed(rules[i], expired));
        filed := filed + Filed(rules[i], expired);
        deleted, archived := deleted + d, archived + a;
      }
      PassEnds(rules, rows, store.rows, filed, deleted, archived);
    }
  }

  lemma WalkStarts(r: Rule, rows: seq<Event>)
    requires Sorted(rows)
    ensures Without(rows, Gone(Select(Window(r), rows), 0)) == rows
    ensures Select(Window(r).(afterId := None), rows) == Select(Window(r), rows)
  {
    assert Gone(Select(Window(r), rows), 0) == {};
    WithoutNothing(rows);
  }

  lemma GoneOneMore(all: seq<Event>, n: nat)
    requires 0 < n <= |all|
    ensures var e := all[n - 1];
            && Gone(all, n) == (if Protected(e) then Gone(all, n - 1) else Gone(all, n - 1) + {e.id})
            && |Unprotected(all[..n])| == |Unprotected(all[..n - 1])| + if Protected(e) then 0 else 1
  {
    hide Protected;
    var e := all[n - 1];
    GoneGrows(all, n - 1, 1);
    assert all[n - 1..n] == [e];
    if Protected(e) {
      assert Unprotected([e]) == [];
    } else {
      assert Unprotected([e]) == [e] && Ids([e]) == [e.id];
      assert IdSet([e.id]) == {e.id};
    }
  }

  lemma {:induction false} GoneCount(r: Rule, rows: seq<Event>, n: nat)
    requires Sorted(rows) && n <= |Select(Window(r), rows)|
    ensures var all := Select(Window(r), rows);
            |Without(rows, Gone(all, n))| == |rows| - |Unprotected(all[..n])|
  {
    var all := Select(Window(r), rows);
    if n == 0 {
      WalkStarts(r, rows);
    } else {
      hide Select, Without, Gone, Protected;
      GoneCount(r, rows, n - 1);
      GoneOneMore(all, n);
      var e := all[n - 1];
      if !Protected(e) {
        SelectSorted(Window(r), rows);
        SelectMember(Window(r), rows, e);
        GoneBelow(all, n - 1);
        WithoutOne(rows, Gone(all, n - 1), e);
      }
    }
  }

  lemma {:induction false} WithoutOne(rows: seq<Event>, ids: set<Ulid>, e: Event)
    requires Sorted(rows) && e in rows && e.id !in ids
    ensures |Without(rows, ids + {e.id})| == |Without(rows, ids)| - 1
  {
    if rows[0] == e {
      assert forall x :: x in rows[1..] ==> x.id > e.id;
      WithoutAbsent(rows[1..], ids, e.id);
    } else {
      assert rows == [rows[0]] + rows[1..];
      WithoutOne(rows[1..], ids, e);
      assert rows[0].id < e.id;
    }
  }

  lemma {:induction false} WithoutAbsent(rows: seq<Event>, ids: set<Ulid>, id: Ulid)
    requires forall x :: x in rows ==> x.id != id
    ensures Without(rows, ids + {id}) == Without(rows, ids)
  {
    if rows != [] {
      WithoutAbsent(rows[1..], ids, id);
    }
  }
}
