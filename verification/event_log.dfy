/** The event table: idempotent append, ordered and filtered queries, deletion, and cursor walks. */
module EventLog {
  import opened Envelope

  datatype Query = Query(
    afterId: Option<Ulid>, beforeId: Option<Ulid>, pattern: string,
    sessionId: Option<Ulid>, node: Option<string>, limit: int, newestFirst: bool)

  /** The `WHERE` clause together with the type pattern applied to each fetched row. */
  predicate Selects(q: Query, e: Event) {
    && (q.afterId.Some? ==> e.id > q.afterId.value)
    && (q.beforeId.Some? ==> e.id < q.beforeId.value)
    && (q.sessionId.Some? ==> e.sessionId == q.sessionId)
    && (q.node.Some? ==> e.node == q.node.value)
    && Matches(q.pattern, TypeOf(e.body))
  }

  /** The rebuild queries: one namespace, oldest first. */
  function Namespace(pattern: string): Query {
    Query(None, None, pattern, None, None, 500, false)
  }

  /** All rows that originate from one machine. */
  function FromNode(node: string): Query {
    Query(None, None, "*", None, Some(node), 500, false)
  }

  function Select(q: Query, rows: seq<Event>): seq<Event> {
    if rows == [] then []
    else if Selects(q, rows[0]) then [rows[0]] + Select(q, rows[1..])
    else Select(q, rows[1..])
  }

  function Reverse(s: seq<Event>): (r: seq<Event>)
    ensures |r| == |s| && forall i :: 0 <= i < |s| ==> r[i] == s[|s| - 1 - i]
  {
    if s == [] then [] else Reverse(s[1..]) + [s[0]]
  }

  function Take(s: seq<Event>, n: nat): seq<Event> {
    if |s| <= n then s else s[..n]
  }

  /** The row limit is compared after a row is added, so a limit below 1 still yields one row. */
  function PageSize(q: Query): nat {
    if q.limit < 1 then 1 else q.limit
  }

  function Page(q: Query, rows: seq<Event>): seq<Event> {
    Take(if q.newestFirst then Reverse(Select(q, rows)) else Select(q, rows), PageSize(q))
  }

  // ------------------------------------------------------------------ select

  lemma {:induction false} SelectAppend(q: Query, a: seq<Event>, b: seq<Event>)
    ensures Select(q, a + b) == Select(q, a) + Select(q, b)
  {
    hide Selects;
    if a == [] {
      assert a + b == b;
    } else {
      assert (a + b)[1..] == a[1..] + b;
      SelectAppend(q, a[1..], b);
    }
  }

  lemma SelectLast(q: Query, rows: seq<Event>)
    requires rows != []
    ensures var n := |rows| - 1;
            Select(q, rows) == Select(q, rows[..n]) + if Selects(q, rows[n]) then [rows[n]] else []
  {
    hide Selects;
    var n := |rows| - 1;
    assert rows == rows[..n] + [rows[n]];
    SelectAppend(q, rows[..n], [rows[n]]);
  }

  lemma {:induction false} SelectMember(q: Query, rows: seq<Event>, e: Event)
    ensures e in Select(q, rows) <==> e in rows && Selects(q, e)
  {
    hide Selects;
    if rows != [] {
      assert rows == [rows[0]] + rows[1..];
      SelectMember(q, rows[1..], e);
    }
  }

  /** What a query returns: the rows in its id window, of its session, machine and type, in order, each as often as stored. */
  lemma QueryExactly(q: Query, rows: seq<Event>, e: Event)
    ensures multiset(Select(q, rows))[e] ==
              if (q.afterId.Some? ==> q.afterId.value < e.id) && (q.beforeId.Some? ==> e.id < q.beforeId.value)
                 && (q.sessionId == None || q.sessionId == e.sessionId) && (q.node == None || q.node == Some(e.node))
                 && Matches(q.pattern, TypeOf(e.body))
              then multiset(rows)[e] else 0
  {
    hide Matches, TypeOf;
    SelectCounts(q, rows, e);
  }

  lemma {:induction false} SelectCounts(q: Query, rows: seq<Event>, e: Event)
    ensures multiset(Select(q, rows))[e] == if Selects(q, e) then multiset(rows)[e] else 0
  {
    hide Selects;
    if rows != [] {
      assert rows == [rows[0]] + rows[1..];
      SelectCounts(q, rows[1..], e);
    }
  }

  /** A page is as long as the limit and the matches allow, and holds the first of them in the order asked for. */
  lemma PageExactly(q: Query, rows: seq<Event>)
    ensures var n, page := |Select(q, rows)|, Page(q, rows);
            && |page| == (if q.limit < 1 then (if n < 1 then n else 1) else if n < q.limit then n else q.limit)
            && forall i :: 0 <= i < |page| ==> page[i] == Select(q, rows)[if q.newestFirst then n - 1 - i else i]
  {
    hide Select, Reverse;
  }

  lemma {:induction false} SelectSorted(q: Query, rows: seq<Event>)
    requires Sorted(rows)
    ensures Sorted(Select(q, rows))
  {
    hide Selects;
    if rows != [] {
      SelectSorted(q, rows[1..]);
      var rest := Select(q, rows[1..]);
      forall k | 0 <= k < |rest| ensures rows[0].id < rest[k].id {
        SelectMember(q, rows[1..], rest[k]);
      }
    }
  }

  lemma {:induction false} SelectNone(q: Query, rows: seq<Event>)
    requires forall e :: e in rows ==> !Selects(q, e)
    ensures Select(q, rows) == []
  {
    hide Selects;
    if rows != [] {
      SelectNone(q, rows[1..]);
    }
  }

  /** A row that both queries treat alike may be replaced one query for the other. */
  lemma {:induction false} SelectAgree(q: Query, r: Query, rows: seq<Event>)
    requires forall e :: e in rows ==> (Selects(q, e) <==> Selects(r, e))
    ensures Select(q, rows) == Select(r, rows)
  {
    hide Selects;
    if rows != [] {
      SelectAgree(q, r, rows[1..]);
    }
  }

  /** Moving the forward cursor onto a result drops exactly the results up to it. */
  lemma {:induction false} AdvanceAfter(q: Query, rows: seq<Event>, k: nat)
    requires Sorted(rows) && k < |Select(q, rows)|
    ensures Select(q.(afterId := Some(Select(q, rows)[k].id)), rows) == Select(q, rows)[k + 1..]
  {
    hide Matches, TypeOf;
    var hit := Select(q, rows)[k];
    var r := q.(afterId := Some(hit.id));
    SelectMember(q, rows, hit);
    var rest := rows[1..];
    if !Selects(q, rows[0]) {
      SelectMember(q, rest, hit);
      AdvanceAfter(q, rest, k);
      assert rows[0].id < hit.id;
    } else if k == 0 {
      assert forall e :: e in rest ==> rows[0].id < e.id;
      SelectAgree(q, r, rest);
    } else {
      assert hit == Select(q, rest)[k - 1];
      SelectMember(q, rest, hit);
      AdvanceAfter(q, rest, k - 1);
      assert rows[0].id < hit.id;
    }
  }

  /** Moving the backward cursor onto a result drops exactly the results from it on. */
  lemma {:induction false} AdvanceBefore(q: Query, rows: seq<Event>, k: nat)
    requires Sorted(rows) && k < |Select(q, rows)|
    ensures Select(q.(beforeId := Some(Select(q, rows)[k].id)), rows) == Select(q, rows)[..k]
  {
    hide Matches, TypeOf;
    var hit := Select(q, rows)[k];
    var r := q.(beforeId := Some(hit.id));
    SelectMember(q, rows, hit);
    var rest := rows[1..];
    if !Selects(q, rows[0]) {
      SelectMember(q, rest, hit);
      AdvanceBefore(q, rest, k);
      assert !Selects(r, rows[0]);
    } else if k == 0 {
      assert forall e :: e in rows ==> rows[0].id <= e.id;
      SelectNone(r, rows);
    } else {
      assert hit == Select(q, rest)[k - 1];
      SelectMember(q, rest, hit);
      AdvanceBefore(q, rest, k - 1);
      assert Selects(r, rows[0]);
    }
  }

  /** The query a forward walk issues after a non-empty page. */
  function NextPage(q: Query, page: seq<Event>): Query {
    q.(afterId := Some(LastId(page)))
  }

  /** A page and what the next query would select make up what this one selects. */
  lemma PageStep(q: Query, rows: seq<Event>)
    requires Sorted(rows) && !q.newestFirst && Page(q, rows) != []
    ensures Select(q, rows) == Page(q, rows) + Select(NextPage(q, Page(q, rows)), rows)
    ensures |Select(NextPage(q, Page(q, rows)), rows)| < |Select(q, rows)|
  {
    hide Selects;
    var page := Page(q, rows);
    AdvanceAfter(q, rows, |page| - 1);
    assert Select(q, rows) == page + Select(q, rows)[|page|..];
  }

  // ------------------------------------------------------------- insertion

  /** `INSERT OR IGNORE`: a row whose id is present changes nothing. */
  function Insert(rows: seq<Event>, e: Event): seq<Event> {
    if rows == [] || e.id < rows[0].id then [e] + rows
    else if e.id == rows[0].id then rows
    else [rows[0]] + Insert(rows[1..], e)
  }

  ghost predicate HasId(rows: seq<Event>, id: Ulid) {
    exists i :: 0 <= i < |rows| && rows[i].id == id
  }

  lemma HasIdTail(rows: seq<Event>, id: Ulid)
    requires rows != [] && rows[0].id != id
    ensures HasId(rows, id) <==> HasId(rows[1..], id)
  {
    if HasId(rows[1..], id) {
      var i :| 0 <= i < |rows[1..]| && rows[1..][i].id == id;
      assert rows[i + 1].id == id;
    }
    if HasId(rows, id) {
      var i :| 0 <= i < |rows| && rows[i].id == id;
      assert rows[1..][i - 1].id == id;
    }
  }

  lemma HeadThenTail(rows: seq<Event>, x: Event)
    requires rows != []
    ensures x in rows <==> x == rows[0] || x in rows[1..]
  {
    assert rows == [rows[0]] + rows[1..];
  }

  lemma ConsSorted(e: Event, rest: seq<Event>)
    requires Sorted(rest) && forall x :: x in rest ==> e.id < x.id
    ensures Sorted([e] + rest)
  {
    var all := [e] + rest;
    forall i, j | 0 <= i < j < |all| ensures all[i].id < all[j].id {
      assert all[j] in rest;
    }
  }

  lemma {:induction false} InsertSorted(rows: seq<Event>, e: Event)
    requires Sorted(rows)
    ensures Sorted(Insert(rows, e))
    ensures forall x :: x in Insert(rows, e) <==> x in rows || (x == e && !HasId(rows, e.id))
  {
    if rows == [] || e.id < rows[0].id {
      assert forall i :: 0 <= i < |rows| ==> rows[0].id <= rows[i].id;
    } else if e.id == rows[0].id {
    } else {
      InsertSorted(rows[1..], e);
      var rest := Insert(rows[1..], e);
      HasIdTail(rows, e.id);
      ConsSorted(rows[0], rest);
      forall x ensures x in Insert(rows, e) <==> x in rows || (x == e && !HasId(rows, e.id)) {
        HeadThenTail(rows, x);
      }
    }
  }

  lemma InsertShift(rows: seq<Event>, e: Event, i: nat)
    requires 0 < i <= |rows|
    ensures [rows[0]] + rows[1..] == rows
    ensures [rows[0]] + (rows[1..][..i - 1] + [e] + rows[1..][i - 1..]) == rows[..i] + [e] + rows[i..]
  {
  }

  lemma {:induction false} InsertAt(rows: seq<Event>, e: Event, i: nat)
    requires i <= |rows|
    requires forall j :: 0 <= j < i ==> rows[j].id < e.id
    requires i < |rows| ==> e.id <= rows[i].id
    ensures Insert(rows, e) ==
              if i < |rows| && rows[i].id == e.id then rows else rows[..i] + [e] + rows[i..]
  {
    if i > 0 {
      InsertAt(rows[1..], e, i - 1);
      InsertShift(rows, e, i);
    }
  }

  lemma {:induction false} InsertNewest(rows: seq<Event>, e: Event)
    requires Sorted(rows) && (rows != [] ==> LastId(rows) < e.id)
    ensures Insert(rows, e) == rows + [e]
  {
    if rows != [] {
      InsertNewest(rows[1..], e);
    }
  }

  lemma {:induction false} InsertKnown(rows: seq<Event>, k: nat)
    requires Sorted(rows) && k < |rows|
    ensures Insert(rows, rows[k]) == rows
  {
    if k > 0 {
      assert rows[1..][k - 1] == rows[k] && rows[0].id < rows[k].id;
      InsertKnown(rows[1..], k - 1);
      assert rows == [rows[0]] + rows[1..];
    }
  }

  /** Two sorted tables with the same rows are the same table. */
  lemma {:induction false} SortedUnique(a: seq<Event>, b: seq<Event>)
    requires Sorted(a) && Sorted(b) && forall x :: x in a <==> x in b
    ensures a == b
  {
    assert |a| > 0 ==> a[0] in a;
    assert |b| > 0 ==> b[0] in b;
    if |a| > 0 && |b| > 0 {
      assert a[0] == b[0];
      assert a == [a[0]] + a[1..] && b == [b[0]] + b[1..];
      assert a[0] !in a[1..] && b[0] !in b[1..];
      forall x ensures x in a[1..] <==> x in b[1..] {
        assert x in a[1..] <==> x in a && x != a[0];
        assert x in b[1..] <==> x in b && x != b[0];
      }
      SortedUnique(a[1..], b[1..]);
    }
  }

  function InsertAll(rows: seq<Event>, es: seq<Event>): seq<Event>
    decreases es
  {
    if es == [] then rows else InsertAll(Insert(rows, es[0]), es[1..])
  }

  ghost predicate DistinctIds(es: seq<Event>) {
    forall i, j :: 0 <= i < j < |es| ==> es[i].id != es[j].id
  }

  lemma {:induction false} InsertAllMembers(rows: seq<Event>, es: seq<Event>)
    requires Sorted(rows) && DistinctIds(rows + es)
    ensures Sorted(InsertAll(rows, es))
    ensures forall x :: x in InsertAll(rows, es) <==> x in rows || x in es
    decreases es
  {
    if es != [] {
      InsertSorted(rows, es[0]);
      var next := Insert(rows, es[0]);
      assert !HasId(rows, es[0].id) by {
        assert (rows + es)[|rows|] == es[0];
        assert forall i :: 0 <= i < |rows| ==> rows[i] == (rows + es)[i];
      }
      assert DistinctIds(next + es[1..]) by {
        forall i, j | 0 <= i < j < |next + es[1..]|
          ensures (next + es[1..])[i].id != (next + es[1..])[j].id
        {
          DistinctAfterInsert(rows, es, next, i, j);
        }
      }
      InsertAllMembers(next, es[1..]);
      assert es == [es[0]] + es[1..];
    }
  }

  lemma DistinctAfterInsert(rows: seq<Event>, es: seq<Event>, next: seq<Event>, i: nat, j: nat)
    requires es != [] && DistinctIds(rows + es) && Sorted(next)
    requires forall x :: x in next ==> x in rows || x == es[0]
    requires i < j < |next| + |es| - 1
    ensures (next + es[1..])[i].id != (next + es[1..])[j].id
  {
    if j >= |next| {
      var b := j - |next| + 1;
      assert (next + es[1..])[j] == es[b] == (rows + es)[|rows| + b];
      if i >= |next| {
        var a := i - |next| + 1;
        assert (next + es[1..])[i] == es[a] == (rows + es)[|rows| + a];
      } else {
        assert next[i] in next;
        if next[i] == es[0] {
          assert es[0] == (rows + es)[|rows|];
        } else {
          var a :| 0 <= a < |rows| && rows[a] == next[i];
          assert rows[a] == (rows + es)[a];
        }
      }
    }
  }

  /** Recording the events of a sorted log in any order stores that log. */
  lemma AnyRecordingOrder(log: seq<Event>, recorded: seq<Event>)
    requires Sorted(log) && multiset(log) == multiset(recorded)
    ensures InsertAll([], recorded) == log
  {
    assert DistinctIds([] + recorded) by {
      forall i, j | 0 <= i < j < |recorded| ensures recorded[i].id != recorded[j].id {
        PermutedDistinct(log, recorded, i, j);
      }
      assert [] + recorded == recorded;
    }
    InsertAllMembers([], recorded);
    forall x ensures x in InsertAll([], recorded) <==> x in log {
      assert x in recorded <==> x in multiset(recorded);
      assert x in log <==> x in multiset(log);
    }
    SortedUnique(InsertAll([], recorded), log);
  }

  lemma PermutedDistinct(log: seq<Event>, recorded: seq<Event>, i: nat, j: nat)
    requires Sorted(log) && multiset(log) == multiset(recorded) && i < j < |recorded|
    ensures recorded[i].id != recorded[j].id
  {
    var x, y := recorded[i], recorded[j];
    assert x in multiset(recorded) && y in multiset(recorded);
    assert x in log && y in log;
    if x == y {
      assert recorded == recorded[..j] + [recorded[j]] + recorded[j + 1..];
      assert recorded[..j][i] == x;
      assert multiset(recorded)[x] >= 2;
      SortedOnce(log, x);
    }
  }

  lemma {:induction false} SortedOnce(log: seq<Event>, x: Event)
    requires Sorted(log)
    ensures multiset(log)[x] <= 1
  {
    if log != [] {
      assert log == [log[0]] + log[1..];
      SortedOnce(log[1..], x);
      if x == log[0] {
        assert x !in log[1..];
        assert multiset(log[1..])[x] == 0;
      }
    }
  }

  // -------------------------------------------------------------- the store

  function Without(rows: seq<Event>, ids: set<Ulid>): seq<Event> {
    if rows == [] then []
    else if rows[0].id in ids then Without(rows[1..], ids)
    else [rows[0]] + Without(rows[1..], ids)
  }

  lemma {:induction false} WithoutSorted(rows: seq<Event>, ids: set<Ulid>)
    requires Sorted(rows)
    ensures Sorted(Without(rows, ids)) && |Without(rows, ids)| <= |rows|
    ensures forall x :: x in Without(rows, ids) <==> x in rows && x.id !in ids
  {
    if rows != [] {
      assert rows == [rows[0]] + rows[1..];
      WithoutSorted(rows[1..], ids);
      var rest := Without(rows[1..], ids);
      assert forall k :: 0 <= k < |rest| ==> rest[k] in rest;
    }
  }

  lemma {:induction false} WithoutUnion(rows: seq<Event>, a: set<Ulid>, b: set<Ulid>)
    ensures Without(Without(rows, a), b) == Without(rows, a + b)
  {
    if rows != [] {
      WithoutUnion(rows[1..], a, b);
    }
  }

  function IdSet(ids: seq<Ulid>): set<Ulid> { set id | id in ids }

  const DELETE_CHUNK: nat := 500

  class SqliteEventStore {
    var rows: seq<Event>

    ghost predicate Valid()
      reads this
    {
      Sorted(rows)
    }

    constructor ()
      ensures Valid() && rows == []
    {
      rows := [];
    }

    method Append(event: Event)
      requires Valid()
      modifies this
      ensures Valid() && rows == Insert(old(rows), event)
    {
      InsertSorted(rows, event);
      var i := 0;
      while i < |rows| && rows[i].id < event.id
        invariant 0 <= i <= |rows|
        invariant forall j :: 0 <= j < i ==> rows[j].id < event.id
      {
        i := i + 1;
      }
      InsertAt(rows, event, i);
      if i == |rows| || rows[i].id != event.id {
        rows := rows[..i] + [event] + rows[i..];
      }
    }

    method Fetch(q: Query) returns (results: seq<Event>)
      requires Valid()
      ensures results == Page(q, rows)
    {
      var ordered := if q.newestFirst then Reverse(rows) else rows;
      results := Scan(q, ordered);
      SelectReverse(q, rows);
    }

    /** Follows `after` cursors until a page comes back empty. */
    method WalkForward(q: Query) returns (all: seq<Event>)
      requires Valid() && !q.newestFirst
      ensures all == Select(q, rows)
    {
      hide Selects;
      all := [];
      var at := q;
      var page := Fetch(at);
      while page != []
        invariant !at.newestFirst && page == Page(at, rows)
        invariant all + Select(at, rows) == Select(q, rows)
        decreases |Select(at, rows)|
      {
        hide Selects;
        PageStep(at, rows);
        all := all + page;
        at := NextPage(at, page);
        page := Fetch(at);
      }
    }

    /** Follows `before` cursors, newest first, until a page comes back empty. */
    method WalkBackward(q: Query) returns (all: seq<Event>)
      requires Valid() && q.newestFirst
      ensures all == Reverse(Select(q, rows))
    {
      hide Selects;
      all := [];
      var at := q;
      var page := Fetch(at);
      while page != []
        invariant at.newestFirst && page == Page(at, rows)
        invariant all + Reverse(Select(at, rows)) == Reverse(Select(q, rows))
        decreases |Select(at, rows)|
      {
        var k := |Select(at, rows)| - |page|;
        assert page[|page| - 1] == Select(at, rows)[k];
        AdvanceBefore(at, rows, k);
        assert Reverse(Select(at, rows)) == page + Reverse(Select(at, rows)[..k]);
        all := all + page;
        at := at.(beforeId := Some(LastId(page)));
        page := Fetch(at);
      }
    }

    /** Deletes by id in bounded chunks; returns how many rows went away. */
    method Delete(ids: seq<Ulid>) returns (removed: nat)
      requires Valid()
      modifies this
      ensures Valid()
      ensures rows == Without(old(rows), IdSet(ids))
      ensures removed == |old(rows)| - |rows|
    {
      removed := 0;
      var start := 0;
      WithoutNothing(rows);
      assert IdSet(ids[..0]) == {};
      while start < |ids|
        invariant 0 <= start <= |ids| 
        invariant Valid()
        invariant rows == Without(old(rows), IdSet(ids[..start]))
        invariant removed == |old(rows)| - |rows|
      {
        var stop := if start + DELETE_CHUNK <= |ids| then start + DELETE_CHUNK else |ids|;
        var chunk := ids[start..stop];
        var doomed := IdSet(chunk);
        WithoutSorted(rows, doomed);
        WithoutUnion(old(rows), IdSet(ids[..start]), doomed);
        assert ids[..stop] == ids[..start] + chunk;
        assert IdSet(ids[..stop]) == IdSet(ids[..start]) + doomed;
        var kept := Without(rows, doomed);
        removed := removed + (|rows| - |kept|);
        rows := kept;
        start := stop;
      }
      assert ids[..start] == ids;
    }
  }

  /** The row loop of a query: keep matching rows until the page is full. */
  method Scan(q: Query, ordered: seq<Event>) returns (results: seq<Event>)
    ensures results == Take(Select(q, ordered), PageSize(q))
  {
    hide Selects;
    results := [];
    var i := 0;
    while i < |ordered|
      invariant 0 <= i <= |ordered|
      invariant results == Select(q, ordered[..i]) && |results| < PageSize(q)
    {
      assert ordered[..i + 1] == ordered[..i] + [ordered[i]];
      SelectAppend(q, ordered[..i], [ordered[i]]);
      if Selects(q, ordered[i]) {
        results := results + [ordered[i]];
        if |results| >= q.limit {
          assert ordered == ordered[..i + 1] + ordered[i + 1..];
          SelectAppend(q, ordered[..i + 1], ordered[i + 1..]);
          return;
        }
      }
      i := i + 1;
    }
    assert ordered[..i] == ordered;
  }

  lemma {:induction false} WithoutNothing(rows: seq<Event>)
    ensures Without(rows, {}) == rows
  {
    if rows != [] {
      WithoutNothing(rows[1..]);
    }
  }

  lemma {:induction false} SelectReverse(q: Query, rows: seq<Event>)
    ensures Select(q, Reverse(rows)) == Reverse(Select(q, rows))
  {
    if rows != [] {
      SelectAppend(q, Reverse(rows[1..]), [rows[0]]);
      SelectReverse(q, rows[1..]);
    }
  }
}
