/** The in-process bus: one bounded queue per subscriber, two back-pressure policies, and the recorder. */
module Bus {
  import opened Envelope
  import opened EventLog

  datatype Policy = Block | DropOldest

  datatype Item = Ev(event: Event) | CloseMark

  /**
   One subscription as a value. `marked`, the close mark was put, and `ended`, the reader has met it, are auxiliary.
   A bound of 0 means unbounded.
   */
  datatype Sub = Sub(policy: Policy, bound: nat, queue: seq<Item>, closed: bool, marked: bool, ended: bool)

  function Opened(policy: Policy, bound: nat): Sub { Sub(policy, bound, [], false, false, false) }

  predicate HasRoom(s: Sub) {
    s.bound == 0 || |s.queue| < s.bound
  }

  /** One attempt to deliver; false means that the publisher waits for room. */
  function Delivered(s: Sub, e: Event, waited: bool): (Sub, bool) {
    if s.closed && !waited then (s, true)
    else if HasRoom(s) then (s.(queue := s.queue + [Ev(e)]), true)
    else if s.policy.Block? then (s, false)
    else (s.(queue := s.queue[1..] + [Ev(e)]), true)
  }

  function Taken(s: Sub): (Sub, Option<Event>)
    requires s.queue != []
  {
    var item := s.queue[0];
    (s.(queue := s.queue[1..], ended := s.ended || item.CloseMark?), if item.Ev? then Some(item.event) else None)
  }

  /** The mark waits for room like any blocking put. */
  function Marked(s: Sub): (Sub, bool) {
    if HasRoom(s) then (s.(queue := s.queue + [CloseMark], marked := true), true) else (s, false)
  }

  function Events(items: seq<Item>): seq<Event> {
    if items == [] then []
    else if items[0].Ev? then [items[0].event] + Events(items[1..])
    else Events(items[1..])
  }

  lemma {:induction false} EventsConcat(a: seq<Item>, b: seq<Item>)
    ensures Events(a + b) == Events(a) + Events(b)
  {
    if a == [] {
      assert a + b == b;
    } else {
      assert (a + b)[1..] == a[1..] + b;
      EventsConcat(a[1..], b);
    }
  }

  lemma {:induction false} EventsLength(items: seq<Item>)
    requires CloseMark !in items
    ensures |Events(items)| == |items|
    ensures forall i :: 0 <= i < |items| ==> items[i] == Ev(Events(items)[i])
  {
    if items != [] {
      EventsLength(items[1..]);
    }
  }

  /** The last `n` elements. */
  function Newest<T>(s: seq<T>, n: nat): seq<T>
    requires n <= |s|
  {
    s[|s| - n..]
  }

  lemma EventsTail(full: seq<Item>)
    requires full != [] && CloseMark !in full
    ensures CloseMark !in full[1..] && Events(full)[1..] == Events(full[1..])
  {
    assert full[0] in full;
    assert Events(full) == [full[0].event] + Events(full[1..]);
  }

  /** Dropping from the front leaves the newest, one fewer. */
  lemma NewestDropped(full: seq<Item>, offered: seq<Event>)
    requires full != [] && CloseMark !in full && |full| <= |offered| && Events(full) == Newest(offered, |full|)
    ensures CloseMark !in full[1..] && Events(full[1..]) == Newest(offered, |full| - 1)
  {
    hide Events;
    EventsTail(full);
    assert Newest(offered, |full|)[1..] == Newest(offered, |full| - 1);
  }

  /** Putting behind keeps the newest, one more. */
  lemma NewestExtended(queue: seq<Item>, offered: seq<Event>, e: Event)
    requires |queue| <= |offered| && Events(queue) == Newest(offered, |queue|)
    ensures Events(queue + [Ev(e)]) == Newest(offered + [e], |queue| + 1)
  {
    hide Events, Newest;
    EventsConcat(queue, [Ev(e)]);
    EventOfOne(e);
    NewestOneMore(offered, |queue|, e);
  }

  lemma NewestOneMore(offered: seq<Event>, n: nat, e: Event)
    requires n <= |offered|
    ensures Newest(offered + [e], n + 1) == Newest(offered, n) + [e]
  {
  }

  lemma EventOfOne(e: Event)
    ensures Events([Ev(e)]) == [e]
  {
  }

  /** Putting behind the newest, perhaps one fewer of them, keeps the newest. */
  lemma NewestPut(queue: seq<Item>, offered: seq<Event>, full: seq<Item>, e: Event)
    requires CloseMark !in full && |full| <= |offered| && Events(full) == Newest(offered, |full|)
    requires queue == full || (full != [] && queue == full[1..])
    ensures CloseMark !in queue && Events(queue + [Ev(e)]) == Newest(offered + [e], |queue| + 1)
  {
    hide Events;
    if queue != full {
      NewestDropped(full, offered);
    }
    NewestExtended(queue, offered, e);
  }

  // ------------------------------------------------------------ subscriber

  class QueueSubscription {
    const pattern: string
    const policy: Policy
    const maxsize: nat           // 0 means unbounded
    var queue: seq<Item>
    var closed: bool
    ghost var offered: seq<Event>    // events accepted while open, in order
    ghost var received: seq<Event>   // events the reader has taken
    ghost var marked: bool
    ghost var ended: bool

    ghost function View(): Sub
      reads this
    {
      Sub(policy, maxsize, queue, closed, marked, ended)
    }

    predicate Full()
      reads this
    {
      maxsize > 0 && |queue| >= maxsize
    }

    /** Blocking loses nothing, ever; dropping keeps the newest within the bound while open. */
    ghost predicate Valid()
      reads this
    {
      && (maxsize > 0 ==> |queue| <= maxsize)
      && (!closed ==> CloseMark !in queue)
      && (policy.Block? ==> received + Events(queue) == offered)
      && (policy.DropOldest? && !closed ==> |queue| <= |offered| && Events(queue) == Newest(offered, |queue|))
    }

    constructor (pattern: string, policy: Policy, maxsize: nat)
      ensures Valid() && !closed && queue == [] && offered == [] && received == []
      ensures this.pattern == pattern && View() == Opened(policy, maxsize)
    {
      this.pattern, this.policy, this.maxsize := pattern, policy, maxsize;
      queue, closed, offered, received, marked, ended := [], false, [], [], false, false;
    }

    /**
     One attempt to deliver: false means that the publisher waits for room (blocking policy only). Whether the
     subscription is closed is looked at once, not again after a wait.
     */
    method Deliver(e: Event, waited: bool) returns (done: bool)
      requires Valid() && (waited ==> policy.Block?)
      modifies this`queue, this`offered
      ensures Valid()
      ensures (View(), done) == Delivered(old(View()), e, waited)
      ensures done <==> (closed && !waited) || policy.DropOldest? || !old(Full())
      ensures !done ==> policy.Block? && Full()
      ensures offered == old(offered) + if done && (waited || !closed) then [e] else []
      ensures !done || (closed && !waited) ==> queue == old(queue)
      ensures done && (waited || !closed) ==>
                queue == (if old(Full()) then old(queue)[1..] else old(queue)) + [Ev(e)]
    {
      if closed && !waited {
        return true;
      }
      if policy.Block? {
        if Full() {
          return false;
        }
        EventsConcat(queue, [Ev(e)]);
        queue := queue + [Ev(e)];
        offered := offered + [e];
        assert Events([Ev(e)]) == [e];
        return true;
      }
      Displace(e);
      return true;
    }

    /** Makes room by dropping from the front, then puts. */
    method Displace(e: Event)
      requires Valid() && policy.DropOldest? && !closed
      modifies this`queue, this`offered
      ensures Valid() && offered == old(offered) + [e]
      ensures queue == (if old(Full()) then old(queue)[1..] else old(queue)) + [Ev(e)]
    {
      while Full()
        invariant offered == old(offered) && |queue| <= |offered|
        invariant queue == if old(Full()) && !Full() then old(queue)[1..] else old(queue)
        decreases |queue|
      {
        queue := queue[1..];
      }
      NewestPut(queue, offered, old(queue), e);
      queue := queue + [Ev(e)];
      offered := offered + [e];
    }

    /** The reader's `get`; None once the close mark is reached. */
    method Take() returns (e: Option<Event>)
      requires Valid() && queue != []
      modifies this`queue, this`received, this`ended
      ensures Valid() && queue == old(queue)[1..] && (View(), e) == Taken(old(View()))
      ensures e == if old(queue)[0].Ev? then Some(old(queue)[0].event) else None
      ensures received == old(received) + if e.Some? then [e.value] else []
    {
      var item := queue[0];
      assert queue == [item] + queue[1..];
      EventsConcat([item], queue[1..]);
      queue := queue[1..];
      if item.Ev? {
        received := received + [item.event];
        return Some(item.event);
      }
      ended := true;
      return None;
    }

    /** The first part of `close`: from here on deliveries are ignored, so the mark is never dropped. */
    method BeginClose()
      requires Valid()
      modifies this`closed
      ensures Valid() && View() == old(View()).(closed := true)
    {
      closed := true;
    }

    /** The second part: the mark waits for room like any blocking put. */
    method PutMark() returns (done: bool)
      requires Valid() && closed
      modifies this`queue, this`marked
      ensures Valid() && done == !old(Full()) && (View(), done) == Marked(old(View()))
      ensures queue == if done then old(queue) + [CloseMark] else old(queue)
    {
      done := !Full();
      if done {
        EventsConcat(queue, [CloseMark]);
        queue, marked := queue + [CloseMark], true;
      }
    }
  }

  // -------------------------------------------------------------------- bus

  class InProcessEventBus {
    var subs: seq<QueueSubscription>
    var closed: bool

    ghost predicate Valid()
      reads this, subs
    {
      Sound(subs)
    }

    constructor ()
      ensures Valid() && subs == [] && !closed
    {
      subs, closed := [], false;
    }

    /** A closed bus refuses. */
    method Subscribe(pattern: string, policy: Policy, maxsize: nat) returns (sub: Option<QueueSubscription>)
      requires Valid()
      modifies this`subs
      ensures Valid() && (sub.None? <==> closed) && subs == old(subs) + if sub.Some? then [sub.value] else []
      ensures sub.Some? ==>
                && fresh(sub.value) && sub.value.pattern == pattern && sub.value.View() == Opened(policy, maxsize)
                && sub.value.offered == [] && sub.value.received == []
    {
      if closed {
        return None;
      }
      var made := new QueueSubscription(pattern, policy, maxsize);
      subs := subs + [made];
      sub := Some(made);
    }

    method Detach(sub: QueueSubscription)
      requires Valid()
      modifies this`subs
      ensures Valid()
      ensures forall s :: s in subs <==> s in old(subs) && s != sub
    {
      var i := 0;
      while i < |subs| && subs[i] != sub
        invariant 0 <= i <= |subs|
        invariant forall j :: 0 <= j < i ==> subs[j] != sub
      {
        i := i + 1;
      }
      if i < |subs| {
        assert subs == subs[..i] + [subs[i]] + subs[i + 1..];
        subs := subs[..i] + subs[i + 1..];
      }
    }

    /**
     Closing a subscription up to the put of its mark: it ignores deliveries from here on and is detached; the
     second call does nothing.
     */
    method BeginClose(sub: QueueSubscription) returns (first: bool)
      requires Valid() && sub.Valid()
      modifies this`subs, sub`closed
      ensures Valid() && sub.Valid() && first == !old(sub.closed)
      ensures sub.View() == old(sub.View()).(closed := true)
      ensures forall s :: s in subs <==> s in old(subs) && (first ==> s != sub)
    {
      first := !sub.closed;
      if first {
        sub.BeginClose();
        Detach(sub);
      }
    }

    /** The start of a publish: refused once the bus is closed, else a snapshot of the subscribers. */
    method BeginPublish() returns (snapshot: Option<seq<QueueSubscription>>)
      requires Valid()
      ensures snapshot == if closed then None else Some(subs)
      ensures snapshot.Some? ==> Sound(snapshot.value)
    {
      snapshot := if closed then None else Some(subs);
    }

    /**
     Publishes to a snapshot of the subscribers from `start` on, in subscription order, until one makes the
     publisher wait; resuming there, with `waited` set, continues the same publish.
     */
    method Publish(e: Event, snapshot: seq<QueueSubscription>, start: nat, waited: bool) returns (next: nat)
      requires start <= |snapshot| && Sound(snapshot)
      requires waited ==> start < |snapshot| && snapshot[start].policy.Block?
      modifies snapshot
      ensures Sound(snapshot) && start <= next <= |snapshot|
      ensures next < |snapshot| ==>
                snapshot[next].policy.Block? && snapshot[next].Full() && Matches(snapshot[next].pattern, TypeOf(e.body))
      ensures forall i :: 0 <= i < |snapshot| ==>
                snapshot[i].offered == old(snapshot[i].offered) +
                  if start <= i < next && Matches(snapshot[i].pattern, TypeOf(e.body))
                     && (!snapshot[i].closed || (waited && i == start))
                  then [e] else []
    {
      hide Matches, TypeOf, QueueSubscription.Valid, QueueSubscription.Full, QueueSubscription.View, Delivered;
      next := start;
      while next < |snapshot|
        invariant start <= next <= |snapshot| && Sound(snapshot)
        invariant forall i :: 0 <= i < |snapshot| ==> snapshot[i].closed == old(snapshot[i].closed)
        invariant forall i :: next <= i < |snapshot| ==> snapshot[i].offered == old(snapshot[i].offered)
        invariant forall i :: 0 <= i < next ==>
                    snapshot[i].offered == old(snapshot[i].offered) +
                      if start <= i && Accepts(snapshot[i], e, waited && i == start) then [e] else []
      {
        if Matches(snapshot[next].pattern, TypeOf(e.body)) {
          var done := snapshot[next].Deliver(e, waited && next == start);
          if !done {
            return;
          }
        }
        next := next + 1;
      }
    }
  }

  /** A delivery that is not waited for is accepted while the subscription is open. */
  predicate Accepts(sub: QueueSubscription, e: Event, waited: bool)
    reads sub
  {
    Matches(sub.pattern, TypeOf(e.body)) && (waited || !sub.closed)
  }

  ghost predicate Sound(subs: seq<QueueSubscription>)
    reads subs
  {
    && (forall i, j :: 0 <= i < j < |subs| ==> subs[i] != subs[j])
    && (forall i :: 0 <= i < |subs| ==> subs[i].Valid())
  }

  // -------------------------------------------------------- the close mark

  /** A dropping subscription while it is being closed, with publishers and the reader interleaved freely. */
  datatype ClosingAction = Offer(e: Event) | Read | CloseBegins | MarkGoesIn

  predicate CanAct(c: Sub, a: ClosingAction) {
    match a
    case Offer(_) => true
    case Read => !c.ended && c.queue != []
    case CloseBegins => !c.closed
    case MarkGoesIn => c.closed && !c.marked && HasRoom(c)
  }

  function Act(c: Sub, a: ClosingAction): Sub
    requires CanAct(c, a)
  {
    match a
    case Offer(e) => Delivered(c, e, false).0
    case Read => Taken(c).0
    case CloseBegins => c.(closed := true)
    case MarkGoesIn => Marked(c).0
  }

  ghost predicate IsClosingRun(bound: nat, states: seq<Sub>, actions: seq<ClosingAction>) {
    && |states| == |actions| + 1
    && states[0] == Opened(DropOldest, bound)
    && forall i :: 0 <= i < |actions| ==> CanAct(states[i], actions[i]) && states[i + 1] == Act(states[i], actions[i])
  }

  /** Until it is read, the mark is the last thing in the queue, behind events only. */
  predicate MarkStands(c: Sub) {
    && c.policy.DropOldest? && (c.marked ==> c.closed) && (c.ended ==> c.marked && c.queue == [])
    && (if c.marked && !c.ended then c.queue != [] && c.queue[|c.queue| - 1] == CloseMark
                                     && CloseMark !in c.queue[..|c.queue| - 1]
        else CloseMark !in c.queue)
  }

  lemma ActKeepsMark(c: Sub, a: ClosingAction)
    requires MarkStands(c) && CanAct(c, a)
    ensures MarkStands(Act(c, a))
  {
    var d := Act(c, a);
    match a
    case Read =>
      if c.marked && !c.ended && |c.queue| > 1 {
        assert d.queue[..|d.queue| - 1] == c.queue[..|c.queue| - 1][1..];
        assert c.queue[0] == c.queue[..|c.queue| - 1][0];
      }
    case MarkGoesIn => assert d.queue[..|d.queue| - 1] == c.queue;
    case _ =>
  }

  /**
   The close mark is never dropped: in every run of a dropping subscription, once the mark is in, it stays at the
   end of the queue, behind every event that is still to be read, until the reader has taken it.
   */
  lemma {:induction false} MarkIsNeverDropped(bound: nat, states: seq<Sub>, actions: seq<ClosingAction>, i: nat)
    requires IsClosingRun(bound, states, actions) && i < |states|
    ensures MarkStands(states[i])
  {
    if i > 0 {
      MarkIsNeverDropped(bound, states, actions, i - 1);
      ActKeepsMark(states[i - 1], actions[i - 1]);
    }
  }

  // --------------------------------------------------------------- recorder

  /** The recorder's subscription and its loop, with publishers and `stop` interleaved freely. */
  datatype Recording = Recording(
    sub: Sub,
    waiting: seq<Event>,      // publishes still trying to put
    completed: seq<Event>,    // publishes that returned after putting
    promised: seq<Event>,     // auxiliary: `completed` when `stop` was called
    rows: seq<Event>)

  datatype Action = PublishStarts(e: Event) | PutReturns(k: nat) | StopCalled | MarkPut | Append

  predicate Enabled(r: Recording, a: Action) {
    match a
    case PublishStarts(_) => true
    case PutReturns(k) => k < |r.waiting| && HasRoom(r.sub)
    case StopCalled => !r.sub.closed
    case MarkPut => r.sub.closed && !r.sub.marked && HasRoom(r.sub)
    case Append => !r.sub.ended && r.sub.queue != []
  }

  function Step(r: Recording, a: Action): Recording
    requires Enabled(r, a)
  {
    match a
    case PublishStarts(e) => if r.sub.closed then r else r.(waiting := r.waiting + [e])
    case PutReturns(k) =>
      r.(sub := Delivered(r.sub, r.waiting[k], true).0, waiting := r.waiting[..k] + r.waiting[k + 1..],
         completed := r.completed + [r.waiting[k]])
    case StopCalled => r.(sub := r.sub.(closed := true), promised := r.completed)
    case MarkPut => r.(sub := Marked(r.sub).0)
    case Append =>
      var (s, e) := Taken(r.sub);
      r.(sub := s, rows := if e.Some? then Insert(r.rows, e.value) else r.rows)
  }

  function Started(capacity: nat): Recording {
    Recording(Opened(Block, capacity), [], [], [], [])
  }

  /** An open recorder takes a publish in, and an undisturbed loop stores it. */
  lemma PublishedIsStored(r: Recording, e: Event)
    requires !r.sub.closed && !r.sub.ended && r.sub.queue == [] && HasRoom(r.sub) && Sorted(r.rows)
    ensures var a := Step(r, PublishStarts(e));
            && a.waiting == r.waiting + [e] && Enabled(a, PutReturns(|r.waiting|))
            && var b := Step(a, PutReturns(|r.waiting|));
               && b.completed == r.completed + [e] && b.waiting == r.waiting && Enabled(b, Append)
               && HasId(Step(b, Append).rows, e.id)
  {
    InsertHas(r.rows, e, e.id);
  }

  ghost predicate IsRun(capacity: nat, states: seq<Recording>, actions: seq<Action>) {
    && |states| == |actions| + 1
    && states[0] == Started(capacity)
    && forall i :: 0 <= i < |actions| ==>
         Enabled(states[i], actions[i]) && states[i + 1] == Step(states[i], actions[i])
  }

  /** Stored already, or queued ahead of any close mark. */
  ghost predicate Safe(r: Recording, e: Event) {
    || HasId(r.rows, e.id)
    || (!r.sub.ended && exists i :: 0 <= i < |r.sub.queue| && r.sub.queue[i] == Ev(e) && CloseMark !in r.sub.queue[..i])
  }

  ghost predicate Kept(r: Recording) {
    && Sorted(r.rows)
    && (forall e :: e in (if r.sub.closed then r.promised else r.completed) ==> Safe(r, e))
    && (!r.sub.closed ==> CloseMark !in r.sub.queue && !r.sub.ended)
    && (!r.sub.marked ==> CloseMark !in r.sub.queue && !r.sub.ended)
  }

  lemma InsertHas(rows: seq<Event>, e: Event, id: Ulid)
    requires Sorted(rows) && (HasId(rows, id) || id == e.id)
    ensures HasId(Insert(rows, e), id)
  {
    InsertSorted(rows, e);
    var next := Insert(rows, e);
    if HasId(rows, id) {
      var i :| 0 <= i < |rows| && rows[i].id == id;
      assert rows[i] in next;
    } else {
      assert e in next;
    }
  }

  lemma AppendKeepsSafe(r: Recording, e: Event)
    requires Kept(r) && Safe(r, e) && Enabled(r, Append)
    ensures Safe(Step(r, Append), e)
  {
    var v := Step(r, Append);
    if HasId(r.rows, e.id) {
      if r.sub.queue[0].Ev? {
        InsertHas(r.rows, r.sub.queue[0].event, e.id);
      }
    } else {
      var i :| 0 <= i < |r.sub.queue| && r.sub.queue[i] == Ev(e) && CloseMark !in r.sub.queue[..i];
      if i == 0 {
        InsertHas(r.rows, e, e.id);
      } else {
        assert r.sub.queue[..i][0] == r.sub.queue[0];
        assert v.sub.queue[i - 1] == Ev(e) && v.sub.queue[..i - 1] == r.sub.queue[..i][1..];
      }
    }
  }

  lemma PutKeepsSafe(r: Recording, item: Item, e: Event)
    requires Safe(r, e)
    ensures Safe(r.(sub := r.sub.(queue := r.sub.queue + [item])), e)
  {
    if !HasId(r.rows, e.id) {
      var i :| 0 <= i < |r.sub.queue| && r.sub.queue[i] == Ev(e) && CloseMark !in r.sub.queue[..i];
      var q := r.sub.queue + [item];
      assert q[i] == Ev(e) && q[..i] == r.sub.queue[..i];
    }
  }

  lemma StepKeeps(r: Recording, a: Action)
    requires Kept(r) && Enabled(r, a)
    ensures Kept(Step(r, a))
  {
    var v := Step(r, a);
    match a
    case Append =>
      if r.sub.queue[0].Ev? {
        InsertSorted(r.rows, r.sub.queue[0].event);
      }
      assert r.sub.queue == [r.sub.queue[0]] + v.sub.queue;
      forall e | e in (if r.sub.closed then r.promised else r.completed) ensures Safe(v, e) {
        AppendKeepsSafe(r, e);
      }
    case PutReturns(k) =>
      forall e | e in (if r.sub.closed then r.promised else r.completed) ensures Safe(v, e) {
        PutKeepsSafe(r, Ev(r.waiting[k]), e);
        assert Safe(r.(sub := r.sub.(queue := v.sub.queue)), e);
      }
      if !r.sub.closed {
        var n := |r.sub.queue|;
        assert v.sub.queue[n] == Ev(r.waiting[k]) && v.sub.queue[..n] == r.sub.queue;
        assert Safe(v, r.waiting[k]);
      }
    case MarkPut =>
      forall e | e in r.promised ensures Safe(v, e) {
        if r.sub.closed {
          PutKeepsSafe(r, CloseMark, e);
          assert Safe(r.(sub := r.sub.(queue := v.sub.queue)), e);
        }
      }
    case _ =>
      forall e | e in (if v.sub.closed then v.promised else v.completed) ensures Safe(v, e) {
        assert Safe(r, e);
      }
  }

  lemma {:induction false} RunKeeps(capacity: nat, states: seq<Recording>, actions: seq<Action>, i: nat)
    requires IsRun(capacity, states, actions) && i < |states|
    ensures Kept(states[i])
  {
    if i > 0 {
      RunKeeps(capacity, states, actions, i - 1);
      StepKeeps(states[i - 1], actions[i - 1]);
    }
  }

  /**
   When the recorder's loop has ended, which is what `stop` waits for, every event whose publish had
   returned before `stop` was called is stored.
   */
  lemma StopLosesNothing(capacity: nat, states: seq<Recording>, actions: seq<Action>, i: nat, e: Event)
    requires IsRun(capacity, states, actions) && i < |states|
    requires states[i].sub.ended && e in states[i].promised
    ensures states[i].sub.closed && HasId(states[i].rows, e.id)
  {
    RunKeeps(capacity, states, actions, i);
    assert Safe(states[i], e);
  }
}
