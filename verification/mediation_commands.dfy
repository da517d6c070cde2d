/** What each mediation command does, field by field, and whom it calls. */
module MediationCommands {
  import opened Envelope
  import opened Mediation

  /** Everything that a resolution leaves alone, and the bookkeeping that it takes away. */
  ghost predicate Resolves(l: Live, o: Outcome, id: Ulid, resolved: Interaction, body: Body)
    requires id in l.inbox.byId
  {
    var i := l.inbox.byId[id];
    && o.live.inbox.byId == l.inbox.byId[id := resolved]
    && o.live.inbox.pending == l.inbox.pending - {(i.adapter, i.nativeId)}
    && o.live.deliver == l.deliver - {id} && o.live.timers == l.timers - {id}
    && o.issued == Some(Draft(Some(i.sessionId), body))
  }

  /** An answer is recorded, announced and handed to the callback that waits for it. */
  lemma AnswerIsDelivered(l: Live, node: string, id: Ulid, a: Answer, who: string)
    requires id in l.inbox.byId && l.inbox.byId[id].status == Pending
    ensures var o := Segment(l, node, AnswerCmd(id, a, who));
            && Resolves(l, o, id, l.inbox.byId[id].(status := Answered, answer := Some(a), answeredBy := who),
                        InteractionAnswered(id, a, who))
            && o.next == if id in l.deliver then Some(Delivery(id, a, l.deliver[id])) else None
  {
  }

  /** A permission that nobody answers in time is denied to the agent; a question is not answered at all. */
  lemma TimeoutDenies(l: Live, node: string, id: Ulid)
    requires id in l.inbox.byId && l.inbox.byId[id].status == Pending
    ensures var o := Segment(l, node, TimeoutCmd(id));
            && Resolves(l, o, id, l.inbox.byId[id].(status := TimedOut), InteractionTimedOut(id))
            && o.next == if l.inbox.byId[id].kind == Permission && id in l.deliver
                         then Some(Delivery(id, Answer(Some(false), "timed out"), l.deliver[id])) else None
  {
  }

  /** Only the first resolution counts: a second answer or a late timer changes nothing and calls nobody. */
  lemma ResolvedStays(l: Live, node: string, id: Ulid, a: Answer, who: string)
    requires id !in l.inbox.byId || l.inbox.byId[id].status != Pending
    ensures Segment(l, node, AnswerCmd(id, a, who)) == Outcome(l, None, None)
    ensures Segment(l, node, TimeoutCmd(id)) == Outcome(l, None, None)
  {
  }

  /** Withdrawing a pending identity cancels it without a call; withdrawing another one does nothing. */
  lemma WithdrawalCancels(l: Live, node: string, key: NativeKey)
    ensures var o := Segment(l, node, CancelCmd(key));
            if key in l.inbox.pending && l.inbox.pending[key] in l.inbox.byId then
              var id := l.inbox.pending[key];
              && Resolves(l, o, id, l.inbox.byId[id].(status := Cancelled), InteractionCancelled(id)) && o.next == None
            else o == Outcome(l, None, None)
  {
  }

  lemma OrphanIsCancelled(l: Live, node: string, id: Ulid)
    requires id in l.inbox.byId
    ensures var o := Segment(l, node, OrphanCmd(id));
            Resolves(l, o, id, l.inbox.byId[id].(status := Cancelled), InteractionCancelled(id)) && o.next == None
  {
  }

  /** A new request is filed pending, indexed, timed when it has a timeout, and announced. */
  lemma RequestIsFiled(l: Live, node: string, r: Request, callback: Callback, id: Ulid)
    requires (r.adapter, r.nativeId) !in l.inbox.pending
    ensures var o := Segment(l, node, OpenCmd(r, callback, id));
            var i := Interaction(id, r.sessionId, r.adapter, r.nativeId, node, r.kind, r.title, Pending, "", None);
            && o.live.inbox.byId == l.inbox.byId[id := i]
            && o.live.inbox.pending == l.inbox.pending[(r.adapter, r.nativeId) := id]
            && o.live.deliver == l.deliver[id := callback]
            && o.live.timers == (if r.timed then l.timers + {id} else l.timers)
            && o.issued == Some(Draft(Some(r.sessionId), InteractionRequested(i))) && o.next == None
  {
  }

  /** A request that is pending already only gets the new callback. */
  lemma RequestIsRefreshed(l: Live, node: string, r: Request, callback: Callback, id: Ulid)
    requires (r.adapter, r.nativeId) in l.inbox.pending
    ensures Segment(l, node, OpenCmd(r, callback, id)) ==
              Outcome(l.(deliver := l.deliver[l.inbox.pending[(r.adapter, r.nativeId)] := callback]), None, None)
  {
  }

  /** One known interaction is rewritten and leaves the index; an unknown one is ignored. */
  ghost predicate Writes(x: Inbox, e: Event, id: Ulid, status: InteractionStatus) {
    if id in x.byId then
      && Apply(x, e).byId == x.byId[id := x.byId[id].(status := status)]
      && Apply(x, e).pending == x.pending - {(x.byId[id].adapter, x.byId[id].nativeId)}
    else Apply(x, e) == x
  }

  /** The fold writes what the events say, whatever came before. */
  lemma FoldWrites(x: Inbox, e: Event)
    ensures e.body.InteractionRequested? ==>
              var i := e.body.interaction;
              && Apply(x, e).byId == x.byId[i.id := i]
              && Apply(x, e).pending == if i.status == Pending then x.pending[(i.adapter, i.nativeId) := i.id] else x.pending
    ensures e.body.InteractionTimedOut? ==> Writes(x, e, e.body.timedOutId, TimedOut)
    ensures e.body.InteractionCancelled? ==> Writes(x, e, e.body.cancelledId, Cancelled)
    ensures !IsInteractionBody(e.body) ==> Apply(x, e) == x
  {
  }

  lemma FoldAnswers(x: Inbox, e: Event)
    requires e.body.InteractionAnswered?
    ensures var id := e.body.answeredId;
            if id in x.byId then
              var i := x.byId[id];
              && Apply(x, e).pending == x.pending - {(i.adapter, i.nativeId)}
              && Apply(x, e).byId == x.byId[
                   id := i.(status := Answered, answer := Some(e.body.answer), answeredBy := e.body.answeredBy)]
            else Apply(x, e) == x
  {
  }
}
