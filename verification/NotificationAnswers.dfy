/** What the notification ledger and a delivery answer, spelled out: every verdict with its cause, every row column by column. */
module NotificationAnswers {
  import opened Basics
  import opened NotificationLedger
  import opened NotificationFlow
  import NotificationDelivery

  // ---------------------------------------------------------------- one uninterrupted delivery

  predicate SilentKind(e: EventId) {
    e.kind in {"cancelled", "interrupted", "steer_ready"}
  }

  predicate SomebodyRead(l: Ledger, e: EventId) {
    e in l.readers && exists reader :: reader in l.readers[e]
  }

  predicate RowFor(l: Ledger, e: EventId, phase: string, channel: string, d: DeliveryId) {
    d in l.deliveries && l.deliveries[d].slot == Slot(e, phase, channel)
  }

  /** The row of the request's own slot was claimed, or an outcome was reported for it; `word` is what its state is called. */
  predicate AlreadyIs(l: Ledger, q: Request, word: string) {
    exists d | d in l.deliveries :: RowFor(l, q.event, q.phase, q.channel, d) && (l.deliveries[d].state == Reported(word) || (l.deliveries[d].state == Claimed && word == "claimed"))
  }

  predicate PastPending(l: Ledger, q: Request) {
    exists d | d in l.deliveries :: RowFor(l, q.event, q.phase, q.channel, d) && l.deliveries[d].state != Pending
  }

  predicate HasSlot(l: Ledger, q: Request) {
    exists d | d in l.deliveries :: RowFor(l, q.event, q.phase, q.channel, d)
  }

  /** Channels that may each have a row of one event. */
  predicate Beside(a: string, b: string) {
    a == b || a == "none" || (a == "browser" && b == "ntfy") || (a == "ntfy" && b == "browser")
  }

  /** Some phase of the event has a row on a channel that excludes the request's. */
  predicate TakenElsewhere(l: Ledger, q: Request) {
    exists d :: d in l.deliveries && l.deliveries[d].slot.event == q.event && !Beside(l.deliveries[d].slot.channel, q.channel)
  }

  /** Nothing stands against the delivery before its claim. */
  predicate MayGoOut(l: Ledger, q: Request) {
    !SilentKind(q.event) && !SomebodyRead(l, q.event) && !PastPending(l, q) && !TakenElsewhere(l, q)
  }

  /** The claim is won: the slot has a pending row, or none and the id for a new one is free. */
  predicate ClaimFree(l: Ledger, q: Request) {
    HasSlot(l, q) || q.newId !in l.deliveries
  }

  lemma SlotIs(l: Ledger, q: Request)
    requires Indexed(l.deliveries, l.index)
    ensures HasSlot(l, q) <==> RowAt(l, SlotOf(q)).Some?
    ensures HasSlot(l, q) ==> RowFor(l, q.event, q.phase, q.channel, l.index[SlotOf(q)])
    ensures forall d | RowFor(l, q.event, q.phase, q.channel, d) :: d == l.index[SlotOf(q)]
    ensures PastPending(l, q) <==> RowAt(l, SlotOf(q)).Some? && RowAt(l, SlotOf(q)).value.state != Pending
  {
    if RowAt(l, SlotOf(q)).Some? {
      assert RowFor(l, q.event, q.phase, q.channel, l.index[SlotOf(q)]);
    }
  }

  lemma ElsewhereIs(l: Ledger, q: Request)
    ensures RoutedElsewhere(l, q) <==> TakenElsewhere(l, q)
  {
    forall d | d in l.deliveries
      ensures Elsewhere(l.deliveries[d], q) <==> l.deliveries[d].slot.event == q.event && !Beside(l.deliveries[d].slot.channel, q.channel)
    {
      PairIs(l.deliveries[d].slot.channel, q.channel);
    }
  }

  lemma PairIs(a: string, b: string)
    ensures {a, b} == {"browser", "ntfy"} <==> (a == "browser" && b == "ntfy") || (a == "ntfy" && b == "browser")
  {
    if {a, b} == {"browser", "ntfy"} {
      assert a in {a, b} && b in {a, b} && "browser" in {a, b} && "ntfy" in {a, b};
    }
  }

  /** Recording the event does not change what stands against its delivery. */
  lemma RecordingChangesNothing(l: Ledger, q: Request)
    ensures var l' := RecordEvent(l, q.event, q.payload);
            l'.deliveries == l.deliveries && l'.index == l.index && l'.readers == l.readers
  {
  }

  /** The calls that stop before the claim, with the verdict for each reason; the first reason that holds decides. */
  lemma StoppedCallAnswers(l: Ledger, q: Request, accepted: Option<bool>)
    requires Indexed(l.deliveries, l.index) && !MayGoOut(l, q)
    ensures var (l', verdict, published) := WholeCall(l, q, Recording, accepted);
            && l' == RecordEvent(l, q.event, q.payload) && !published
            && (SilentKind(q.event) ==> verdict == "recorded")
            && (!SilentKind(q.event) && SomebodyRead(l, q.event) ==> verdict == "suppressed_read")
            && (forall word :: !SilentKind(q.event) && !SomebodyRead(l, q.event) && AlreadyIs(l, q, word) ==> verdict == "already_" + word)
            && (!SilentKind(q.event) && !SomebodyRead(l, q.event) && !PastPending(l, q) ==> verdict == "already_claimed_other_channel")
  {
    WholeCallChecksFirst(l, q, accepted);
    RecordingChangesNothing(l, q);
    SlotIs(l, q);
    ElsewhereIs(l, q);
    ReadIs(l, q.event);
    var l' := RecordEvent(l, q.event, q.payload);
    assert RowAt(l', SlotOf(q)) == RowAt(l, SlotOf(q)) && ReadersOf(l', q.event) == ReadersOf(l, q.event);
    assert RoutedElsewhere(l', q) == RoutedElsewhere(l, q);
  }

  lemma ReadIs(l: Ledger, e: EventId)
    ensures SomebodyRead(l, e) <==> ReadersOf(l, e) != {}
  {
    if ReadersOf(l, e) != {} {
      var reader :| reader in ReadersOf(l, e);
      assert reader in l.readers[e];
    }
  }

  lemma GoesToClaim(l: Ledger, q: Request, accepted: Option<bool>)
    requires Indexed(l.deliveries, l.index) && MayGoOut(l, q)
    ensures WholeCall(l, q, Recording, accepted) == WholeCall(RecordEvent(l, q.event, q.payload), q, Claiming, accepted)
  {
    WholeCallChecksFirst(l, q, accepted);
    RecordingChangesNothing(l, q);
    SlotIs(l, q);
    ElsewhereIs(l, q);
    ReadIs(l, q.event);
    var l' := RecordEvent(l, q.event, q.payload);
    assert RowAt(l', SlotOf(q)) == RowAt(l, SlotOf(q)) && ReadersOf(l', q.event) == ReadersOf(l, q.event);
    assert RoutedElsewhere(l', q) == RoutedElsewhere(l, q);
  }

  /** From the claim on: a browser alert without an output is only announced, everything else is claimed, sent and noted. */
  lemma ClaimingAnswers(l: Ledger, q: Request, accepted: Option<bool>)
    requires Indexed(l.deliveries, l.index) && !PastPending(l, q)
    ensures var (_, verdict, published) := WholeCall(l, q, Claiming, accepted);
            && (published <==> q.publishes && ClaimFree(l, q))
            && verdict == if !ClaimFree(l, q) then "error"
                          else if q.channel == "browser" && !q.publishes then "queued"
                          else if !q.publishes || accepted == None then "unknown"
                          else if accepted == Some(true) then "enqueued" else "failed"
  {
    SlotIs(l, q);
    if !(q.channel == "browser" && !q.publishes) {
      var (l', a) := Claim(l, SlotOf(q), q.newId, "server", None);
      if a.Won? {
        SendsOnce(l', q, a.id, accepted);
      }
    }
  }

  /**
   An uninterrupted delivery calls the output exactly when the request publishes, the kind is not silent, nobody
   read the event, its slot was not claimed yet, no excluding channel has a row of it, and the claim is won.
   */
  lemma PublishesExactly(l: Ledger, q: Request, accepted: Option<bool>)
    requires Indexed(l.deliveries, l.index)
    ensures WholeCall(l, q, Recording, accepted).2 <==>
              && q.publishes && q.event.kind != "cancelled" && q.event.kind != "interrupted" && q.event.kind != "steer_ready"
              && !SomebodyRead(l, q.event) && !PastPending(l, q) && !TakenElsewhere(l, q) && ClaimFree(l, q)
  {
    if MayGoOut(l, q) {
      GoesToClaim(l, q, accepted);
      ClaimingAnswers(RecordEvent(l, q.event, q.payload), q, accepted);
    } else {
      StoppedCallAnswers(l, q, accepted);
    }
  }

  /** What a delivery answers that got as far as its claim. */
  lemma SentCallAnswers(l: Ledger, q: Request, accepted: Option<bool>)
    requires Indexed(l.deliveries, l.index) && MayGoOut(l, q)
    ensures WholeCall(l, q, Recording, accepted).1 ==
              if !ClaimFree(l, q) then "error"
              else if q.channel == "browser" && !q.publishes then "queued"
              else if !q.publishes || accepted == None then "unknown"
              else if accepted == Some(true) then "enqueued" else "failed"
  {
    GoesToClaim(l, q, accepted);
    ClaimingAnswers(RecordEvent(l, q.event, q.payload), q, accepted);
  }

  /** A claim that another caller won between the checks and the claim answers as claimed, and sends nothing. */
  lemma LostRaceAnswers(l: Ledger, q: Request, accepted: Option<bool>)
    requires Indexed(l.deliveries, l.index) && PastPending(l, q)
    ensures var (l', verdict, published) := WholeCall(l, q, Claiming, accepted);
            && l' == l && !published
            && (q.publishes || q.channel != "browser" ==> verdict == "already_claimed")
            && (forall word :: !q.publishes && q.channel == "browser" && AlreadyIs(l, q, word) ==> verdict == "already_" + word)
  {
    SlotIs(l, q);
  }

  // ---------------------------------------------------------------- the tables

  /** A new event takes one number for both its creation and its change; a recorded one is left as it is. */
  lemma RecordIs(l: Ledger, e: EventId, payload: string)
    ensures var l' := RecordEvent(l, e, payload);
            && l'.readers == l.readers && l'.deliveries == l.deliveries && l'.index == l.index
            && (e in l.events ==> l' == l)
            && (e !in l.events ==>
                  l'.events == l.events[e := EventRow(l.nextSeq, l.nextSeq, payload, None)] && l'.nextSeq == l.nextSeq + 1)
  {
  }

  /** An acknowledgement by a new reader of its own event takes a number as the event's change, and keeps the first read time. */
  lemma ReadWrites(l: Ledger, owner: string, e: EventId, reader: string, now: real)
    ensures var (l', found) := MarkRead(l, owner, e, reader, now);
            && (found <==> e in l.events && e.owner == owner)
            && l'.deliveries == l.deliveries && l'.index == l.index
            && (!found || (e in l.readers && reader in l.readers[e]) ==> l' == l)
            && (found && !(e in l.readers && reader in l.readers[e]) ==>
                  && l'.nextSeq == l.nextSeq + 1
                  && l'.readers == l.readers[e := (if e in l.readers then l.readers[e] else {}) + {reader}]
                  && l'.events == l.events[e := EventRow(l.events[e].createdSeq, l.nextSeq, l.events[e].payload,
                                                         if l.events[e].readAt == None then Some(now) else l.events[e].readAt)])
  {
  }

  /** A claim wins a slot without a row, or takes over an announced one; the row then names the device and its token. */
  lemma ClaimIs(l: Ledger, slot: Slot, id: DeliveryId, device: string, token: Option<string>)
    requires Indexed(l.deliveries, l.index)
    ensures var (l', a) := Claim(l, slot, id, device, token);
            var has := slot in l.index;
            && (a.Won? <==> if has then l.deliveries[l.index[slot]].state == Pending else id !in l.deliveries)
            && (a == ClaimIdTaken <==> !has && id in l.deliveries)
            && (a.Won? ==>
                  && a.id == (if has then l.index[slot] else id)
                  && l' == l.(deliveries := l'.deliveries, index := l.index[slot := a.id])
                  && l'.deliveries == l.deliveries[a.id := Delivery(slot, Claimed, if has then l.deliveries[a.id].attempt else 0, Some(device), token)])
            && (a.Lost? ==> a.id == l.index[slot])
            && (!a.Won? ==> l' == l)
  {
    if slot in l.index {
      assert l.index[slot := l.index[slot]] == l.index;
    }
  }

  /** An announcement writes a pending row nobody owns, or answers with the row that is there. */
  lemma QueueIs(l: Ledger, slot: Slot, id: DeliveryId)
    requires Indexed(l.deliveries, l.index)
    ensures var (l', a) := Queue(l, slot, id);
            && (slot in l.index ==>
                  && l' == l
                  && a == if l.deliveries[l.index[slot]].state == Pending then Queued(l.index[slot])
                          else Already(l.deliveries[l.index[slot]].state, l.index[slot]))
            && (slot !in l.index && id in l.deliveries ==> l' == l && a == QueueIdTaken)
            && (slot !in l.index && id !in l.deliveries ==>
                  && a == Queued(id)
                  && l' == l.(deliveries := l.deliveries[id := Delivery(slot, Pending, 0, None, None)], index := l.index[slot := id]))
  {
  }

  /** Everything a report says must be so. */
  predicate Matches(l: Ledger, r: Report, row: Delivery) {
    && (r.channel == None || r.channel == Some(row.slot.channel))
    && (r.event == None || r.event == Some(row.slot.event))
    && (r.owner == None || (row.slot.event in l.events && r.owner == Some(row.slot.event.owner)))
    && (r.device == None || r.device == row.claimedBy)
  }

  /** A browser row is finalized only with the token its claim minted. */
  predicate Proves(r: Report, row: Delivery) {
    row.slot.channel == "browser" ==> row.state != Pending && r.token == row.token && row.token != None && row.token != Some("")
  }

  /** A report rewrites its row exactly when its word is one of five and everything it says matches; then it is one more attempt. */
  lemma NoteIs(l: Ledger, r: Report)
    ensures var (l', was) := Note(l, r);
            && (was.Some? <==>
                  && r.outcome in {"shown", "failed", "unknown", "enqueued", "sent"}
                  && r.id in l.deliveries && Matches(l, r, l.deliveries[r.id]) && Proves(r, l.deliveries[r.id]))
            && (was == None ==> l' == l)
            && (was.Some? ==>
                  && was.value == l.deliveries[r.id].state
                  && l' == l.(deliveries := l.deliveries[r.id := l.deliveries[r.id].(state := Reported(r.outcome), attempt := l.deliveries[r.id].attempt + 1)]))
  {
  }

  /** The server's own report: its outcome stands in a row of its channel afterwards, except on the browser, where it proves nothing. */
  lemma ServerNoteIs(l: Ledger, id: DeliveryId, outcome: string, channel: string)
    requires id in l.deliveries && outcome in {"enqueued", "failed", "unknown"}
    ensures var l' := Note(l, ServerReport(id, outcome, channel)).0;
            if channel == "browser" || l.deliveries[id].slot.channel != channel then l' == l
            else l'.deliveries == l.deliveries[id := l.deliveries[id].(state := Reported(outcome), attempt := l.deliveries[id].attempt + 1)]
  {
  }

  // ---------------------------------------------------------------- calls and tabs as events of a run

  /** A call that takes `n` more steps with nothing between them. */
  function Steps(w: NotificationDelivery.World, id: nat, accepted: Option<bool>, n: nat): NotificationDelivery.World
    decreases n
  {
    if n == 0 then w else Steps(NotificationDelivery.Apply(w, NotificationDelivery.Advance(id, accepted)), id, accepted, n - 1)
  }

  lemma {:induction false} StepsAreTheCall(w: NotificationDelivery.World, id: nat, accepted: Option<bool>, n: nat)
    requires id in w.calls && StepsLeft(w.calls[id].step) <= n
    ensures var w', call := Steps(w, id, accepted, n), w.calls[id];
            var (l, verdict, published) := WholeCall(w.ledger, call.q, call.step, accepted);
            && w'.ledger == l && id in w'.calls && w'.calls[id] == NotificationDelivery.Call(call.q, Finished(verdict))
            && w'.outputs == w.outputs + (if published then [Slot(call.q.event, call.q.phase, call.q.channel)] else [])
    decreases n
  {
    if n > 0 {
      var next := NotificationDelivery.Apply(w, NotificationDelivery.Advance(id, accepted));
      StepsAreTheCall(next, id, accepted, n - 1);
      if StepsLeft(w.calls[id].step) <= 2 && StepsLeft(w.calls[id].step) > 0 {
        LastStepsSendNothing(next.ledger, next.calls[id].q, next.calls[id].step, accepted);
      }
    }
  }

  /** Behind the output nothing is sent any more. */
  lemma LastStepsSendNothing(l: Ledger, q: Request, step: Step, accepted: Option<bool>)
    requires StepsLeft(step) <= 1
    ensures !WholeCall(l, q, step, accepted).2
  {
  }

  /** A delivery as events, with nothing between them: the same ledger and verdict as the whole call, and its output if it calls it. */
  lemma CallIsEvents(w: NotificationDelivery.World, id: nat, q: Request, accepted: Option<bool>)
    requires id !in w.calls
    ensures var w' := Steps(NotificationDelivery.Apply(w, NotificationDelivery.Begin(id, q)), id, accepted, 7);
            var (l, verdict, published) := WholeCall(w.ledger, q, Recording, accepted);
            && w'.ledger == l && id in w'.calls && w'.calls[id].step == Finished(verdict)
            && w'.outputs == w.outputs + (if published then [Slot(q.event, q.phase, q.channel)] else [])
  {
    StepsAreTheCall(NotificationDelivery.Apply(w, NotificationDelivery.Begin(id, q)), id, accepted, 7);
  }

  /** A tab may show the alert of an event of its own owner exactly when it won the claim of the first browser row. */
  lemma TabMayShow(w: NotificationDelivery.World, id: nat, owner: string, e: EventId, newId: DeliveryId, device: string, token: string)
    requires Indexed(w.ledger.deliveries, w.ledger.index) && id !in w.tabs
    ensures var w' := NotificationDelivery.Apply(w, NotificationDelivery.TabClaims(id, owner, e, newId, device, token));
            var slot := Slot(e, "initial", "browser");
            var free := if slot in w.ledger.index then w.ledger.deliveries[w.ledger.index[slot]].state == Pending else newId !in w.ledger.deliveries;
            && (id in w'.tabs <==> e in w.ledger.events && e.owner == owner && free)
            && (id in w'.tabs ==>
                  && w'.tabs[id] == slot && w'.ledger == Claim(w.ledger, slot, newId, device, Some(token)).0
                  && NotificationDelivery.Apply(w', NotificationDelivery.TabShows(id)).outputs == w.outputs + [slot])
            && (id !in w'.tabs ==> w'.tabs == w.tabs && w'.ledger == w.ledger)
  {
    ClaimIs(w.ledger, Slot(e, "initial", "browser"), newId, device, Some(token));
  }
}
