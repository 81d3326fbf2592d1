/** The ledger's tables, updated in place, and the one place that sends notifications. */
module NotificationStore {
  import opened Basics
  import opened NotificationLedger
  import opened NotificationFlow

  class Store {
    var events: map<EventId, EventRow>
    var readers: map<EventId, set<string>>
    var nextSeq: nat
    var deliveries: map<DeliveryId, Delivery>
    var index: map<Slot, DeliveryId>

    constructor ()
      ensures View() == EmptyLedger
    {
      events, readers, nextSeq, deliveries, index := map[], map[], 1, map[], map[];
    }

    ghost function View(): Ledger
      reads this
    {
      Ledger(events, readers, nextSeq, deliveries, index)
    }

    method NextSeq() returns (seqNo: nat)
      modifies this`nextSeq
      ensures seqNo == old(nextSeq) && nextSeq == old(nextSeq) + 1
    {
      seqNo := nextSeq;
      nextSeq := seqNo + 1;
    }

    method Record(event: EventId, payload: string) returns (created: bool)
      modifies this`events, this`nextSeq
      ensures View() == RecordEvent(old(View()), event, payload) && created == (event !in old(events))
    {
      if event in events {
        return false;
      }
      var seqNo := NextSeq();
      events := events[event := EventRow(seqNo, seqNo, payload, None)];
      return true;
    }

    method Read(owner: string, event: EventId, reader: string, now: real) returns (found: bool)
      modifies this`events, this`readers, this`nextSeq
      ensures (View(), found) == MarkRead(old(View()), owner, event, reader, now)
    {
      if event !in events || event.owner != owner {
        return false;
      }
      var known := if event in readers then readers[event] else {};
      if reader !in known {
        readers := readers[event := known + {reader}];
        var row := events[event];
        var seqNo := NextSeq();
        events := events[event := row.(readAt := Coalesce(row.readAt, Some(now)), changeSeq := seqNo)];
      }
      return true;
    }

    /** One row more than the limit decides the overflow. */
    method EventsAfter(owner: string, after: nat, limit: nat) returns (page: seq<EventId>, overflow: bool, cursor: nat)
      requires Stamped(View())
      ensures IsPage(View(), owner, after, limit, page, overflow, cursor)
    {
      page, cursor := [], after;
      ghost var l := View();
      var behind := set e | e in events && e.owner == owner && after < events[e].changeSeq;
      while |page| < limit && behind != {}
        invariant |page| <= limit && IsFront(l, owner, after, page, cursor) && behind == Behind(l, owner, cursor)
      {
        var first := LeastOf(events, behind);
        var next: EventId :| next in behind && forall e | e in behind :: events[next].changeSeq <= events[e].changeSeq;
        FrontGrows(l, owner, after, page, cursor, next);
        page, cursor := page + [next], events[next].changeSeq;
        behind := set e | e in events && e.owner == owner && cursor < events[e].changeSeq;
      }
      overflow := behind != {};
      BehindShows(l, owner, cursor);
    }

    method ClaimSlot(slot: Slot, id: DeliveryId, device: string, token: Option<string>) returns (answer: ClaimAnswer)
      modifies this`deliveries, this`index
      ensures (View(), answer) == Claim(old(View()), slot, id, device, token)
    {
      if slot !in index || index[slot] !in deliveries {
        if id in deliveries {
          return ClaimIdTaken;
        }
        deliveries := deliveries[id := Delivery(slot, Claimed, 0, Some(device), token)];
        index := index[slot := id];
        return Won(id);
      }
      var taken := index[slot];
      var row := deliveries[taken];
      if row.state == Pending {
        deliveries := deliveries[taken := row.(state := Claimed, claimedBy := Some(device), token := token)];
        return Won(taken);
      }
      return Lost(taken);
    }

    method QueueSlot(slot: Slot, id: DeliveryId) returns (answer: QueueAnswer)
      modifies this`deliveries, this`index
      ensures (View(), answer) == Queue(old(View()), slot, id)
    {
      if slot in index && index[slot] in deliveries {
        var state := deliveries[index[slot]].state;
        return if state == Pending then Queued(index[slot]) else Already(state, index[slot]);
      }
      if id in deliveries {
        return QueueIdTaken;
      }
      deliveries := deliveries[id := Delivery(slot, Pending, 0, None, None)];
      index := index[slot := id];
      return Queued(id);
    }

    method NoteOutcome(r: Report) returns (state: Option<State>)
      modifies this`deliveries
      ensures (View(), state) == Note(old(View()), r)
    {
      if !Reportable(r.outcome) || r.id !in deliveries {
        return None;
      }
      var row := deliveries[r.id];
      if r.channel.Some? && row.slot.channel != r.channel.value {
        return None;
      }
      if r.event.Some? && row.slot.event != r.event.value {
        return None;
      }
      if r.owner.Some? && (row.slot.event !in events || row.slot.event.owner != r.owner.value) {
        return None;
      }
      if r.device.Some? && row.claimedBy != r.device {
        return None;
      }
      if row.slot.channel == "browser" {
        if row.state == Pending || !Truthy(row.token) {
          return None;
        }
        if !Truthy(r.token) || r.token != row.token {
          return None;
        }
      }
      deliveries := deliveries[r.id := row.(state := Reported(r.outcome), attempt := row.attempt + 1)];
      return Some(row.state);
    }

    /** Some other channel already has a row for the event, in any phase, and may not run beside this one. */
    method OtherChannel(q: Request) returns (other: bool)
      ensures other <==> RoutedElsewhere(View(), q)
    {
      other := exists d :: d in deliveries && Elsewhere(deliveries[d], q);
    }

    method Check(q: Request) returns (stop: Option<string>)
      ensures stop == Preflight(View(), q)
    {
      if Silent(q.event.kind) {
        return Some("recorded");
      }
      if q.event in readers && readers[q.event] != {} {
        return Some("suppressed_read");
      }
      var slot := SlotOf(q);
      if slot in index && index[slot] in deliveries && deliveries[index[slot]].state != Pending {
        return Some("already_" + NameOf(deliveries[index[slot]].state));
      }
      var other := OtherChannel(q);
      return if other then Some("already_claimed_other_channel") else None;
    }

    /** One whole delivery without interruption; `published` says whether the output was called. */
    method Deliver(q: Request, accepted: Option<bool>) returns (verdict: string, published: bool)
      modifies this
      ensures (View(), verdict, published) == WholeCall(old(View()), q, Recording, accepted)
    {
      WholeCallChecksFirst(View(), q, accepted);
      var created := Record(q.event, q.payload);
      var stop := Check(q);
      if stop.Some? {
        return stop.value, false;
      }
      verdict, published := Send(q, accepted);
    }

    /** Claims the slot before the output is called, then notes how it went. */
    method Send(q: Request, accepted: Option<bool>) returns (verdict: string, published: bool)
      modifies this`deliveries, this`index
      ensures (View(), verdict, published) == WholeCall(old(View()), q, Claiming, accepted)
    {
      if q.channel == "browser" && !q.publishes {
        var queued := QueueSlot(SlotOf(q), q.newId);
        return QueueVerdict(queued), false;
      }
      var claim := ClaimSlot(SlotOf(q), q.newId, "server", None);
      if !claim.Won? {
        return if claim.Lost? then "already_claimed" else "error", false;
      }
      var outcome := OutcomeOf(q, accepted);
      SendsOnce(View(), q, claim.id, accepted);
      var noted := NoteOutcome(ServerReport(claim.id, outcome, q.channel));
      return outcome, q.publishes;
    }
  }
}
