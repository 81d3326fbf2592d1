/**
 The notification ledger: events with a change sequence, who read them, and one delivery row per event,
 phase and channel. Every operation is one transaction, given as a function of the whole ledger.
 */
module NotificationLedger {
  import opened Basics

  type DeliveryId = string

  /** The hash of owner scope, run, kind and source id, taken to be injective. */
  datatype EventId = EventId(owner: string, run: string, kind: string, source: string)

  datatype EventRow = EventRow(createdSeq: nat, changeSeq: nat, payload: string, readAt: Option<real>)

  datatype Slot = Slot(event: EventId, phase: string, channel: string)

  datatype State = Pending | Claimed | Reported(outcome: string)

  datatype Delivery = Delivery(slot: Slot, state: State, attempt: nat, claimedBy: Option<string>, token: Option<string>)

  /** `index` is the unique index over event, phase and channel. */
  datatype Ledger = Ledger(events: map<EventId, EventRow>, readers: map<EventId, set<string>>, nextSeq: nat,
                           deliveries: map<DeliveryId, Delivery>, index: map<Slot, DeliveryId>)

  const EmptyLedger := Ledger(map[], map[], 1, map[], map[])

  function ReadersOf(l: Ledger, event: EventId): set<string> {
    if event in l.readers then l.readers[event] else {}
  }

  // ---------------------------------------------------------------- events and reads

  /** Idempotent append. */
  function RecordEvent(l: Ledger, event: EventId, payload: string): Ledger {
    if event in l.events then l
    else l.(events := l.events[event := EventRow(l.nextSeq, l.nextSeq, payload, None)], nextSeq := l.nextSeq + 1)
  }

  /** A reader's first acknowledgement stamps the event anew; any later one changes nothing. */
  function MarkRead(l: Ledger, owner: string, event: EventId, reader: string, now: real): (Ledger, bool) {
    if event !in l.events || event.owner != owner then (l, false)
    else if reader in ReadersOf(l, event) then (l, true)
    else
      var row := l.events[event];
      (l.(readers := l.readers[event := ReadersOf(l, event) + {reader}],
          events := l.events[event := row.(readAt := Coalesce(row.readAt, Some(now)), changeSeq := l.nextSeq)],
          nextSeq := l.nextSeq + 1), true)
  }

  predicate Own(l: Ledger, owner: string, event: EventId) {
    event in l.events && event.owner == owner
  }

  /** The first own events behind a cursor: in strict order of change, nothing left out up to the new cursor. */
  ghost predicate IsFront(l: Ledger, owner: string, after: nat, page: seq<EventId>, cursor: nat) {
    && after <= cursor
    && (forall i | 0 <= i < |page| :: Own(l, owner, page[i]) && after < l.events[page[i]].changeSeq <= cursor)
    && (forall i, j | 0 <= i < j < |page| :: l.events[page[i]].changeSeq < l.events[page[j]].changeSeq)
    && (forall e | Own(l, owner, e) && after < l.events[e].changeSeq <= cursor :: e in page)
    && cursor == if page == [] then after else l.events[page[|page| - 1]].changeSeq
  }

  /** One page: a front of what is behind the cursor, with an overflow exactly when something is left behind it. */
  ghost predicate IsPage(l: Ledger, owner: string, after: nat, limit: nat, page: seq<EventId>, overflow: bool, cursor: nat) {
    && IsFront(l, owner, after, page, cursor) && |page| <= limit
    && (overflow <==> exists e :: Own(l, owner, e) && cursor < l.events[e].changeSeq)
    && (overflow ==> |page| == limit)
  }

  // ---------------------------------------------------------------- deliveries

  function RowAt(l: Ledger, slot: Slot): Option<Delivery> {
    if slot in l.index && l.index[slot] in l.deliveries then Some(l.deliveries[l.index[slot]]) else None
  }

  datatype ClaimAnswer = Won(id: DeliveryId) | Lost(id: DeliveryId) | ClaimIdTaken

  /** The first claimer of a slot wins; a row that only announces the delivery is taken over. */
  function Claim(l: Ledger, slot: Slot, id: DeliveryId, device: string, token: Option<string>): (Ledger, ClaimAnswer) {
    if RowAt(l, slot).None? then
      if id in l.deliveries then (l, ClaimIdTaken)
      else (l.(deliveries := l.deliveries[id := Delivery(slot, Claimed, 0, Some(device), token)], index := l.index[slot := id]), Won(id))
    else
      var taken, row := l.index[slot], l.deliveries[l.index[slot]];
      if row.state == Pending
      then (l.(deliveries := l.deliveries[taken := row.(state := Claimed, claimedBy := Some(device), token := token)]), Won(taken))
      else (l, Lost(taken))
  }

  datatype QueueAnswer = Queued(id: DeliveryId) | Already(state: State, id: DeliveryId) | QueueIdTaken

  /** Announces a delivery for a device to claim, without claiming it. */
  function Queue(l: Ledger, slot: Slot, id: DeliveryId): (Ledger, QueueAnswer) {
    if RowAt(l, slot).Some? then
      (l, if RowAt(l, slot).value.state == Pending then Queued(l.index[slot]) else Already(RowAt(l, slot).value.state, l.index[slot]))
    else if id in l.deliveries then (l, QueueIdTaken)
    else (l.(deliveries := l.deliveries[id := Delivery(slot, Pending, 0, None, None)], index := l.index[slot := id]), Queued(id))
  }

  predicate Reportable(outcome: string) {
    outcome == "shown" || outcome == "failed" || outcome == "unknown" || outcome == "enqueued" || outcome == "sent"
  }

  /** A report about one delivery; None where the reporter does not say. */
  datatype Report = Report(id: DeliveryId, outcome: string, channel: Option<string>, event: Option<EventId>, owner: Option<string>,
                           device: Option<string>, token: Option<string>)

  /** Everything the reporter does say must match the row; a browser row also wants the token of its claim. */
  predicate Believed(l: Ledger, r: Report) {
    && Reportable(r.outcome) && r.id in l.deliveries
    && var row := l.deliveries[r.id];
       && (r.channel.Some? ==> row.slot.channel == r.channel.value)
       && (r.event.Some? ==> row.slot.event == r.event.value)
       && (r.owner.Some? ==> row.slot.event in l.events && row.slot.event.owner == r.owner.value)
       && (r.device.Some? ==> row.claimedBy == r.device)
       && (row.slot.channel == "browser" ==> row.state != Pending && Truthy(row.token) && r.token == row.token)
  }

  /** The state the row had, or None when the report is not believed. */
  function Note(l: Ledger, r: Report): (Ledger, Option<State>) {
    if !Believed(l, r) then (l, None)
    else
      var row := l.deliveries[r.id];
      (l.(deliveries := l.deliveries[r.id := row.(state := Reported(r.outcome), attempt := row.attempt + 1)]), Some(row.state))
  }

  // ---------------------------------------------------------------- what every transaction keeps

  /** Change numbers are distinct and below the next one. */
  ghost predicate Ordered(events: map<EventId, EventRow>, nextSeq: nat) {
    && 1 <= nextSeq
    && (forall e | e in events :: 1 <= events[e].createdSeq <= events[e].changeSeq < nextSeq)
    && (forall a, b | a in events && b in events && a != b :: events[a].changeSeq != events[b].changeSeq)
  }

  /** An event has a read time exactly when someone acknowledged it. */
  ghost predicate ReadTimes(events: map<EventId, EventRow>, readers: map<EventId, set<string>>) {
    && readers.Keys <= events.Keys
    && (forall e | e in events :: events[e].readAt.Some? <==> e in readers && readers[e] != {})
  }

  ghost predicate Stamped(l: Ledger) {
    Ordered(l.events, l.nextSeq) && ReadTimes(l.events, l.readers)
  }

  /** Whatever became new since has a change number the earlier ledger had not given out yet. */
  ghost predicate Grows(l: Ledger, l': Ledger) {
    && l.nextSeq <= l'.nextSeq && l.events.Keys <= l'.events.Keys
    && (forall e | e in l.events :: l'.events[e].createdSeq == l.events[e].createdSeq && l'.events[e].payload == l.events[e].payload)
    && (forall e | e in l'.events && l'.events[e].changeSeq < l.nextSeq ::
          e in l.events && l'.events[e] == l.events[e] && ReadersOf(l', e) == ReadersOf(l, e))
  }

  lemma StampKeepsOrder(events: map<EventId, EventRow>, nextSeq: nat, e: EventId, row: EventRow)
    requires Ordered(events, nextSeq) && row.changeSeq == nextSeq && 1 <= row.createdSeq <= nextSeq
    ensures Ordered(events[e := row], nextSeq + 1)
  {
  }

  lemma RecordKeeps(l: Ledger, event: EventId, payload: string)
    requires Stamped(l)
    ensures Stamped(RecordEvent(l, event, payload)) && Grows(l, RecordEvent(l, event, payload))
  {
    if event !in l.events {
      StampKeepsOrder(l.events, l.nextSeq, event, EventRow(l.nextSeq, l.nextSeq, payload, None));
    }
  }

  lemma MarkReadGrows(l: Ledger, owner: string, event: EventId, reader: string, now: real)
    ensures Grows(l, MarkRead(l, owner, event, reader, now).0)
  {
  }

  lemma MarkReadKeeps(l: Ledger, owner: string, event: EventId, reader: string, now: real)
    requires Stamped(l)
    ensures Stamped(MarkRead(l, owner, event, reader, now).0)
    ensures MarkRead(l, owner, event, reader, now).1 <==> Own(l, owner, event)
    ensures Own(l, owner, event) ==> reader in ReadersOf(MarkRead(l, owner, event, reader, now).0, event)
  {
    if Own(l, owner, event) && reader !in ReadersOf(l, event) {
      var row := l.events[event].(readAt := Coalesce(l.events[event].readAt, Some(now)), changeSeq := l.nextSeq);
      StampKeepsOrder(l.events, l.nextSeq, event, row);
      assert ReadTimes(l.events[event := row], l.readers[event := ReadersOf(l, event) + {reader}]);
    }
  }

  /** Acknowledging twice is acknowledging once: no second stamp. */
  lemma MarkReadTwice(l: Ledger, owner: string, event: EventId, reader: string, now: real, later: real)
    ensures var l' := MarkRead(l, owner, event, reader, now).0;
            MarkRead(l', owner, event, reader, later) == (l', Own(l, owner, event))
  {
  }

  /** The index names exactly the row of every slot. */
  ghost predicate Indexed(deliveries: map<DeliveryId, Delivery>, index: map<Slot, DeliveryId>) {
    && (forall s | s in index :: index[s] in deliveries && deliveries[index[s]].slot == s)
    && (forall d | d in deliveries :: deliveries[d].slot in index && index[deliveries[d].slot] == d)
  }

  lemma ClaimKeepsIndex(l: Ledger, slot: Slot, id: DeliveryId, device: string, token: Option<string>)
    requires Indexed(l.deliveries, l.index)
    ensures Indexed(Claim(l, slot, id, device, token).0.deliveries, Claim(l, slot, id, device, token).0.index)
  {
  }

  lemma QueueKeepsIndex(l: Ledger, slot: Slot, id: DeliveryId)
    requires Indexed(l.deliveries, l.index)
    ensures Indexed(Queue(l, slot, id).0.deliveries, Queue(l, slot, id).0.index)
  {
  }

  lemma NoteKeepsIndex(l: Ledger, r: Report)
    requires Indexed(l.deliveries, l.index)
    ensures Indexed(Note(l, r).0.deliveries, Note(l, r).0.index)
  {
  }

  /** A claim is won once: whoever comes after the winner loses, whatever it brings and whatever is reported meanwhile. */
  lemma SecondClaimLoses(l: Ledger, slot: Slot, id: DeliveryId, device: string, token: Option<string>,
                         id': DeliveryId, device': string, token': Option<string>, r: Report)
    requires Indexed(l.deliveries, l.index) && Claim(l, slot, id, device, token).1.Won?
    ensures var l' := Claim(l, slot, id, device, token).0;
            && slot in l'.index && Claim(l', slot, id', device', token') == (l', Lost(l'.index[slot]))
            && Claim(Note(l', r).0, slot, id', device', token').1.Lost?
  {
    ClaimKeepsIndex(l, slot, id, device, token);
    var l' := Claim(l, slot, id, device, token).0;
    assert l'.deliveries[l'.index[slot]].state == Claimed;
  }

  // ---------------------------------------------------------------- page facts

  /** Among some events one changed first. */
  lemma {:induction false} LeastOf(events: map<EventId, EventRow>, todo: set<EventId>) returns (least: EventId)
    requires todo != {} && todo <= events.Keys
    ensures least in todo && forall e | e in todo :: events[least].changeSeq <= events[e].changeSeq
    decreases |todo|
  {
    var e :| e in todo;
    var rest := todo - {e};
    if rest == {} {
      least := e;
    } else {
      least := LeastOf(events, rest);
      if events[e].changeSeq < events[least].changeSeq { least := e; }
    }
    forall x | x in todo
      ensures events[least].changeSeq <= events[x].changeSeq
    {
      assert x == e || x in rest;
    }
  }

  lemma FrontGrows(l: Ledger, owner: string, after: nat, page: seq<EventId>, cursor: nat, next: EventId)
    requires Stamped(l) && IsFront(l, owner, after, page, cursor) && Own(l, owner, next) && cursor < l.events[next].changeSeq
    requires forall e | Own(l, owner, e) && cursor < l.events[e].changeSeq :: l.events[next].changeSeq <= l.events[e].changeSeq
    ensures IsFront(l, owner, after, page + [next], l.events[next].changeSeq)
  {
    forall e | Own(l, owner, e) && after < l.events[e].changeSeq <= l.events[next].changeSeq
      ensures e in page + [next]
    {
      if cursor < l.events[e].changeSeq {
        assert l.events[e].changeSeq == l.events[next].changeSeq;
      } else {
        assert e in page;
      }
    }
  }

  function Behind(l: Ledger, owner: string, cursor: nat): set<EventId> {
    set e | e in l.events && e.owner == owner && cursor < l.events[e].changeSeq
  }

  lemma BehindShows(l: Ledger, owner: string, cursor: nat)
    ensures Behind(l, owner, cursor) != {} <==> exists e :: Own(l, owner, e) && cursor < l.events[e].changeSeq
  {
    if Behind(l, owner, cursor) != {} {
      var e :| e in Behind(l, owner, cursor);
      assert Own(l, owner, e);
    } else {
      assert forall e | Own(l, owner, e) && cursor < l.events[e].changeSeq :: e in Behind(l, owner, cursor);
    }
  }
}
