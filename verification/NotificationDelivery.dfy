/**
 Many deliveries at once: server calls that stop anywhere, devices that claim the browser alert, and
 reports from anyone, in any order. An output is the moment an alert leaves, on the server or in a tab.
 */
module NotificationDelivery {
  import opened Basics
  import opened NotificationLedger
  import opened NotificationFlow

  datatype Call = Call(q: Request, step: Step)

  /** A won claim: whoever won may call the output for the slot. */
  datatype Grant = Grant(slot: Slot, device: string, token: Option<string>)

  datatype World = World(ledger: Ledger, calls: map<nat, Call>, tabs: map<nat, Slot>, grants: seq<Grant>, outputs: seq<Slot>)

  const Start := World(EmptyLedger, map[], map[], [], [])

  datatype Event =
    | Begin(id: nat, q: Request)
    | Advance(id: nat, accepted: Option<bool>)
    | TabClaims(id: nat, owner: string, event: EventId, newId: DeliveryId, device: string, token: string)
    | TabShows(id: nat)
    | TabCloses(id: nat)
    | Anyone(r: Report)
    | IsRead(owner: string, event: EventId, reader: string, now: real)
    | Crash

  function Advanced(w: World, id: nat, accepted: Option<bool>): World
    requires id in w.calls
  {
    var c := w.calls[id];
    var (l, step) := StepCall(w.ledger, c.q, c.step, accepted);
    World(l, w.calls[id := Call(c.q, step)], w.tabs,
          if c.step.Claiming? && step.Publishing? then w.grants + [Grant(SlotOf(c.q), "server", None)] else w.grants,
          if c.step.Publishing? && c.q.publishes then w.outputs + [SlotOf(c.q)] else w.outputs)
  }

  function TabSlot(event: EventId): Slot {
    Slot(event, "initial", "browser")
  }

  /** The check that the event is unread is an earlier transaction, so it promises nothing here. */
  function Apply(w: World, e: Event): World {
    match e
    case Begin(id, q) => if id in w.calls then w else w.(calls := w.calls[id := Call(q, Recording)])
    case Advance(id, accepted) => if id in w.calls then Advanced(w, id, accepted) else w
    case TabClaims(id, owner, event, newId, device, token) =>
      if id in w.tabs || !Own(w.ledger, owner, event) then w
      else
        var (l, a) := Claim(w.ledger, TabSlot(event), newId, device, Some(token));
        if a.Won? then w.(ledger := l, tabs := w.tabs[id := TabSlot(event)], grants := w.grants + [Grant(TabSlot(event), device, Some(token))])
        else w.(ledger := l)
    case TabShows(id) => if id in w.tabs then w.(tabs := w.tabs - {id}, outputs := w.outputs + [w.tabs[id]]) else w
    case TabCloses(id) => w.(tabs := w.tabs - {id})
    case Anyone(r) => w.(ledger := Note(w.ledger, r).0)
    case IsRead(owner, event, reader, now) => w.(ledger := MarkRead(w.ledger, owner, event, reader, now).0)
    case Crash => w.(calls := map[])
  }

  function Run(es: seq<Event>): World {
    if es == [] then Start else Apply(Run(es[..|es| - 1]), es[|es| - 1])
  }

  // ---------------------------------------------------------------- the invariant

  /** Every grant has its row, no two share a slot, and the row remembers who won and with which token. */
  ghost predicate Granted(l: Ledger, grants: seq<Grant>) {
    && (forall i | 0 <= i < |grants| ::
          var row := RowAt(l, grants[i].slot);
          row.Some? && row.value.state != Pending && row.value.claimedBy == Some(grants[i].device) && row.value.token == grants[i].token)
    && (forall i, j | 0 <= i < j < |grants| :: grants[i].slot != grants[j].slot)
  }

  /** Whatever is past pending was granted. */
  ghost predicate AllGranted(l: Ledger, grants: seq<Grant>) {
    forall d | d in l.deliveries && l.deliveries[d].state != Pending :: HasGrant(grants, l.deliveries[d].slot)
  }

  predicate HasGrant(grants: seq<Grant>, slot: Slot) {
    exists i :: 0 <= i < |grants| && grants[i].slot == slot
  }

  /** A reported browser row was claimed with a token. */
  ghost predicate TokensProved(l: Ledger) {
    forall d | d in l.deliveries && l.deliveries[d].slot.channel == "browser" && l.deliveries[d].state.Reported? ::
      Truthy(l.deliveries[d].token)
  }

  /** Only the browser channel announces deliveries without claiming them. */
  ghost predicate PendingIsBrowser(l: Ledger) {
    forall d | d in l.deliveries && l.deliveries[d].state == Pending :: l.deliveries[d].slot.channel == "browser"
  }

  datatype Holder = Server(id: nat) | Tab(id: nat)

  /** Who may still call the output of which slot. */
  predicate Holds(w: World, h: Holder, slot: Slot) {
    match h
    case Server(id) => id in w.calls && w.calls[id].step.Publishing? && SlotOf(w.calls[id].q) == slot
    case Tab(id) => id in w.tabs && w.tabs[id] == slot
  }

  /** Each slot is held at most once, only by grant, and not any more once its output was called. */
  ghost predicate HeldOnce(w: World) {
    && (forall h, slot | Holds(w, h, slot) :: HasGrant(w.grants, slot) && slot !in w.outputs)
    && (forall h, k, slot | Holds(w, h, slot) && Holds(w, k, slot) :: h == k)
    && (forall s | s in w.outputs :: HasGrant(w.grants, s))
    && (forall i, j | 0 <= i < j < |w.outputs| :: w.outputs[i] != w.outputs[j])
  }

  ghost predicate LedgerInv(l: Ledger, grants: seq<Grant>) {
    Indexed(l.deliveries, l.index) && Granted(l, grants) && AllGranted(l, grants) && TokensProved(l) && PendingIsBrowser(l)
  }

  // ---------------------------------------------------------------- transactions keep it

  lemma WonIsNew(l: Ledger, grants: seq<Grant>, slot: Slot, id: DeliveryId, device: string, token: Option<string>)
    requires Granted(l, grants) && Claim(l, slot, id, device, token).1.Won?
    ensures !HasGrant(grants, slot)
  {
  }

  lemma ClaimKeepsGranted(l: Ledger, grants: seq<Grant>, slot: Slot, id: DeliveryId, device: string, token: Option<string>)
    requires Indexed(l.deliveries, l.index) && Granted(l, grants) && Claim(l, slot, id, device, token).1.Won?
    ensures Granted(Claim(l, slot, id, device, token).0, grants + [Grant(slot, device, token)])
  {
    WonIsNew(l, grants, slot, id, device, token);
    var l' := Claim(l, slot, id, device, token).0;
    forall i | 0 <= i < |grants|
      ensures grants[i].slot != slot && RowAt(l', grants[i].slot) == RowAt(l, grants[i].slot)
    {
      assert HasGrant(grants, grants[i].slot);
    }
  }

  lemma ClaimKeepsAll(l: Ledger, grants: seq<Grant>, slot: Slot, id: DeliveryId, device: string, token: Option<string>)
    requires Indexed(l.deliveries, l.index) && AllGranted(l, grants) && TokensProved(l) && Claim(l, slot, id, device, token).1.Won?
    ensures AllGranted(Claim(l, slot, id, device, token).0, grants + [Grant(slot, device, token)])
    ensures TokensProved(Claim(l, slot, id, device, token).0)
  {
    var l', more := Claim(l, slot, id, device, token).0, grants + [Grant(slot, device, token)];
    forall d | d in l'.deliveries && l'.deliveries[d].state != Pending
      ensures HasGrant(more, l'.deliveries[d].slot)
    {
      if l'.deliveries[d].slot == slot {
        assert more[|grants|].slot == slot;
      } else {
        var i :| 0 <= i < |grants| && grants[i].slot == l.deliveries[d].slot;
        assert more[i].slot == l'.deliveries[d].slot;
      }
    }
  }

  lemma ClaimKeepsLedger(l: Ledger, grants: seq<Grant>, slot: Slot, id: DeliveryId, device: string, token: Option<string>)
    requires LedgerInv(l, grants)
    ensures var (l', a) := Claim(l, slot, id, device, token);
            if a.Won? then LedgerInv(l', grants + [Grant(slot, device, token)]) && !HasGrant(grants, slot) else l' == l
  {
    if Claim(l, slot, id, device, token).1.Won? {
      ClaimKeepsIndex(l, slot, id, device, token);
      WonIsNew(l, grants, slot, id, device, token);
      ClaimKeepsGranted(l, grants, slot, id, device, token);
      ClaimKeepsAll(l, grants, slot, id, device, token);
    }
  }

  lemma QueueKeepsLedger(l: Ledger, grants: seq<Grant>, slot: Slot, id: DeliveryId)
    requires LedgerInv(l, grants) && slot.channel == "browser"
    ensures LedgerInv(Queue(l, slot, id).0, grants)
  {
    QueueKeepsIndex(l, slot, id);
    var l' := Queue(l, slot, id).0;
    assert Granted(l', grants) by {
      forall i | 0 <= i < |grants|
        ensures RowAt(l', grants[i].slot) == RowAt(l, grants[i].slot)
      {
      }
    }
  }

  lemma NoteKeepsLedger(l: Ledger, grants: seq<Grant>, r: Report)
    requires LedgerInv(l, grants)
    ensures LedgerInv(Note(l, r).0, grants)
  {
    NoteKeepsIndex(l, r);
    var l' := Note(l, r).0;
    assert Granted(l', grants) by {
      forall i | 0 <= i < |grants|
        ensures var row, row' := RowAt(l, grants[i].slot).value, RowAt(l', grants[i].slot).value;
                RowAt(l', grants[i].slot).Some? && row'.state != Pending && row'.claimedBy == row.claimedBy && row'.token == row.token
      {
      }
    }
  }

  lemma EventsKeepLedger(l: Ledger, l': Ledger, grants: seq<Grant>)
    requires LedgerInv(l, grants) && l'.deliveries == l.deliveries && l'.index == l.index
    ensures LedgerInv(l', grants)
  {
    assert Granted(l', grants) by {
      forall i | 0 <= i < |grants|
        ensures RowAt(l', grants[i].slot) == RowAt(l, grants[i].slot)
      {
      }
    }
  }

  lemma AdvanceKeepsLedger(w: World, id: nat, accepted: Option<bool>)
    requires LedgerInv(w.ledger, w.grants) && id in w.calls
    ensures LedgerInv(Advanced(w, id, accepted).ledger, Advanced(w, id, accepted).grants)
    ensures Advanced(w, id, accepted).grants == w.grants
         || (w.calls[id].step.Claiming? && !HasGrant(w.grants, SlotOf(w.calls[id].q)))
  {
    var q := w.calls[id].q;
    match w.calls[id].step
    case Recording => EventsKeepLedger(w.ledger, RecordEvent(w.ledger, q.event, q.payload), w.grants);
    case Claiming =>
      if q.channel == "browser" && !q.publishes { QueueKeepsLedger(w.ledger, w.grants, SlotOf(q), q.newId); }
      else { ClaimKeepsLedger(w.ledger, w.grants, SlotOf(q), q.newId, "server", None); }
    case Noting(row, outcome) => NoteKeepsLedger(w.ledger, w.grants, ServerReport(row, outcome, q.channel));
    case _ =>
  }

  // ---------------------------------------------------------------- who holds what

  lemma GrantMore(grants: seq<Grant>, g: Grant)
    ensures HasGrant(grants + [g], g.slot)
    ensures forall s | HasGrant(grants, s) :: HasGrant(grants + [g], s)
    ensures forall s | HasGrant(grants + [g], s) :: HasGrant(grants, s) || s == g.slot
  {
    assert (grants + [g])[|grants|] == g;
    forall s | HasGrant(grants, s)
      ensures HasGrant(grants + [g], s)
    {
      var i :| 0 <= i < |grants| && grants[i].slot == s;
      assert (grants + [g])[i].slot == s;
    }
  }

  /** Nobody new holds anything, and every grant and output stays. */
  lemma HeldLess(w: World, w': World)
    requires HeldOnce(w) && w'.outputs == w.outputs && w'.grants == w.grants
    requires forall h, slot | Holds(w', h, slot) :: Holds(w, h, slot)
    ensures HeldOnce(w')
  {
  }

  /** A new holder takes a slot nobody was granted. */
  lemma HeldMore(w: World, w': World, g: Grant, holder: Holder)
    requires HeldOnce(w) && w'.outputs == w.outputs && w'.grants == w.grants + [g] && !HasGrant(w.grants, g.slot)
    requires forall h, slot | Holds(w', h, slot) :: Holds(w, h, slot) || (h == holder && slot == g.slot)
    ensures HeldOnce(w')
  {
    GrantMore(w.grants, g);
  }

  /** A holder calls its output and lets go. */
  lemma HeldShown(w: World, w': World, holder: Holder, slot: Slot)
    requires HeldOnce(w) && Holds(w, holder, slot) && w'.outputs == w.outputs + [slot] && w'.grants == w.grants
    requires forall h, s | Holds(w', h, s) :: Holds(w, h, s) && h != holder
    ensures HeldOnce(w')
  {
  }

  lemma AdvanceKeepsHeld(w: World, id: nat, accepted: Option<bool>)
    requires HeldOnce(w) && LedgerInv(w.ledger, w.grants) && id in w.calls
    ensures HeldOnce(Advanced(w, id, accepted))
  {
    var w', c := Advanced(w, id, accepted), w.calls[id];
    if c.step.Claiming? && w'.calls[id].step.Publishing? {
      ClaimKeepsLedger(w.ledger, w.grants, SlotOf(c.q), c.q.newId, "server", None);
      HeldMore(w, w', Grant(SlotOf(c.q), "server", None), Server(id));
    } else if c.step.Publishing? && c.q.publishes {
      assert Holds(w, Server(id), SlotOf(c.q));
      HeldShown(w, w', Server(id), SlotOf(c.q));
    } else {
      HeldLess(w, w');
    }
  }

  lemma StepKeepsLedger(w: World, e: Event)
    requires LedgerInv(w.ledger, w.grants)
    ensures LedgerInv(Apply(w, e).ledger, Apply(w, e).grants)
  {
    match e
    case Advance(id, accepted) => if id in w.calls { AdvanceKeepsLedger(w, id, accepted); }
    case TabClaims(id, owner, event, newId, device, token) =>
      ClaimKeepsLedger(w.ledger, w.grants, TabSlot(event), newId, device, Some(token));
    case Anyone(r) => NoteKeepsLedger(w.ledger, w.grants, r);
    case IsRead(owner, event, reader, now) => EventsKeepLedger(w.ledger, Apply(w, e).ledger, w.grants);
    case _ =>
  }

  lemma StepKeepsHeld(w: World, e: Event)
    requires HeldOnce(w) && LedgerInv(w.ledger, w.grants)
    ensures HeldOnce(Apply(w, e))
  {
    match e
    case Advance(id, accepted) => if id in w.calls { AdvanceKeepsHeld(w, id, accepted); }
    case TabClaims(id, owner, event, newId, device, token) =>
      ClaimKeepsLedger(w.ledger, w.grants, TabSlot(event), newId, device, Some(token));
      if Apply(w, e).grants != w.grants { HeldMore(w, Apply(w, e), Grant(TabSlot(event), device, Some(token)), Tab(id)); }
      else { HeldLess(w, Apply(w, e)); }
    case TabShows(id) =>
      if id in w.tabs {
        assert Holds(w, Tab(id), w.tabs[id]);
        HeldShown(w, Apply(w, e), Tab(id), w.tabs[id]);
      }
    case _ => HeldLess(w, Apply(w, e));
  }

  lemma {:induction false} RunHolds(es: seq<Event>)
    ensures LedgerInv(Run(es).ledger, Run(es).grants) && HeldOnce(Run(es))
  {
    if es != [] {
      RunHolds(es[..|es| - 1]);
      StepKeepsLedger(Run(es[..|es| - 1]), es[|es| - 1]);
      StepKeepsHeld(Run(es[..|es| - 1]), es[|es| - 1]);
    }
  }

  // ---------------------------------------------------------------- the promises

  /**
   Over any interleaving of deliveries, tabs, reports, reads and crashes, the output is called at most
   once for each event, phase and channel, and never without the one claim that was won for it.
   */
  lemma OutputAtMostOnce(es: seq<Event>)
    ensures var w := Run(es);
            && (forall i, j | 0 <= i < j < |w.outputs| :: w.outputs[i] != w.outputs[j])
            && (forall s | s in w.outputs :: HasGrant(w.grants, s))
            && (forall i, j | 0 <= i < j < |w.grants| :: w.grants[i].slot != w.grants[j].slot)
  {
    RunHolds(es);
  }

  /** The one grant of a slot. */
  lemma GrantOfRow(es: seq<Event>, d: DeliveryId) returns (g: Grant)
    requires d in Run(es).ledger.deliveries && Run(es).ledger.deliveries[d].state != Pending
    ensures var row := Run(es).ledger.deliveries[d];
            g in Run(es).grants && g.slot == row.slot && row.claimedBy == Some(g.device) && row.token == g.token
  {
    RunHolds(es);
    var w := Run(es);
    var i :| 0 <= i < |w.grants| && w.grants[i].slot == w.ledger.deliveries[d].slot;
    g := w.grants[i];
  }

  /**
   A browser row is only ever rewritten by a report that presents, with its non-empty token, the token of
   the single claim that was won for the row.
   */
  lemma FinalizedByTheWinner(es: seq<Event>, e: Event, d: DeliveryId)
    ensures var w, after := Run(es), Apply(Run(es), e).ledger.deliveries;
            d in w.ledger.deliveries && w.ledger.deliveries[d].slot.channel == "browser"
            && d in after && after[d].state.Reported? && after[d] != w.ledger.deliveries[d] ==>
              e.Anyone? && e.r.id == d && Truthy(e.r.token) && PresentsTheGrant(w, d, e.r)
  {
    var w, after := Run(es), Apply(Run(es), e).ledger.deliveries;
    if d in w.ledger.deliveries && w.ledger.deliveries[d].slot.channel == "browser"
       && d in after && after[d].state.Reported? && after[d] != w.ledger.deliveries[d] {
      OnlyReportsFinalize(w, e, d);
      var g := GrantOfRow(es, d);
    }
  }

  /** A report carries the token, and the device if it names one, of the grant of the row's slot. */
  ghost predicate PresentsTheGrant(w: World, d: DeliveryId, r: Report)
    requires d in w.ledger.deliveries
  {
    exists g | g in w.grants :: g.slot == w.ledger.deliveries[d].slot && g.token == r.token && (r.device.Some? ==> r.device.value == g.device)
  }

  /** A transaction of a call leaves a browser row alone or claims it. */
  lemma CallsNeverFinalize(l: Ledger, q: Request, step: Step, accepted: Option<bool>, d: DeliveryId)
    requires d in l.deliveries && l.deliveries[d].slot.channel == "browser"
    ensures var l' := StepCall(l, q, step, accepted).0;
            d in l'.deliveries && (l'.deliveries[d] == l.deliveries[d] || l'.deliveries[d].state == Claimed)
  {
  }

  lemma OnlyReportsFinalize(w: World, e: Event, d: DeliveryId)
    requires d in w.ledger.deliveries && w.ledger.deliveries[d].slot.channel == "browser"
    requires d in Apply(w, e).ledger.deliveries && Apply(w, e).ledger.deliveries[d].state.Reported?
    requires Apply(w, e).ledger.deliveries[d] != w.ledger.deliveries[d]
    ensures e.Anyone? && e.r.id == d && Believed(w.ledger, e.r)
  {
    if e.Advance? && e.id in w.calls {
      CallsNeverFinalize(w.ledger, w.calls[e.id].q, w.calls[e.id].step, e.accepted, d);
    }
  }

  /** A browser row the server claimed for itself has no token, so nothing ever finalizes it: it stays claimed. */
  lemma NoTokenNoOutcome(es: seq<Event>, d: DeliveryId)
    requires d in Run(es).ledger.deliveries && Run(es).ledger.deliveries[d].slot.channel == "browser"
    requires Run(es).ledger.deliveries[d].state != Pending && !Truthy(Run(es).ledger.deliveries[d].token)
    ensures Run(es).ledger.deliveries[d].state == Claimed
  {
    RunHolds(es);
  }

  /**
   A call that wins its claim leaves its outcome in the row if and only if the channel is not the browser:
   there the note carries no token and is not believed, so the row stays claimed.
   */
  lemma OutcomeRecordedExactly(l: Ledger, q: Request, accepted: Option<bool>)
    requires Indexed(l.deliveries, l.index) && (q.channel == "browser" ==> q.publishes)
    requires Claim(l, SlotOf(q), q.newId, "server", None).1.Won?
    ensures var row := RowAt(WholeCall(l, q, Claiming, accepted).0, SlotOf(q));
            && row.Some? && row.value.state == (if q.channel != "browser" then Reported(OutcomeOf(q, accepted)) else Claimed)
            && (row.value.state == Reported(OutcomeOf(q, accepted)) <==> q.channel != "browser")
            && (WholeCall(l, q, Claiming, accepted).2 <==> q.publishes)
  {
    var (l', a) := Claim(l, SlotOf(q), q.newId, "server", None);
    ClaimKeepsIndex(l, SlotOf(q), q.newId, "server", None);
    SendsOnce(l', q, a.id, accepted);
    assert Believed(l', ServerReport(a.id, OutcomeOf(q, accepted), q.channel)) <==> q.channel != "browser";
  }

  const Asked := EventId("owner", "run", "approval_request", "r1")
  const Alert := Request(Asked, "approval", "initial", "browser", true, "d1")

  /** The server's own browser alert: shown, accepted, and for ever claimed. */
  lemma ServerAlertExample() returns (es: seq<Event>)
    ensures Run(es).outputs == [SlotOf(Alert)] && 0 in Run(es).calls && Run(es).calls[0].step == Finished("enqueued")
    ensures RowAt(Run(es).ledger, SlotOf(Alert)) == Some(Delivery(SlotOf(Alert), Claimed, 0, Some("server"), None))
  {
    es := More([], Begin(0, Alert));
    var one := RecordEvent(EmptyLedger, Asked, "approval");
    assert Run(es) == World(EmptyLedger, map[0 := Call(Alert, Recording)], map[], [], []);
    es := More(es, Advance(0, Some(true)));
    assert Run(es) == World(one, map[0 := Call(Alert, CheckingRead)], map[], [], []);
    es := More(es, Advance(0, Some(true)));
    es := More(es, Advance(0, Some(true)));
    es := More(es, Advance(0, Some(true)));
    assert Run(es) == World(one, map[0 := Call(Alert, Claiming)], map[], [], []);
    es := AlertSent(es, one);
  }

  lemma More(es: seq<Event>, e: Event) returns (longer: seq<Event>)
    ensures Run(longer) == Apply(Run(es), e)
  {
    longer := es + [e];
    assert longer[..|es|] == es;
  }

  lemma AlertSent(es: seq<Event>, l: Ledger) returns (longer: seq<Event>)
    requires l.deliveries == map[] && l.index == map[]
    requires Run(es) == World(l, map[0 := Call(Alert, Claiming)], map[], [], [])
    ensures Run(longer).outputs == [SlotOf(Alert)] && 0 in Run(longer).calls && Run(longer).calls[0].step == Finished("enqueued")
    ensures RowAt(Run(longer).ledger, SlotOf(Alert)) == Some(Delivery(SlotOf(Alert), Claimed, 0, Some("server"), None))
  {
    var claimed := Claim(l, SlotOf(Alert), "d1", "server", None).0;
    var grants := [Grant(SlotOf(Alert), "server", None)];
    longer := More(es, Advance(0, Some(true)));
    assert Run(longer) == World(claimed, map[0 := Call(Alert, Publishing("d1"))], map[], grants, []);
    longer := More(longer, Advance(0, Some(true)));
    assert Run(longer) == World(claimed, map[0 := Call(Alert, Noting("d1", "enqueued"))], map[], grants, [SlotOf(Alert)]);
    longer := More(longer, Advance(0, Some(true)));
  }

  // ---------------------------------------------------------------- one call after another

  lemma PublishedWasClaimed(l: Ledger, q: Request, accepted: Option<bool>)
    ensures var l' := RecordEvent(l, q.event, q.payload);
            WholeCall(l, q, Recording, accepted).2 ==> Preflight(l', q).None? && Claim(l', SlotOf(q), q.newId, "server", None).1.Won?
  {
    WholeCallChecksFirst(l, q, accepted);
    SendClaims(RecordEvent(l, q.event, q.payload), q, accepted);
  }

  lemma SendClaims(l: Ledger, q: Request, accepted: Option<bool>)
    ensures WholeCall(l, q, Claiming, accepted).2 ==>
      var (l', a) := Claim(l, SlotOf(q), q.newId, "server", None);
      a.Won? && q.publishes && WholeCall(l, q, Claiming, accepted).0 == Note(l', ServerReport(a.id, OutcomeOf(q, accepted), q.channel)).0
  {
    var (l', a) := Claim(l, SlotOf(q), q.newId, "server", None);
    if !(q.channel == "browser" && !q.publishes) && a.Won? {
      SendsOnce(l', q, a.id, accepted);
    }
  }

  /** Asked again for the same event, phase and channel, a delivery that was sent is not sent again. */
  lemma SentOnce(l: Ledger, q: Request, again: Request, accepted: Option<bool>, accepted': Option<bool>)
    requires Indexed(l.deliveries, l.index) && WholeCall(l, q, Recording, accepted).2 && SlotOf(again) == SlotOf(q)
    ensures !WholeCall(WholeCall(l, q, Recording, accepted).0, again, Recording, accepted').2
  {
    var l1 := RecordEvent(l, q.event, q.payload);
    WholeCallChecksFirst(l, q, accepted);
    SendClaims(l1, q, accepted);
    var (l2, a) := Claim(l1, SlotOf(q), q.newId, "server", None);
    var l3 := Note(l2, ServerReport(a.id, OutcomeOf(q, accepted), q.channel)).0;
    assert RowAt(l3, SlotOf(q)).Some? && RowAt(l3, SlotOf(q)).value.state != Pending;
    PublishedWasClaimed(l3, again, accepted');
  }

  /** The rows of one event are all on one channel, but for the browser beside ntfy and rows on no channel. */
  ghost predicate OneRoute(l: Ledger) {
    forall a, b | a in l.deliveries && b in l.deliveries && l.deliveries[a].slot.event == l.deliveries[b].slot.event ::
      Compatible(l.deliveries[a].slot.channel, l.deliveries[b].slot.channel)
  }

  predicate Compatible(a: string, b: string) {
    a == b || a == "none" || b == "none" || {a, b} == {"browser", "ntfy"}
  }

  /** A call never routes an event to a channel that another channel's row excludes. */
  lemma CallsNeverReroute(l: Ledger, q: Request, accepted: Option<bool>)
    requires Indexed(l.deliveries, l.index) && OneRoute(l)
    ensures OneRoute(WholeCall(l, q, Recording, accepted).0)
  {
    var l' := RecordEvent(l, q.event, q.payload);
    WholeCallChecksFirst(l, q, accepted);
    if Preflight(l', q).None? {
      SendAddsOneSlot(l', q, accepted);
      var l'' := WholeCall(l', q, Claiming, accepted).0;
      forall a, b | a in l''.deliveries && b in l''.deliveries && l''.deliveries[a].slot.event == l''.deliveries[b].slot.event
        ensures Compatible(l''.deliveries[a].slot.channel, l''.deliveries[b].slot.channel)
      {
        if a in l.deliveries && l''.deliveries[b].slot == SlotOf(q) {
          assert !Elsewhere(l'.deliveries[a], q);
        }
        if b in l.deliveries && l''.deliveries[a].slot == SlotOf(q) {
          assert !Elsewhere(l'.deliveries[b], q);
        }
      }
    }
  }

  ghost predicate OnlyAdds(l: Ledger, l': Ledger, slot: Slot) {
    forall d | d in l'.deliveries ::
      if d in l.deliveries then l'.deliveries[d].slot == l.deliveries[d].slot else l'.deliveries[d].slot == slot
  }

  lemma SendAddsOneSlot(l: Ledger, q: Request, accepted: Option<bool>)
    requires Indexed(l.deliveries, l.index)
    ensures OnlyAdds(l, WholeCall(l, q, Claiming, accepted).0, SlotOf(q))
  {
    if !(q.channel == "browser" && !q.publishes) {
      var (l', a) := Claim(l, SlotOf(q), q.newId, "server", None);
      assert OnlyAdds(l, l', SlotOf(q));
      if a.Won? {
        SendsOnce(l', q, a.id, accepted);
        NoteKeepsSlots(l', ServerReport(a.id, OutcomeOf(q, accepted), q.channel));
      }
    } else {
      assert OnlyAdds(l, Queue(l, SlotOf(q), q.newId).0, SlotOf(q));
    }
  }

  lemma NoteKeepsSlots(l: Ledger, r: Report)
    ensures var l' := Note(l, r).0;
            l'.deliveries.Keys == l.deliveries.Keys && forall d | d in l.deliveries :: l'.deliveries[d].slot == l.deliveries[d].slot
  {
  }
}
