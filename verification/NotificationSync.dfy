/**
 Devices that follow the ledger with a cursor. A fetch reads its rows in one transaction and the number
 of readers of each row in a later one; events and reads go on in between, and an answer may be lost.
 */
module NotificationSync {
  import opened Basics
  import opened NotificationLedger

  datatype Shown = Shown(row: EventRow, readBy: nat)

  /** An answer under way: the page as it was read, the reader counts taken so far. */
  datatype Flight = Flight(rows: map<EventId, EventRow>, counts: map<EventId, nat>, cursor: nat, overflow: bool)

  datatype Device = Device(owner: string, cursor: nat, view: map<EventId, Shown>, flight: Option<Flight>)

  datatype World = World(ledger: Ledger, devices: map<string, Device>)

  const Start := World(EmptyLedger, map[])

  datatype Event =
    | Happens(event: EventId, payload: string)
    | IsRead(owner: string, event: EventId, reader: string, now: real)
    | Delivers(slot: Slot, id: DeliveryId, device: string, token: Option<string>)
    | Reports(r: Report)
    | Enroll(device: string, owner: string)
    | Fetch(device: string, limit: nat, page: seq<EventId>, overflow: bool, cursor: nat)
    | Count(device: string, event: EventId)
    | Arrive(device: string)
    | Lose(device: string)

  function RowsOf(l: Ledger, page: seq<EventId>): map<EventId, EventRow> {
    map e | e in page && e in l.events :: l.events[e]
  }

  /** What a device makes of an answer: newer rows replace older ones, and the cursor moves on. */
  function Absorb(d: Device, f: Flight): Device
    requires f.rows.Keys <= f.counts.Keys
  {
    d.(cursor := f.cursor, flight := None,
       view := map e | e in d.view.Keys + f.rows.Keys :: if e in f.rows then Shown(f.rows[e], f.counts[e]) else d.view[e])
  }

  function Put(w: World, device: string, d: Device): World {
    w.(devices := w.devices[device := d])
  }

  ghost function Apply(w: World, e: Event): World {
    match e
    case Happens(event, payload) => w.(ledger := RecordEvent(w.ledger, event, payload))
    case IsRead(owner, event, reader, now) => w.(ledger := MarkRead(w.ledger, owner, event, reader, now).0)
    case Delivers(slot, id, device, token) => w.(ledger := Claim(w.ledger, slot, id, device, token).0)
    case Reports(r) => w.(ledger := Note(w.ledger, r).0)
    case Enroll(device, owner) => if device in w.devices then w else Put(w, device, Device(owner, 0, map[], None))
    case Fetch(device, limit, page, overflow, cursor) =>
      if device in w.devices && w.devices[device].flight.None?
         && IsPage(w.ledger, w.devices[device].owner, w.devices[device].cursor, limit, page, overflow, cursor)
      then Put(w, device, w.devices[device].(flight := Some(Flight(RowsOf(w.ledger, page), map[], cursor, overflow))))
      else w
    case Count(device, event) =>
      if device in w.devices && w.devices[device].flight.Some? && event in w.devices[device].flight.value.rows
      then
        var f := w.devices[device].flight.value;
        Put(w, device, w.devices[device].(flight := Some(f.(counts := f.counts[event := |ReadersOf(w.ledger, event)|]))))
      else w
    case Arrive(device) =>
      if device in w.devices && w.devices[device].flight.Some?
         && w.devices[device].flight.value.rows.Keys <= w.devices[device].flight.value.counts.Keys
      then Put(w, device, Absorb(w.devices[device], w.devices[device].flight.value)) else w
    case Lose(device) => if device in w.devices then Put(w, device, w.devices[device].(flight := None)) else w
  }

  ghost function Run(es: seq<Event>): World {
    if es == [] then Start else Apply(Run(es[..|es| - 1]), es[|es| - 1])
  }

  // ---------------------------------------------------------------- what a device knows

  /** The present version of an event, as a client would show it. */
  function Present(l: Ledger, e: EventId): Shown
    requires e in l.events
  {
    Shown(l.events[e], |ReadersOf(l, e)|)
  }

  /** The device holds the present version of every own event up to its cursor, and nothing else's. */
  ghost predicate Current(l: Ledger, owner: string, cursor: nat, view: map<EventId, Shown>) {
    && cursor < l.nextSeq
    && (forall e | e in view :: Own(l, owner, e))
    && (forall e | Own(l, owner, e) && l.events[e].changeSeq <= cursor :: e in view && view[e] == Present(l, e))
  }

  /** An answer under way holds the present version of every own event between the two cursors. */
  ghost predicate Carries(l: Ledger, owner: string, after: nat, f: Flight) {
    && after <= f.cursor < l.nextSeq
    && (forall e | e in f.rows :: Own(l, owner, e))
    && (forall e | Own(l, owner, e) && after < l.events[e].changeSeq <= f.cursor :: e in f.rows && f.rows[e] == l.events[e])
    && (forall e | e in f.rows && e in f.counts && l.events[e].changeSeq <= f.cursor :: f.counts[e] == |ReadersOf(l, e)|)
  }

  ghost predicate DeviceHolds(l: Ledger, d: Device) {
    && Current(l, d.owner, d.cursor, d.view)
    && (d.flight.Some? ==> Carries(l, d.owner, d.cursor, d.flight.value) && !StaleRow(l, d))
  }

  /** A row of the answer that the device already has a newer version of. */
  ghost predicate StaleRow(l: Ledger, d: Device) {
    d.flight.Some? && exists e :: e in d.flight.value.rows && Own(l, d.owner, e) && l.events[e].changeSeq <= d.cursor
  }

  ghost predicate Inv(w: World) {
    && Stamped(w.ledger)
    && forall k | k in w.devices :: DeviceHolds(w.ledger, w.devices[k])
  }

  lemma LedgerStep(l: Ledger, l': Ledger, d: Device)
    requires DeviceHolds(l, d) && Grows(l, l')
    ensures DeviceHolds(l', d)
  {
    forall e | Own(l', d.owner, e) && l'.events[e].changeSeq <= d.cursor
      ensures e in d.view && d.view[e] == Present(l', e)
    {
      assert Own(l, d.owner, e);
    }
    if d.flight.Some? {
      var f := d.flight.value;
      forall e | Own(l', d.owner, e) && d.cursor < l'.events[e].changeSeq <= f.cursor
        ensures e in f.rows && f.rows[e] == l'.events[e]
      {
        assert Own(l, d.owner, e);
      }
      forall e | e in f.rows
        ensures Own(l, d.owner, e) && d.cursor < l'.events[e].changeSeq
      {
        assert d.cursor < l.events[e].changeSeq;
      }
    }
  }

  lemma FetchHolds(l: Ledger, d: Device, limit: nat, page: seq<EventId>, overflow: bool, cursor: nat)
    requires Stamped(l) && DeviceHolds(l, d) && IsPage(l, d.owner, d.cursor, limit, page, overflow, cursor)
    ensures DeviceHolds(l, d.(flight := Some(Flight(RowsOf(l, page), map[], cursor, overflow))))
  {
  }

  lemma CountHolds(l: Ledger, d: Device, e: EventId)
    requires DeviceHolds(l, d) && d.flight.Some? && e in d.flight.value.rows
    ensures var f := d.flight.value; DeviceHolds(l, d.(flight := Some(f.(counts := f.counts[e := |ReadersOf(l, e)|]))))
  {
  }

  lemma ArriveHolds(l: Ledger, d: Device)
    requires DeviceHolds(l, d) && d.flight.Some? && d.flight.value.rows.Keys <= d.flight.value.counts.Keys
    ensures DeviceHolds(l, Absorb(d, d.flight.value))
  {
    var f := d.flight.value;
    var d' := Absorb(d, f);
    forall e | Own(l, d.owner, e) && l.events[e].changeSeq <= f.cursor
      ensures e in d'.view && d'.view[e] == Present(l, e)
    {
      if l.events[e].changeSeq <= d.cursor {
        assert e !in f.rows;
      }
    }
  }

  lemma PutHolds(w: World, device: string, d: Device)
    requires Inv(w) && DeviceHolds(w.ledger, d)
    ensures Inv(Put(w, device, d))
  {
  }

  lemma LedgerMoves(w: World, e: Event)
    requires Stamped(w.ledger) && (e.Happens? || e.IsRead? || e.Delivers? || e.Reports?)
    ensures Stamped(Apply(w, e).ledger) && Grows(w.ledger, Apply(w, e).ledger) && Apply(w, e).devices == w.devices
  {
    match e
    case Happens(event, payload) => RecordKeeps(w.ledger, event, payload);
    case IsRead(owner, event, reader, now) =>
      MarkReadKeeps(w.ledger, owner, event, reader, now);
      MarkReadGrows(w.ledger, owner, event, reader, now);
    case Delivers(slot, id, device, token) => SameEvents(w.ledger, Claim(w.ledger, slot, id, device, token).0);
    case Reports(r) => SameEvents(w.ledger, Note(w.ledger, r).0);
  }

  lemma SameEvents(l: Ledger, l': Ledger)
    requires Stamped(l) && l'.events == l.events && l'.readers == l.readers && l'.nextSeq == l.nextSeq
    ensures Stamped(l') && Grows(l, l')
  {
  }

  lemma DeviceMoves(w: World, e: Event)
    requires Inv(w) && !(e.Happens? || e.IsRead? || e.Delivers? || e.Reports?) && Apply(w, e) != w
    ensures exists d :: DeviceHolds(w.ledger, d) && Apply(w, e) == Put(w, e.device, d)
  {
    var d := Apply(w, e).devices[e.device];
    assert Apply(w, e) == Put(w, e.device, d);
    match e
    case Enroll(device, owner) =>
    case Fetch(device, limit, page, overflow, cursor) => FetchHolds(w.ledger, w.devices[device], limit, page, overflow, cursor);
    case Count(device, event) => CountHolds(w.ledger, w.devices[device], event);
    case Arrive(device) => ArriveHolds(w.ledger, w.devices[device]);
    case Lose(device) =>
  }

  lemma StepKeepsInv(w: World, e: Event)
    requires Inv(w)
    ensures Inv(Apply(w, e))
  {
    if e.Happens? || e.IsRead? || e.Delivers? || e.Reports? {
      LedgerMoves(w, e);
      AllDevices(w, Apply(w, e).ledger);
    } else if Apply(w, e) != w {
      DeviceMoves(w, e);
      var d :| DeviceHolds(w.ledger, d) && Apply(w, e) == Put(w, e.device, d);
      PutHolds(w, e.device, d);
    }
  }

  lemma AllDevices(w: World, l': Ledger)
    requires Inv(w) && Grows(w.ledger, l')
    ensures forall k | k in w.devices :: DeviceHolds(l', w.devices[k])
  {
    forall k | k in w.devices
      ensures DeviceHolds(l', w.devices[k])
    {
      LedgerStep(w.ledger, l', w.devices[k]);
    }
  }

  lemma {:induction false} RunHolds(es: seq<Event>)
    ensures Inv(Run(es))
  {
    if es != [] {
      RunHolds(es[..|es| - 1]);
      StepKeepsInv(Run(es[..|es| - 1]), es[|es| - 1]);
    }
  }

  /**
   Whatever happened, is read or is lost meanwhile: a device that fetches behind its own cursor holds the
   present version of every own event whose change number its cursor has reached, and no one else's events.
   */
  lemma DeviceIsCurrent(es: seq<Event>, device: string)
    requires device in Run(es).devices
    ensures var d := Run(es).devices[device]; Current(Run(es).ledger, d.owner, d.cursor, d.view)
  {
    RunHolds(es);
  }

  /** The device's view and the owner's part of the ledger. */
  function OwnView(l: Ledger, owner: string): map<EventId, Shown> {
    map e | e in l.events && e.owner == owner :: Present(l, e)
  }

  /** A device holds exactly its owner's ledger once nothing own has changed behind its cursor. */
  lemma ReachedMeansEqual(es: seq<Event>, device: string)
    requires device in Run(es).devices && Behind(Run(es).ledger, Run(es).devices[device].owner, Run(es).devices[device].cursor) == {}
    ensures Run(es).devices[device].view == OwnView(Run(es).ledger, Run(es).devices[device].owner)
  {
    RunHolds(es);
    var l, d := Run(es).ledger, Run(es).devices[device];
    forall e | Own(l, d.owner, e)
      ensures l.events[e].changeSeq <= d.cursor
    {
      assert e !in Behind(l, d.owner, d.cursor);
    }
    assert d.view.Keys == OwnView(l, d.owner).Keys;
  }

  /** The reader counts of a page, one transaction each. */
  function Counting(device: string, page: seq<EventId>): seq<Event> {
    if page == [] then [] else Counting(device, page[..|page| - 1]) + [Count(device, page[|page| - 1])]
  }

  ghost function Exec(w: World, es: seq<Event>): World {
    if es == [] then w else Apply(Exec(w, es[..|es| - 1]), es[|es| - 1])
  }

  lemma {:induction false} CountingFills(w: World, device: string, page: seq<EventId>)
    requires device in w.devices && w.devices[device].flight.Some?
    requires forall i | 0 <= i < |page| :: page[i] in w.devices[device].flight.value.rows
    ensures var w' := Exec(w, Counting(device, page));
            && w'.ledger == w.ledger && device in w'.devices
            && w'.devices[device].flight.Some?
            && w'.devices[device] == w.devices[device].(flight := w'.devices[device].flight)
            && w'.devices[device].flight.value == w.devices[device].flight.value.(counts := w'.devices[device].flight.value.counts)
            && forall i | 0 <= i < |page| :: page[i] in w'.devices[device].flight.value.counts
  {
    if page != [] {
      var front := page[..|page| - 1];
      CountingFills(w, device, front);
      var es := Counting(device, page);
      assert es[..|es| - 1] == Counting(device, front);
    }
  }

  /** Fetch, counts, answer: one exchange that nothing comes between. */
  function Exchange(device: string, limit: nat, page: seq<EventId>, overflow: bool, cursor: nat): seq<Event> {
    [Fetch(device, limit, page, overflow, cursor)] + Counting(device, page) + [Arrive(device)]
  }

  lemma {:induction false} ExecAppend(w: World, a: seq<Event>, b: seq<Event>)
    ensures Exec(w, a + b) == Exec(Exec(w, a), b)
  {
    if b == [] {
      assert a + b == a;
    } else {
      assert (a + b)[..|a + b| - 1] == a + b[..|b| - 1];
      ExecAppend(w, a, b[..|b| - 1]);
    }
  }

  lemma ExecOne(w: World, e: Event)
    ensures Exec(w, [e]) == Apply(w, e)
  {
    assert [e][..0] == [];
    assert Exec(w, []) == w;
  }

  lemma ExecAround(w: World, first: Event, middle: seq<Event>, last: Event)
    ensures Exec(w, [first] + middle + [last]) == Apply(Exec(Apply(w, first), middle), last)
  {
    ExecOne(w, first);
    ExecAppend(w, [first], middle);
    ExecAppend(w, [first] + middle, [last]);
    ExecOne(Exec(w, [first] + middle), last);
  }

  lemma ArriveTakes(w: World, device: string)
    requires device in w.devices && w.devices[device].flight.Some?
    requires w.devices[device].flight.value.rows.Keys <= w.devices[device].flight.value.counts.Keys
    ensures Apply(w, Arrive(device)) == Put(w, device, Absorb(w.devices[device], w.devices[device].flight.value))
  {
  }

  /** An exchange moves the device's cursor to the end of the page and touches nothing else of the ledger. */
  lemma ExchangeArrives(w: World, device: string, limit: nat, page: seq<EventId>, overflow: bool, cursor: nat)
    requires device in w.devices && w.devices[device].flight.None?
    requires IsPage(w.ledger, w.devices[device].owner, w.devices[device].cursor, limit, page, overflow, cursor)
    ensures var w' := Exec(w, Exchange(device, limit, page, overflow, cursor));
            w'.ledger == w.ledger && device in w'.devices && w'.devices[device].flight.None?
            && w'.devices[device].cursor == cursor && w'.devices[device].owner == w.devices[device].owner
  {
    var fetch := Fetch(device, limit, page, overflow, cursor);
    var w1 := Apply(w, fetch);
    ExecAround(w, fetch, Counting(device, page), Arrive(device));
    assert w1 == Put(w, device, w.devices[device].(flight := Some(Flight(RowsOf(w.ledger, page), map[], cursor, overflow))));
    CountingFills(w1, device, page);
    ArriveTakes(Exec(w1, Counting(device, page)), device);
  }

  /**
   A page is progress: it takes its own length off what is behind the cursor, a page without overflow
   leaves nothing, and a full page can only leave what was too much for it.
   */
  lemma PageIsProgress(l: Ledger, owner: string, after: nat, limit: nat, page: seq<EventId>, overflow: bool, cursor: nat)
    requires Stamped(l) && IsPage(l, owner, after, limit, page, overflow, cursor)
    ensures |Behind(l, owner, cursor)| == |Behind(l, owner, after)| - |page|
    ensures overflow <==> |Behind(l, owner, after)| > limit
    ensures overflow <==> Behind(l, owner, cursor) != {}
  {
    PageSize(page);
    BehindSplits(l, owner, after, page, cursor);
    BehindShows(l, owner, cursor);
  }

  lemma BehindSplits(l: Ledger, owner: string, after: nat, page: seq<EventId>, cursor: nat)
    requires IsFront(l, owner, after, page, cursor)
    ensures Behind(l, owner, after) == Behind(l, owner, cursor) + (set e | e in page)
    ensures Behind(l, owner, cursor) !! (set e | e in page)
  {
    forall e | e in Behind(l, owner, after)
      ensures e in Behind(l, owner, cursor) || e in page
    {
      assert Own(l, owner, e);
    }
  }

  lemma {:induction false} PageSize(page: seq<EventId>)
    requires forall i, j | 0 <= i < j < |page| :: page[i] != page[j]
    ensures |set e | e in page| == |page|
  {
    if page != [] {
      var front := page[..|page| - 1];
      PageSize(front);
      assert (set e | e in page) == (set e | e in front) + {page[|page| - 1]};
    }
  }

  /** One exchange without overflow and the device equals the ledger. */
  lemma DrainedMeansEqual(es: seq<Event>, device: string, limit: nat, page: seq<EventId>, cursor: nat)
    requires device in Run(es).devices && Run(es).devices[device].flight.None?
    requires IsPage(Run(es).ledger, Run(es).devices[device].owner, Run(es).devices[device].cursor, limit, page, false, cursor)
    ensures var w := Run(es + Exchange(device, limit, page, false, cursor));
            w.ledger == Run(es).ledger && device in w.devices
            && w.devices[device].view == OwnView(w.ledger, w.devices[device].owner)
  {
    var w := Run(es);
    var more := Exchange(device, limit, page, false, cursor);
    RunThenExec(es, more);
    ExchangeArrives(w, device, limit, page, false, cursor);
    RunHolds(es);
    PageIsProgress(w.ledger, w.devices[device].owner, w.devices[device].cursor, limit, page, false, cursor);
    ReachedMeansEqual(es + more, device);
  }

  lemma {:induction false} RunThenExec(es: seq<Event>, more: seq<Event>)
    ensures Run(es + more) == Exec(Run(es), more)
  {
    if more == [] {
      assert es + more == es;
    } else {
      assert (es + more)[..|es + more| - 1] == es + more[..|more| - 1];
      RunThenExec(es, more[..|more| - 1]);
    }
  }
}
