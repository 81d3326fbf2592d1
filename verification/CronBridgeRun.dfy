/**
 Whole runs of the bridge: any number of concurrent deliveries, any number of drain passes at the same
 time, session rotation and crashes, interleaved at the boundaries of the transactions.
 */
module CronBridgeRun {
  import opened Basics
  import opened CronBridge
  import opened CronBridgeProofs
  import CronBridgeStore

  type Job = CronBridgeStore.Job

  /** A direct delivery, or a row of a drain pass with the attempt count the pass read. */
  datatype Kind = Direct | Drained(attempts: nat, pass: nat)

  datatype Phase = Answered | Resolving(tries: nat) | Writing(target: Sid, tries: nat) | Acking(outcome: Outcome)

  datatype Actor = Actor(kind: Kind, key: Key, content: string, phase: Phase)

  /**
   `queues` holds what each pass has still to try. `spooled` and `rescheduled` are history: which reports
   were ever spooled, and how often each was put off or given up since.
   */
  datatype World = World(db: Db, spool: Spool, actors: map<nat, Actor>, queues: map<nat, seq<Job>>,
                         spooled: set<Key>, rescheduled: map<Key, nat>)

  const Start := World(Db([], []), Spool(map[], map[]), map[], map[], {}, map[])

  datatype Event =
    | Deliver(id: nat, key: Key, content: string, now: real)
    | DropAnswered(id: nat)
    | BeginPass(pass: nat, keys: seq<Key>, now: real)
    | NextJob(pass: nat, id: nat)
    | Resolve(id: nat, target: Sid)
    | Unavailable(id: nat)
    | Write(id: nat, busy: bool)
    | Acknowledge(id: nat, now: real)
    | Vanish(id: nat)
    | Crash
    | SessionMove(move: Move)
    | BackfillRow(row: nat)

  function QueueOf(w: World, pass: nat): seq<Job> {
    if pass in w.queues then w.queues[pass] else []
  }

  /** The pass is trying a row right now. */
  predicate Trying(w: World, pass: nat) {
    exists i | i in w.actors :: w.actors[i].kind.Drained? && w.actors[i].kind.pass == pass
  }

  /** The page one pass selects: distinct due rows under the attempt cap. */
  predicate DuePage(s: Spool, keys: seq<Key>, now: real) {
    && |keys| <= DRAIN_PAGE
    && (forall i, j | 0 <= i < j < |keys| :: keys[i] != keys[j])
    && (forall i | 0 <= i < |keys| :: keys[i] in s.pending && s.pending[keys[i]].attempts < DRAIN_MAX_ATTEMPTS && s.pending[keys[i]].nextRetry <= now)
  }

  function Jobs(s: Spool, keys: seq<Key>): (r: seq<Job>)
    requires forall i | 0 <= i < |keys| :: keys[i] in s.pending
    ensures |r| == |keys|
    ensures forall i | 0 <= i < |r| :: r[i] == CronBridgeStore.Job(keys[i], s.pending[keys[i]].content, s.pending[keys[i]].attempts)
  {
    seq(|keys|, i requires 0 <= i < |keys| => CronBridgeStore.Job(keys[i], s.pending[keys[i]].content, s.pending[keys[i]].attempts))
  }

  function Count(m: map<Key, nat>, k: Key): nat {
    if k in m then m[k] else 0
  }

  function AckSpool(s: Spool, a: Actor, now: real): Spool
    requires a.phase.Acking?
  {
    match a.kind
    case Direct => AckDirect(s, a.key, a.content, a.phase.outcome, now)
    case Drained(attempts, _) => AckDrain(s, a.key, a.content, attempts, a.phase.outcome, now)
  }

  function Become(w: World, id: nat, phase: Phase): World
    requires id in w.actors
  {
    w.(actors := w.actors[id := w.actors[id].(phase := phase)])
  }

  /** What a write hands on: an outcome to acknowledge, or another resolution while tries are left. */
  function AfterWrite(result: Write, tries: nat): Phase {
    if OutcomeOf(result).Some? then Acking(OutcomeOf(result).value)
    else if tries <= 1 then Acking(Retry)
    else Resolving(tries - 1)
  }

  function Apply(w: World, e: Event): World
    requires Linked(w.db.sessions)
  {
    match e
    case Deliver(id, key, content, now) =>
      if id in w.actors then w
      else
        var s := SpoolReport(w.spool, key, content, now);
        var phase := if AlreadyDelivered(s, key, content) then Answered else Resolving(RESOLVE_RETRIES);
        w.(spool := s, actors := w.actors[id := Actor(Direct, key, content, phase)], spooled := w.spooled + {key},
           rescheduled := if key in w.spool.pending then w.rescheduled else w.rescheduled[key := 0])
    case DropAnswered(id) =>
      if id in w.actors && w.actors[id].phase.Answered? then
        w.(spool := Unspool(w.spool, w.actors[id].key), actors := w.actors - {id})
      else w
    case BeginPass(pass, keys, now) =>
      if !Trying(w, pass) && DuePage(w.spool, keys, now) then w.(queues := w.queues[pass := Jobs(w.spool, keys)]) else w
    case NextJob(pass, id) =>
      var queue := QueueOf(w, pass);
      if queue != [] && id !in w.actors && !Trying(w, pass) then
        w.(queues := w.queues[pass := queue[1..]],
           actors := w.actors[id := Actor(Drained(queue[0].attempts, pass), queue[0].key, queue[0].content, Resolving(RESOLVE_RETRIES))])
      else w
    case Resolve(id, target) =>
      if id in w.actors && w.actors[id].phase.Resolving? && Reaches(w.db, w.actors[id].key.session, target)
      then Become(w, id, Writing(target, w.actors[id].phase.tries)) else w
    case Unavailable(id) =>
      if id in w.actors && w.actors[id].phase.Resolving? then Become(w, id, Acking(Retry)) else w
    case Write(id, busy) =>
      if id in w.actors && w.actors[id].phase.Writing? then
        var a := w.actors[id];
        if busy then Become(w, id, Acking(Retry))
        else
          var (db, result) := WriteOnce(w.db, a.phase.target, a.key, a.content);
          Become(w, id, AfterWrite(result, a.phase.tries)).(db := db)
      else w
    case Acknowledge(id, now) =>
      if id in w.actors && w.actors[id].phase.Acking? then
        var a := w.actors[id];
        w.(spool := AckSpool(w.spool, a, now), actors := w.actors - {id},
           rescheduled := if a.kind.Drained? && a.phase.outcome == Retry && a.key in w.spool.pending
                          then w.rescheduled[a.key := Count(w.rescheduled, a.key) + 1] else w.rescheduled)
      else w
    case Vanish(id) => w.(actors := w.actors - {id})
    case Crash => w.(actors := map[], queues := map[])
    case SessionMove(move) => w.(db := ApplyMove(w.db, move))
    case BackfillRow(row) =>
      if row < |w.db.messages| then
        w.(spool := Backfill(w.spool, w.db.messages[row].key, row, w.db.messages[row].digest))
      else w
  }

  // ---------------------------------------------------------------- what holds at every step

  ghost predicate Matches(db: Db, row: nat, key: Key, content: string) {
    row < |db.messages| && db.messages[row].key == key && db.messages[row].digest == content
  }

  /** Every actor knows only what SessionDB told it. */
  ghost predicate ActorOk(db: Db, a: Actor)
    requires Linked(db.sessions)
  {
    match a.phase
    case Writing(target, _) => Reaches(db, a.key.session, target)
    case Acking(Delivered(row)) => Matches(db, row, a.key, a.content)
    case Acking(Echoed(row)) => Matches(db, row, a.key, a.content)
    case _ => true
  }

  /** A delivered receipt names a committed row of its report, with that row's digest. */
  ghost predicate ReceiptsTrue(db: Db, s: Spool) {
    forall k | k in s.receipts && s.receipts[k].status == DeliveredStatus ::
      && s.receipts[k].row.Some? && s.receipts[k].digest.Some?
      && Matches(db, s.receipts[k].row.value, k, s.receipts[k].digest.value)
  }

  ghost predicate ActorsOk(db: Db, actors: map<nat, Actor>)
    requires Linked(db.sessions)
  {
    forall i | i in actors :: ActorOk(db, actors[i])
  }

  /** Every count, in the spool or in somebody's hands, is below the cap. */
  ghost predicate CountsOk(pending: map<Key, Pending>, actors: map<nat, Actor>, queues: map<nat, seq<Job>>) {
    && (forall k | k in pending :: pending[k].attempts < DRAIN_MAX_ATTEMPTS)
    && (forall i | i in actors && actors[i].kind.Drained? :: actors[i].kind.attempts < DRAIN_MAX_ATTEMPTS)
    && (forall p, n | p in queues && 0 <= n < |queues[p]| :: queues[p][n].attempts < DRAIN_MAX_ATTEMPTS)
  }

  /** Nobody works on a report that was never spooled. */
  ghost predicate SpooledOk(pending: map<Key, Pending>, actors: map<nat, Actor>, queues: map<nat, seq<Job>>, spooled: set<Key>) {
    && pending.Keys <= spooled
    && (forall i | i in actors :: actors[i].key in spooled)
    && (forall p, n | p in queues && 0 <= n < |queues[p]| :: queues[p][n].key in spooled)
  }

  ghost predicate DbHalf(w: World) {
    RowsInPlace(w.db) && ActorsOk(w.db, w.actors) && ReceiptsTrue(w.db, w.spool)
  }

  ghost predicate SpoolHalf(w: World) {
    CountsOk(w.spool.pending, w.actors, w.queues) && SpooledOk(w.spool.pending, w.actors, w.queues, w.spooled)
  }

  ghost predicate Inv(w: World) {
    DbHalf(w) && SpoolHalf(w)
  }

  // ---------------------------------------------------------------- database half

  ghost predicate DbGrows(db: Db, db': Db) {
    SessionsGrow(db, db') && db.messages <= db'.messages
  }

  lemma GrowthKeepsKnowledge(db: Db, db': Db, actors: map<nat, Actor>, s: Spool)
    requires DbGrows(db, db') && ActorsOk(db, actors) && ReceiptsTrue(db, s)
    ensures ActorsOk(db', actors) && ReceiptsTrue(db', s)
  {
    forall i | i in actors
      ensures ActorOk(db', actors[i])
    {
      assert ActorOk(db, actors[i]);
      if actors[i].phase.Writing? {
        ReachesGrows(db, db', actors[i].key.session, actors[i].phase.target);
      }
    }
  }

  lemma WriteGrows(db: Db, a: Actor)
    requires RowsInPlace(db) && a.phase.Writing? && ActorOk(db, a)
    ensures var (db', result) := WriteOnce(db, a.phase.target, a.key, a.content);
            RowsInPlace(db') && DbGrows(db, db') && ActorOk(db', a.(phase := AfterWrite(result, a.phase.tries)))
  {
    WriteKeepsRows(db, a.phase.target, a.key, a.content);
  }

  lemma PutReceiptTrue(db: Db, s: Spool, key: Key, status: Status, row: Option<nat>, error: Option<string>, digest: Option<string>)
    requires ReceiptsTrue(db, s)
    requires status == DeliveredStatus || row.Some? || digest.Some? ==> row.Some? && digest.Some? && Matches(db, row.value, key, digest.value)
    ensures ReceiptsTrue(db, PutReceipt(s, key, status, row, error, digest))
  {
  }

  lemma AckTrue(db: Db, s: Spool, a: Actor, now: real)
    requires Linked(db.sessions) && ReceiptsTrue(db, s) && a.phase.Acking? && ActorOk(db, a)
    ensures ReceiptsTrue(db, AckSpool(s, a, now))
  {
    match a.phase.outcome
    case Delivered(row) =>
      PutReceiptTrue(db, Unspool(s, a.key), a.key, DeliveredStatus, Some(row), None, Some(a.content));
    case Echoed(row) =>
      PutReceiptTrue(db, Unspool(s, a.key), a.key, DeliveredStatus, Some(row), None, Some(a.content));
    case Refused(error) =>
      PutReceiptTrue(db, s, a.key, Failed, None, Some(error), None);
      PutReceiptTrue(db, Unspool(s, a.key), a.key, Failed, None, Some(error), None);
    case Retry =>
      PutReceiptTrue(db, s, a.key, Queued, None, None, None);
      PutReceiptTrue(db, Unspool(s, a.key), a.key, Failed, None, Some("retry_exhausted"), None);
  }

  lemma WriteKeepsDbHalf(w: World, id: nat, busy: bool)
    requires DbHalf(w)
    ensures DbHalf(Apply(w, Write(id, busy)))
  {
    if id in w.actors && w.actors[id].phase.Writing? && !busy {
      var a := w.actors[id];
      WriteGrows(w.db, a);
      GrowthKeepsKnowledge(w.db, WriteOnce(w.db, a.phase.target, a.key, a.content).0, w.actors, w.spool);
    }
  }

  lemma GrownDbHalf(w: World, db': Db)
    requires DbHalf(w) && RowsInPlace(db') && DbGrows(w.db, db')
    ensures DbHalf(w.(db := db'))
  {
    GrowthKeepsKnowledge(w.db, db', w.actors, w.spool);
  }

  lemma MoveKeepsDbHalf(w: World, move: Move)
    requires DbHalf(w)
    ensures DbHalf(w.(db := ApplyMove(w.db, move)))
  {
    MoveKeepsRows(w.db, move);
    MoveGrows(w.db, move);
    GrownDbHalf(w, ApplyMove(w.db, move));
  }

  lemma AckKeepsDbHalf(w: World, id: nat, now: real)
    requires DbHalf(w)
    ensures DbHalf(Apply(w, Acknowledge(id, now)))
  {
    if id in w.actors && w.actors[id].phase.Acking? { AckTrue(w.db, w.spool, w.actors[id], now); }
  }

  /** Steps that neither write to SessionDB nor acknowledge. */
  lemma PlainStepKeepsDbHalf(w: World, e: Event)
    requires DbHalf(w) && !e.Write? && !e.SessionMove? && !e.Acknowledge?
    ensures DbHalf(Apply(w, e))
  {
    PlainStepIsQuiet(w, e);
    var w' := Apply(w, e);
    forall i | i in w'.actors
      ensures ActorOk(w.db, w'.actors[i])
    {
      if i in w.actors { assert ActorOk(w.db, w.actors[i]); }
    }
  }

  /** They leave SessionDB alone, tell no actor more than SessionDB did, and write no receipt but a true one. */
  lemma PlainStepIsQuiet(w: World, e: Event)
    requires Linked(w.db.sessions) && !e.Write? && !e.SessionMove? && !e.Acknowledge?
    ensures var w' := Apply(w, e);
            && w'.db == w.db
            && (w'.spool.receipts == w.spool.receipts || (e.BackfillRow? && e.row < |w.db.messages|))
            && (forall i | i in w'.actors :: (i in w.actors && w'.actors[i] == w.actors[i]) || KnowsLittle(w.db, w'.actors[i]))
  {
  }

  predicate KnowsLittle(db: Db, a: Actor)
    requires Linked(db.sessions)
  {
    match a.phase
    case Writing(target, _) => Reaches(db, a.key.session, target)
    case Acking(outcome) => outcome == Retry
    case _ => true
  }

  lemma StepKeepsDbHalf(w: World, e: Event)
    requires DbHalf(w)
    ensures DbHalf(Apply(w, e))
  {
    match e
    case Write(id, busy) => WriteKeepsDbHalf(w, id, busy);
    case SessionMove(move) => MoveKeepsDbHalf(w, move);
    case Acknowledge(id, now) => AckKeepsDbHalf(w, id, now);
    case _ => PlainStepKeepsDbHalf(w, e);
  }

  // ---------------------------------------------------------------- spool half

  /** What an acknowledgement does to the pending rows. */
  lemma AckPending(s: Spool, a: Actor, now: real)
    requires a.phase.Acking?
    ensures var s' := AckSpool(s, a, now);
            && s'.pending.Keys <= s.pending.Keys
            && (forall k | k in s'.pending && k != a.key :: s'.pending[k] == s.pending[k])
            && (a.key in s'.pending && a.kind.Drained? ==>
                  a.phase.outcome == Retry && s'.pending[a.key].attempts == a.kind.attempts + 1 < DRAIN_MAX_ATTEMPTS)
            && (a.key in s'.pending && a.kind.Direct? ==>
                  a.phase.outcome == Retry && s'.pending[a.key].attempts == s.pending[a.key].attempts)
  {
  }

  lemma AckKeepsSpoolHalf(w: World, id: nat, now: real)
    requires SpoolHalf(w) && Linked(w.db.sessions) && id in w.actors && w.actors[id].phase.Acking?
    ensures SpoolHalf(Apply(w, Acknowledge(id, now)))
  {
    AckPending(w.spool, w.actors[id], now);
  }

  /** Fewer rows, the same attempts. */
  lemma PendingShrinks(pending: map<Key, Pending>, pending': map<Key, Pending>, w: World)
    requires SpoolHalf(w) && pending == w.spool.pending && pending'.Keys <= pending.Keys
    requires forall k | k in pending' :: pending'[k].attempts == pending[k].attempts
    ensures CountsOk(pending', w.actors, w.queues) && SpooledOk(pending', w.actors, w.queues, w.spooled)
  {
  }

  lemma ActorsShrink(w: World, actors: map<nat, Actor>)
    requires SpoolHalf(w) && forall i | i in actors :: i in w.actors && actors[i].key == w.actors[i].key && actors[i].kind == w.actors[i].kind
    ensures SpoolHalf(w.(actors := actors)) && SpoolHalf(w.(actors := actors, queues := map[]))
  {
  }

  lemma DeliverKeepsSpoolHalf(w: World, e: Event)
    requires SpoolHalf(w) && Linked(w.db.sessions) && e.Deliver?
    ensures SpoolHalf(Apply(w, e))
  {
  }

  lemma PassKeepsSpoolHalf(w: World, e: Event)
    requires SpoolHalf(w) && Linked(w.db.sessions) && (e.BeginPass? || e.NextJob?)
    ensures SpoolHalf(Apply(w, e))
  {
  }

  lemma DropKeepsSpoolHalf(w: World, id: nat)
    requires SpoolHalf(w) && Linked(w.db.sessions)
    ensures SpoolHalf(Apply(w, DropAnswered(id)))
  {
    if id in w.actors {
      PendingShrinks(w.spool.pending, w.spool.pending - {w.actors[id].key}, w);
      ActorsShrink(w.(spool := Unspool(w.spool, w.actors[id].key)), w.actors - {id});
    }
  }

  lemma PlainStepKeepsSpoolHalf(w: World, e: Event)
    requires SpoolHalf(w) && Linked(w.db.sessions)
    requires e.Resolve? || e.Unavailable? || e.Write? || e.Vanish? || e.Crash? || e.BackfillRow? || e.SessionMove?
    ensures SpoolHalf(Apply(w, e))
  {
    if !e.BackfillRow? && !e.SessionMove? { ActorsShrink(w, Apply(w, e).actors); }
  }

  lemma StepKeepsSpoolHalf(w: World, e: Event)
    requires SpoolHalf(w) && Linked(w.db.sessions)
    ensures SpoolHalf(Apply(w, e))
  {
    match e
    case Deliver(_, _, _, _) => DeliverKeepsSpoolHalf(w, e);
    case BeginPass(_, _, _) => PassKeepsSpoolHalf(w, e);
    case NextJob(_, _) => PassKeepsSpoolHalf(w, e);
    case Acknowledge(id, now) =>
      if id in w.actors && w.actors[id].phase.Acking? { AckKeepsSpoolHalf(w, id, now); }
    case DropAnswered(id) => DropKeepsSpoolHalf(w, id);
    case _ => PlainStepKeepsSpoolHalf(w, e);
  }

  lemma StepKeepsInv(w: World, e: Event)
    requires Inv(w)
    ensures Inv(Apply(w, e))
  {
    StepKeepsDbHalf(w, e);
    StepKeepsSpoolHalf(w, e);
  }

  // ---------------------------------------------------------------- runs

  ghost function Run(es: seq<Event>): (w: World)
    ensures Inv(w)
  {
    if es == [] then Start
    else
      StepKeepsInv(Run(es[..|es| - 1]), es[|es| - 1]);
      Apply(Run(es[..|es| - 1]), es[|es| - 1])
  }

  function InsertedRows(messages: seq<Row>, k: Key): (n: nat)
  {
    if messages == [] then 0
    else InsertedRows(messages[..|messages| - 1], k)
         + (if messages[|messages| - 1].inserted && messages[|messages| - 1].key == k then 1 else 0)
  }

  lemma {:induction false} OneInsertedRow(messages: seq<Row>, k: Key)
    requires forall i, j | 0 <= i < j < |messages| && messages[i].key == messages[j].key :: !messages[j].inserted
    ensures InsertedRows(messages, k) <= 1
    ensures InsertedRows(messages, k) == 1 ==> exists i :: 0 <= i < |messages| && messages[i].key == k
  {
    if messages != [] {
      var n := |messages| - 1;
      OneInsertedRow(messages[..n], k);
      if InsertedRows(messages[..n], k) == 1 {
        var i :| 0 <= i < n && messages[..n][i].key == k;
        assert messages[i].key == k;
      } else if messages[n].key == k {
        assert exists i :: 0 <= i < |messages| && messages[i].key == k;
      }
    }
  }

  /**
   Whatever mix of deliveries, drain passes, stale resolutions, rotations, database failures and
   crashes a run holds: the bridge inserts at most one row per report, and all rows of a report,
   copies included, carry one digest and lie in the lineage of its live session.
   */
  lemma OneRowPerReport(es: seq<Event>, k: Key)
    ensures InsertedRows(Run(es).db.messages, k) <= 1
    ensures RowsInPlace(Run(es).db)
  {
    OneInsertedRow(Run(es).db.messages, k);
  }

  /** A delivered receipt is the truth about SessionDB, and no later step takes it back. */
  lemma DeliveredIsFinal(es: seq<Event>, e: Event, k: Key)
    ensures k in Run(es).spool.receipts && Run(es).spool.receipts[k].status == DeliveredStatus ==> StaysDelivered(Run(es), Apply(Run(es), e), k)
  {
    if k in Run(es).spool.receipts && Run(es).spool.receipts[k].status == DeliveredStatus {
      DeliveredStays(Run(es), e, k);
    }
  }

  /** The receipt names a committed row of the report with its digest, and is delivered with the same digest afterwards. */
  ghost predicate StaysDelivered(w: World, w': World, k: Key)
    requires k in w.spool.receipts
  {
    var receipt := w.spool.receipts[k];
    && receipt.row.Some? && receipt.digest.Some? && Matches(w.db, receipt.row.value, k, receipt.digest.value)
    && k in w'.spool.receipts && w'.spool.receipts[k].status == DeliveredStatus && w'.spool.receipts[k].digest == receipt.digest
  }

  lemma AckKeepsDelivered(s: Spool, a: Actor, now: real, k: Key)
    requires a.phase.Acking? && k in s.receipts && s.receipts[k].status == DeliveredStatus && s.receipts[k].digest.Some?
    requires a.key == k && (a.phase.outcome.Delivered? || a.phase.outcome.Echoed?) ==> s.receipts[k].digest == Some(a.content)
    ensures k in AckSpool(s, a, now).receipts
    ensures AckSpool(s, a, now).receipts[k].status == DeliveredStatus && AckSpool(s, a, now).receipts[k].digest == s.receipts[k].digest
  {
  }

  lemma DeliveredStays(w: World, e: Event, k: Key)
    requires Inv(w) && k in w.spool.receipts && w.spool.receipts[k].status == DeliveredStatus
    ensures k in Apply(w, e).spool.receipts
    ensures Apply(w, e).spool.receipts[k].status == DeliveredStatus && Apply(w, e).spool.receipts[k].digest == w.spool.receipts[k].digest
  {
    if e.Acknowledge? && e.id in w.actors && w.actors[e.id].phase.Acking? {
      var a := w.actors[e.id];
      assert ActorOk(w.db, a);
      if a.key == k && (a.phase.outcome.Delivered? || a.phase.outcome.Echoed?) {
        OneDigest(w.db, k, a.phase.outcome.row, a.content, w.spool.receipts[k].row.value, w.spool.receipts[k].digest.value);
      }
      AckKeepsDelivered(w.spool, a, e.now, k);
    } else {
      assert Apply(w, e).spool.receipts == w.spool.receipts || e.BackfillRow?;
    }
  }

  lemma OneDigest(db: Db, k: Key, i: nat, a: string, j: nat, b: string)
    requires OneContent(db.messages) && Matches(db, i, k, a) && Matches(db, j, k, b)
    ensures a == b
  {
    if i != j {
      assert db.messages[if i < j then i else j].key == db.messages[if i < j then j else i].key;
    }
  }

  // ---------------------------------------------------------------- nothing is lost

  /** Somebody will still try the report, or a terminal receipt says how it ended. */
  predicate Accounted(s: Spool, k: Key) {
    k in s.pending || (k in s.receipts && s.receipts[k].status != Queued)
  }

  ghost predicate NothingLost(w: World) {
    forall k | k in w.spooled :: Accounted(w.spool, k)
  }

  /**
   The losing step: a delivery acknowledges "queued" for a report that somebody else has meanwhile
   closed as failed and taken out of the spool. The upsert turns the failed receipt into a queued one
   and the pending row it speaks of is gone.
   */
  predicate OrphaningAck(w: World, e: Event) {
    && e.Acknowledge? && e.id in w.actors && w.actors[e.id].kind.Direct? && w.actors[e.id].phase == Acking(Retry)
    && w.actors[e.id].key !in w.spool.pending
    && !(w.actors[e.id].key in w.spool.receipts && w.spool.receipts[w.actors[e.id].key].status == DeliveredStatus)
  }

  /** An answered delivery was answered by a delivered receipt. */
  ghost predicate AnswersTrue(w: World) {
    forall i | i in w.actors && w.actors[i].phase.Answered? ::
      w.actors[i].key in w.spool.receipts && w.spool.receipts[w.actors[i].key].status == DeliveredStatus
  }

  lemma StepKeepsAnswers(w: World, e: Event)
    requires Inv(w) && AnswersTrue(w)
    ensures AnswersTrue(Apply(w, e))
  {
    var w' := Apply(w, e);
    forall i | i in w'.actors && w'.actors[i].phase.Answered?
      ensures w'.actors[i].key in w'.spool.receipts && w'.spool.receipts[w'.actors[i].key].status == DeliveredStatus
    {
      if i in w.actors {
        assert w'.actors[i] == w.actors[i];
        DeliveredStays(w, e, w.actors[i].key);
      }
    }
  }

  lemma AckAccounts(s: Spool, a: Actor, now: real, k: Key)
    requires a.phase.Acking? && Accounted(s, k)
    requires !(a.kind.Direct? && a.phase.outcome == Retry && a.key !in s.pending
               && !(a.key in s.receipts && s.receipts[a.key].status == DeliveredStatus))
    ensures Accounted(AckSpool(s, a, now), k)
  {
  }

  lemma StepLosesNothing(w: World, e: Event)
    requires Inv(w) && AnswersTrue(w) && NothingLost(w) && !OrphaningAck(w, e)
    ensures NothingLost(Apply(w, e))
  {
    var w' := Apply(w, e);
    forall k | k in w'.spooled
      ensures Accounted(w'.spool, k)
    {
      if e.Acknowledge? && e.id in w.actors && w.actors[e.id].phase.Acking? {
        AckAccounts(w.spool, w.actors[e.id], e.now, k);
      }
    }
  }

  lemma OrphaningAckLoses(w: World, e: Event)
    requires Inv(w) && OrphaningAck(w, e)
    ensures !NothingLost(Apply(w, e))
  {
    var k := w.actors[e.id].key;
    assert k in w.spooled;
    assert !Accounted(Apply(w, e).spool, k);
  }

  /** No step of the run is the losing one. */
  ghost predicate NoOrphaningAck(es: seq<Event>) {
    es != [] ==> NoOrphaningAck(es[..|es| - 1]) && !OrphaningAck(Run(es[..|es| - 1]), es[|es| - 1])
  }

  /** At every point of the run. */
  ghost predicate NothingEverLost(es: seq<Event>) {
    NothingLost(Run(es)) && (es != [] ==> NothingEverLost(es[..|es| - 1]))
  }

  /**
   Every report is, from its spool commit on, pending or closed by a delivered or failed receipt,
   exactly in the runs without a losing acknowledgement.
   */
  lemma {:induction false} ReportsAreNeverLost(es: seq<Event>)
    ensures NothingEverLost(es) <==> NoOrphaningAck(es)
    ensures AnswersTrue(Run(es))
  {
    if es != [] {
      var front, last := es[..|es| - 1], es[|es| - 1];
      ReportsAreNeverLost(front);
      StepKeepsAnswers(Run(front), last);
      if NoOrphaningAck(front) {
        if OrphaningAck(Run(front), last) {
          OrphaningAckLoses(Run(front), last);
        } else {
          StepLosesNothing(Run(front), last);
        }
      }
    }
  }

  // ---------------------------------------------------------------- a lost report

  lemma Extend(es: seq<Event>, e: Event)
    ensures Run(es + [e]) == Apply(Run(es), e)
  {
    assert (es + [e])[..|es|] == es;
  }

  const Leased := Session(None, None, None, "app", false, false, true)
  const Hidden := Session(None, None, None, "app", true, false, false)

  /** One session, one report: everything that varies in the example. */
  function Scene(k: Key, session: Session, spool: Spool, actors: map<nat, Actor>, queues: map<nat, seq<Job>>): World {
    World(Db([session], []), spool, actors, queues, {k}, map[k := 0])
  }

  function Waiting(k: Key): Spool { Spool(map[k := Pending("report", 0, 0.0)], map[]) }
  function GivenUp(k: Key): Spool { Spool(map[], map[k := Receipt(Failed, None, Some("target_hidden"), None)]) }
  function Delivery(k: Key, phase: Phase): Actor { Actor(Direct, k, "report", phase) }
  function Drain(k: Key, phase: Phase): Actor { Actor(Drained(0, 0), k, "report", phase) }

  lemma OneSession(session: Session)
    requires session.parent.None? && session.next.None? && session.ended.None?
    ensures Linked([session]) && Lineage(Db([session], []), 0) == {0}
  {
  }

  /** The delivery meets a leased session. */
  lemma DeliverySteps(k: Key)
    requires k.session == 0
    ensures Linked([Leased])
    ensures Apply(Apply(Start, SessionMove(Create(Leased))), Deliver(0, k, "report", 0.0))
         == Scene(k, Leased, Waiting(k), map[0 := Delivery(k, Resolving(3))], map[])
    ensures Apply(Scene(k, Leased, Waiting(k), map[0 := Delivery(k, Resolving(3))], map[]), Resolve(0, 0))
         == Scene(k, Leased, Waiting(k), map[0 := Delivery(k, Writing(0, 3))], map[])
    ensures Apply(Scene(k, Leased, Waiting(k), map[0 := Delivery(k, Writing(0, 3))], map[]), Write(0, false))
         == Scene(k, Leased, Waiting(k), map[0 := Delivery(k, Acking(Retry))], map[])
  {
    OneSession(Leased);
  }

  /** The session is hidden and a drain pass takes the report up. */
  lemma PassSteps(k: Key)
    requires k.session == 0
    ensures Linked([Leased]) && Linked([Hidden])
    ensures Apply(Scene(k, Leased, Waiting(k), map[0 := Delivery(k, Acking(Retry))], map[]), SessionMove(Change(0, None, true, false, false)))
         == Scene(k, Hidden, Waiting(k), map[0 := Delivery(k, Acking(Retry))], map[])
    ensures Apply(Scene(k, Hidden, Waiting(k), map[0 := Delivery(k, Acking(Retry))], map[]), BeginPass(0, [k], 1.0))
         == Scene(k, Hidden, Waiting(k), map[0 := Delivery(k, Acking(Retry))], map[0 := [CronBridgeStore.Job(k, "report", 0)]])
    ensures Apply(Scene(k, Hidden, Waiting(k), map[0 := Delivery(k, Acking(Retry))], map[0 := [CronBridgeStore.Job(k, "report", 0)]]), NextJob(0, 1))
         == Scene(k, Hidden, Waiting(k), map[0 := Delivery(k, Acking(Retry)), 1 := Drain(k, Resolving(3))], map[0 := []])
  {
    OneSession(Leased);
    OneSession(Hidden);
    assert Jobs(Waiting(k), [k]) == [CronBridgeStore.Job(k, "report", 0)];
  }

  /** The drain pass finds the target hidden. */
  lemma RefusedSteps(k: Key)
    requires k.session == 0
    ensures Linked([Hidden])
    ensures Apply(Scene(k, Hidden, Waiting(k), map[0 := Delivery(k, Acking(Retry)), 1 := Drain(k, Resolving(3))], map[0 := []]), Resolve(1, 0))
         == Scene(k, Hidden, Waiting(k), map[0 := Delivery(k, Acking(Retry)), 1 := Drain(k, Writing(0, 3))], map[0 := []])
    ensures Apply(Scene(k, Hidden, Waiting(k), map[0 := Delivery(k, Acking(Retry)), 1 := Drain(k, Writing(0, 3))], map[0 := []]), Write(1, false))
         == Scene(k, Hidden, Waiting(k), map[0 := Delivery(k, Acking(Retry)), 1 := Drain(k, Acking(Refused("target_hidden")))], map[0 := []])
  {
    OneSession(Hidden);
  }

  /** It closes the report as failed and leaves. */
  lemma GiveUpStep(k: Key)
    requires k.session == 0
    ensures Linked([Hidden])
    ensures Apply(Scene(k, Hidden, Waiting(k), map[0 := Delivery(k, Acking(Retry)), 1 := Drain(k, Acking(Refused("target_hidden")))], map[0 := []]), Acknowledge(1, 1.0))
         == Scene(k, Hidden, GivenUp(k), map[0 := Delivery(k, Acking(Retry))], map[0 := []])
  {
    OneSession(Hidden);
    var before := map[0 := Delivery(k, Acking(Retry)), 1 := Drain(k, Acking(Refused("target_hidden")))];
    assert before - {1} == map[0 := Delivery(k, Acking(Retry))];
    assert AckSpool(Waiting(k), before[1], 1.0) == GivenUp(k);
  }

  /** A delivery and a drain pass of the same report, and the report is gone. */
  lemma LosingRunExample(k: Key) returns (es: seq<Event>)
    requires k.session == 0
    ensures !NothingLost(Run(es)) && !NoOrphaningAck(es)
  {
    es := ReachGivenUp(k);
    Extend(es, Acknowledge(0, 1.0));
    assert OrphaningAck(Run(es), Acknowledge(0, 1.0));
    OrphaningAckLoses(Run(es), Acknowledge(0, 1.0));
    es := es + [Acknowledge(0, 1.0)];
    ReportsAreNeverLost(es);
  }

  lemma ReachGivenUp(k: Key) returns (es: seq<Event>)
    requires k.session == 0
    ensures Run(es) == Scene(k, Hidden, GivenUp(k), map[0 := Delivery(k, Acking(Retry))], map[0 := []])
  {
    DeliverySteps(k);
    PassSteps(k);
    RefusedSteps(k);
    GiveUpStep(k);
    var steps := [SessionMove(Create(Leased)), Deliver(0, k, "report", 0.0), Resolve(0, 0), Write(0, false),
                  SessionMove(Change(0, None, true, false, false)), BeginPass(0, [k], 1.0), NextJob(0, 1),
                  Resolve(1, 0), Write(1, false), Acknowledge(1, 1.0)];
    es := [];
    Extend(es, steps[0]); es := es + [steps[0]];
    Extend(es, steps[1]); es := es + [steps[1]];
    Extend(es, steps[2]); es := es + [steps[2]];
    Extend(es, steps[3]); es := es + [steps[3]];
    Extend(es, steps[4]); es := es + [steps[4]];
    Extend(es, steps[5]); es := es + [steps[5]];
    Extend(es, steps[6]); es := es + [steps[6]];
    Extend(es, steps[7]); es := es + [steps[7]];
    Extend(es, steps[8]); es := es + [steps[8]];
    Extend(es, steps[9]); es := es + [steps[9]];
  }
}
