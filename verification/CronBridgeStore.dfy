/** The bridge operations on their tables: SessionDB writes, the spool, the drain pass. */
module CronBridgeStore {
  import opened Basics
  import opened CronBridge

  class SessionDb {
    var sessions: seq<Session>
    var messages: seq<Row>

    ghost function View(): Db
      reads this
    {
      Db(sessions, messages)
    }

    constructor ()
      ensures View() == Db([], [])
    {
      sessions, messages := [], [];
    }

    /** Walks the parent links as long as the parent was closed by compression. */
    method CollectLineage(target: Sid) returns (lineage: set<Sid>)
      requires Linked(sessions)
      ensures lineage == Lineage(View(), target)
    {
      lineage := {target};
      var s: nat := target;
      while s < |sessions| && sessions[s].parent.Some? && sessions[s].parent.value < |sessions|
            && sessions[sessions[s].parent.value].ended == Some("compression")
        invariant lineage + Lineage(View(), s) == Lineage(View(), target)
        invariant s in lineage
        decreases s
      {
        s := sessions[s].parent.value;
        lineage := lineage + {s};
      }
    }

    method FindReport(lineage: set<Sid>, key: Key) returns (r: Option<nat>)
      ensures r == FindRow(messages, lineage, key)
    {
      for i := 0 to |messages|
        invariant FindRow(messages[..i], lineage, key) == None
      {
        assert messages[..i + 1][..i] == messages[..i];
        if messages[i].key == key && messages[i].session in lineage {
          FirstStays(lineage, key, i);
          return Some(i);
        }
      }
      assert messages[..|messages|] == messages;
      return None;
    }

    lemma FirstStays(lineage: set<Sid>, key: Key, i: nat)
      requires i < |messages| && FindRow(messages[..i], lineage, key) == None
      requires messages[i].key == key && messages[i].session in lineage
      ensures FindRow(messages, lineage, key) == Some(i)
    {
      FirstOf(messages, lineage, key, i);
    }

    /** One write transaction. */
    method Write(target: Sid, key: Key, content: string) returns (w: Write)
      requires Linked(sessions)
      modifies this
      ensures (View(), w) == WriteOnce(old(View()), target, key, content)
    {
      var lineage := CollectLineage(target);
      var existing := FindReport(lineage, key);
      if existing.Some? {
        if messages[existing.value].digest != content {
          return Permanent("delivery_conflict");
        }
        return Dedup(existing.value);
      }
      if target >= |sessions| {
        return Permanent("target_missing");
      }
      var session := sessions[target];
      if session.source == "cron" || session.source == "subagent" {
        return Permanent("target_wrong_source");
      }
      if session.hidden {
        return Permanent("target_hidden");
      }
      if session.archived {
        return Permanent("target_archived");
      }
      if session.ended.Some? && session.ended.value != "compression" {
        return Permanent("target_ended:" + session.ended.value);
      }
      if session.ended.Some? {
        return Closed;
      }
      if session.leased {
        return TurnLost;
      }
      messages := messages + [Row(target, key, content, true)];
      return Fresh(|messages| - 1);
    }
  }

  lemma {:induction false} FirstOf(messages: seq<Row>, lineage: set<Sid>, key: Key, i: nat)
    requires i < |messages| && FindRow(messages[..i], lineage, key) == None
    requires messages[i].key == key && messages[i].session in lineage
    ensures FindRow(messages, lineage, key) == Some(i)
  {
    var front := messages[..|messages| - 1];
    if i < |front| {
      assert front[..i] == messages[..i];
      FirstOf(front, lineage, key, i);
    }
  }

  /** A row as one drain pass read it. */
  datatype Job = Job(key: Key, content: string, attempts: nat)

  class SpoolStore {
    var pending: map<Key, Pending>
    var receipts: map<Key, Receipt>

    ghost function View(): Spool
      reads this
    {
      Spool(pending, receipts)
    }

    constructor ()
      ensures View() == Spool(map[], map[])
    {
      pending, receipts := map[], map[];
    }

    method Upsert(key: Key, status: Status, row: Option<nat>, error: Option<string>, digest: Option<string>)
      modifies this`receipts
      ensures View() == PutReceipt(old(View()), key, status, row, error, digest)
    {
      var receipt := Receipt(status, row, error, digest);
      if key in receipts {
        var was := receipts[key];
        if was.status == DeliveredStatus {
          receipt := receipt.(status := DeliveredStatus);
        }
        if row.None? {
          receipt := receipt.(row := was.row);
        }
        if digest.None? {
          receipt := receipt.(digest := was.digest);
        }
      }
      receipts := receipts[key := receipt];
    }

    /** The first transaction of a delivery; true when an earlier delivery already answers it. */
    method Enqueue(key: Key, content: string, now: real) returns (answered: bool)
      modifies this`pending
      ensures View() == SpoolReport(old(View()), key, content, now)
      ensures answered <==> AlreadyDelivered(View(), key, content)
      ensures key in pending
    {
      if key !in pending {
        pending := pending[key := Pending(content, 0, now)];
      }
      answered := key in receipts && receipts[key].status == DeliveredStatus && receipts[key].digest == Some(content);
    }

    /** The last transaction of a direct delivery. */
    method AcknowledgeDirect(key: Key, content: string, outcome: Outcome, now: real)
      modifies this
      ensures View() == AckDirect(old(View()), key, content, outcome, now)
    {
      match outcome {
        case Delivered(row) =>
          pending := pending - {key};
          Upsert(key, DeliveredStatus, Some(row), None, Some(content));
        case Echoed(row) =>
          pending := pending - {key};
          Upsert(key, DeliveredStatus, Some(row), None, Some(content));
        case Refused(error) =>
          Upsert(key, Failed, None, Some(error), None);
          pending := pending - {key};
        case Retry =>
          Upsert(key, Queued, None, None, None);
          if key in pending {
            pending := pending[key := pending[key].(nextRetry := now + DRAIN_BACKOFF_BASE)];
          }
      }
    }

    /** The last transaction of one drained row. */
    method AcknowledgeDrain(job: Job, outcome: Outcome, now: real)
      modifies this
      ensures View() == AckDrain(old(View()), job.key, job.content, job.attempts, outcome, now)
    {
      var key := job.key;
      match outcome {
        case Delivered(row) =>
          pending := pending - {key};
          Upsert(key, DeliveredStatus, Some(row), None, Some(job.content));
        case Echoed(row) =>
          pending := pending - {key};
          Upsert(key, DeliveredStatus, Some(row), None, Some(job.content));
        case Refused(error) =>
          pending := pending - {key};
          Upsert(key, Failed, None, Some(error), None);
        case Retry =>
          var attempts := job.attempts + 1;
          if attempts >= DRAIN_MAX_ATTEMPTS {
            pending := pending - {key};
            Upsert(key, Failed, None, Some("retry_exhausted"), None);
          } else if key in pending {
            pending := pending[key := pending[key].(attempts := attempts, nextRetry := now + Backoff(attempts))];
          }
      }
    }

    /**
     One pass over rows that were due when it began, each with the outcome of its own attempt. Every row
     is acknowledged once, in order, and each counter counts the rows that ended its way.
     */
    method DrainPass(jobs: seq<Job>, outcomes: seq<Outcome>, now: real)
      returns (delivered: nat, deduped: nat, queued: nat, failed: nat)
      requires |jobs| == |outcomes|
      modifies this
      ensures View() == AckAll(old(View()), jobs, outcomes, now)
      ensures delivered == HowMany(jobs, outcomes, Inserted) && deduped == HowMany(jobs, outcomes, Found)
      ensures queued == HowMany(jobs, outcomes, PutOff) && failed == HowMany(jobs, outcomes, DeadLetter)
      ensures delivered + deduped + queued + failed == |jobs|
    {
      delivered, deduped, queued, failed := 0, 0, 0, 0;
      for i := 0 to |jobs|
        invariant View() == AckAll(old(View()), jobs[..i], outcomes[..i], now)
        invariant delivered == HowMany(jobs[..i], outcomes[..i], Inserted) && deduped == HowMany(jobs[..i], outcomes[..i], Found)
        invariant queued == HowMany(jobs[..i], outcomes[..i], PutOff) && failed == HowMany(jobs[..i], outcomes[..i], DeadLetter)
        invariant delivered + deduped + queued + failed == i
      {
        assert jobs[..i + 1][..i] == jobs[..i] && outcomes[..i + 1][..i] == outcomes[..i];
        AcknowledgeDrain(jobs[i], outcomes[i], now);
        match outcomes[i] {
          case Delivered(_) => delivered := delivered + 1;
          case Echoed(_) => deduped := deduped + 1;
          case Refused(_) => failed := failed + 1;
          case Retry =>
            if jobs[i].attempts + 1 >= DRAIN_MAX_ATTEMPTS {
              failed := failed + 1;
            } else {
              queued := queued + 1;
            }
        }
      }
      assert jobs[..|jobs|] == jobs && outcomes[..|jobs|] == outcomes;
    }
  }

  /** How a drained row ends: its report inserted, found in place, put off, or closed as failed. */
  datatype Ending = Inserted | Found | PutOff | DeadLetter

  function EndingOf(job: Job, outcome: Outcome): Ending {
    match outcome
    case Delivered(_) => Inserted
    case Echoed(_) => Found
    case Refused(_) => DeadLetter
    case Retry => if job.attempts + 1 >= DRAIN_MAX_ATTEMPTS then DeadLetter else PutOff
  }

  function HowMany(jobs: seq<Job>, outcomes: seq<Outcome>, e: Ending): nat
    requires |jobs| == |outcomes|
  {
    if jobs == [] then 0
    else
      var n := |jobs| - 1;
      HowMany(jobs[..n], outcomes[..n], e) + (if EndingOf(jobs[n], outcomes[n]) == e then 1 else 0)
  }

  predicate WasDelivered(s: Spool, key: Key) {
    key in s.receipts && s.receipts[key].status == DeliveredStatus
  }

  /** What each ending leaves behind: only a put-off row stays, a closed one has a failed receipt unless it was delivered before. */
  lemma EndingLeaves(s: Spool, job: Job, outcome: Outcome, now: real)
    ensures var s', e := AckDrain(s, job.key, job.content, job.attempts, outcome, now), EndingOf(job, outcome);
            && (job.key in s'.pending <==> job.key in s.pending && e == PutOff)
            && (e == PutOff ==> s'.receipts == s.receipts)
            && (e == Inserted || e == Found ==> job.key in s'.receipts && s'.receipts[job.key].status == DeliveredStatus)
            && (e == DeadLetter ==>
                  job.key in s'.receipts && s'.receipts[job.key].status == if WasDelivered(s, job.key) then DeliveredStatus else Failed)
  {
  }

  function AckAll(s: Spool, jobs: seq<Job>, outcomes: seq<Outcome>, now: real): Spool
    requires |jobs| == |outcomes|
  {
    if jobs == [] then s
    else
      var n := |jobs| - 1;
      AckDrain(AckAll(s, jobs[..n], outcomes[..n], now), jobs[n].key, jobs[n].content, jobs[n].attempts, outcomes[n], now)
  }

  // ---------------------------------------------------------------- the retry loop of one attempt

  /** One turn of the loop; no outcome means the target was closed by compression. */
  function TryOnce(db: Db, key: Key, content: string, t: Try): (r: (Db, Option<Outcome>))
    requires Linked(db.sessions)
    ensures Linked(r.0.sessions)
  {
    if !t.available then (db, Some(Retry))
    else
      LinkedAfterMoves(db, t.before + t.between);
      var moved := ApplyMoves(db, t.before + t.between);
      if t.busy then (moved, Some(Retry))
      else
        var (db', w) := WriteOnce(moved, t.target, key, content);
        (db', OutcomeOf(w))
  }

  /** The loop of `_attempt`: each resolution meets whatever SessionDB became. */
  function AttemptFrom(db: Db, key: Key, content: string, tries: seq<Try>): (Db, Outcome)
    requires Linked(db.sessions)
    decreases |tries|
  {
    if tries == [] then (db, Retry)
    else
      var (db', outcome) := TryOnce(db, key, content, tries[0]);
      if outcome.Some? then (db', outcome.value) else AttemptFrom(db', key, content, tries[1..])
  }

  lemma {:induction false} LinkedAfterMoves(db: Db, ms: seq<Move>)
    requires Linked(db.sessions)
    ensures Linked(ApplyMoves(db, ms).sessions)
  {
    if ms != [] {
      LinkedAfterMoves(db, ms[..|ms| - 1]);
      LinkedAfterMove(ApplyMoves(db, ms[..|ms| - 1]), ms[|ms| - 1]);
    }
  }

  lemma LinkedAfterMove(db: Db, m: Move)
    requires Linked(db.sessions)
    ensures Linked(ApplyMove(db, m).sessions)
  {
    var sessions := ApplyMove(db, m).sessions;
    forall s | 0 <= s < |sessions|
      ensures sessions[s].parent.Some? ==> sessions[s].parent.value < s
      ensures sessions[s].ended == Some("compression") <==> sessions[s].next.Some?
      ensures sessions[s].next.Some? ==>
                s < sessions[s].next.value < |sessions| && sessions[sessions[s].next.value].parent == Some(s)
    {
      if s < |db.sessions| && db.sessions[s].next.Some? {
        assert db.sessions[db.sessions[s].next.value].parent == Some(s);
      }
    }
  }

  /** What the rest of the system does to SessionDB meanwhile. */
  method MoveOn(store: SessionDb, moves: seq<Move>)
    requires Linked(store.sessions)
    modifies store
    ensures store.View() == ApplyMoves(old(store.View()), moves) && Linked(store.sessions)
  {
    LinkedAfterMoves(store.View(), moves);
    var moved := ApplyMoves(Db(store.sessions, store.messages), moves);
    store.sessions, store.messages := moved.sessions, moved.messages;
  }

  method Resolve(store: SessionDb, key: Key, content: string, t: Try) returns (r: Option<Outcome>)
    requires Linked(store.sessions)
    modifies store
    ensures (store.View(), r) == TryOnce(old(store.View()), key, content, t)
  {
    if !t.available {
      return Some(Retry);
    }
    MoveOn(store, t.before + t.between);
    if t.busy {
      return Some(Retry);
    }
    var w := store.Write(t.target, key, content);
    match w {
      case Fresh(row) => return Some(Delivered(row));
      case Dedup(row) => return Some(Echoed(row));
      case Permanent(error) => return Some(Refused(error));
      case TurnLost => return Some(Retry);
      case Closed => return None;
    }
  }

  /** Resolve and write, re-resolving at most twice when a rotation closed the target meanwhile. */
  method Attempt(store: SessionDb, key: Key, content: string, tries: seq<Try>) returns (r: Outcome)
    requires Linked(store.sessions) && |tries| == RESOLVE_RETRIES
    modifies store
    ensures (store.View(), r) == AttemptFrom(old(store.View()), key, content, tries)
  {
    for i := 0 to RESOLVE_RETRIES
      invariant Linked(store.sessions)
      invariant AttemptFrom(store.View(), key, content, tries[i..]) == AttemptFrom(old(store.View()), key, content, tries)
    {
      assert tries[i..][0] == tries[i] && tries[i..][1..] == tries[i + 1..];
      var outcome := Resolve(store, key, content, tries[i]);
      if outcome.Some? {
        return outcome.value;
      }
    }
    return Retry;
  }
}
