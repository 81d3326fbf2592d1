/**
 The cron report bridge: a durable spool of pending reports and receipts, and the SessionDB that the
 reports are written into. The two stores share no transaction; the spool is written first and
 acknowledged last.
 */
module CronBridge {
  import opened Basics

  const DRAIN_MAX_ATTEMPTS := 24
  const DRAIN_BACKOFF_BASE := 30.0
  const DRAIN_BACKOFF_CAP := 900.0
  const RESOLVE_RETRIES := 3
  const DRAIN_PAGE := 32

  type Sid = nat

  /** The hash of profile home, job, execution and session, taken to be injective. */
  datatype Key = Key(job: string, execution: string, session: Sid)

  // ---------------------------------------------------------------- SessionDB

  /** `ended` is the end reason; `next` is the continuation a compression created. */
  datatype Session = Session(parent: Option<Sid>, ended: Option<string>, next: Option<Sid>,
                             source: string, hidden: bool, archived: bool, leased: bool)

  /** A report row. `digest` stands for the content it hashes; a compression may copy rows. */
  datatype Row = Row(session: Sid, key: Key, digest: string, inserted: bool)

  /** Sessions and messages are numbered in the order they were created. */
  datatype Db = Db(sessions: seq<Session>, messages: seq<Row>)

  predicate Compressed(db: Db, s: Sid) {
    s < |db.sessions| && db.sessions[s].ended == Some("compression")
  }

  /** A parent is older than its child; exactly the compressed sessions have a continuation. */
  ghost predicate Linked(sessions: seq<Session>) {
    && (forall s {:trigger sessions[s].parent} | 0 <= s < |sessions| :: sessions[s].parent.Some? ==> sessions[s].parent.value < s)
    && (forall s {:trigger sessions[s].ended} {:trigger sessions[s].next} | 0 <= s < |sessions| ::
          sessions[s].ended == Some("compression") <==> sessions[s].next.Some?)
    && (forall s {:trigger sessions[s].next} | 0 <= s < |sessions| :: sessions[s].next.Some? ==>
          s < sessions[s].next.value < |sessions| && sessions[sessions[s].next.value].parent == Some(s))
  }

  /** The session and its compression ancestors: the rows a write looks at before it inserts. */
  function Lineage(db: Db, s: Sid): (r: set<Sid>)
    requires Linked(db.sessions)
    ensures s in r && forall t | t in r :: t <= s
  {
    if s < |db.sessions| && db.sessions[s].parent.Some? && Compressed(db, db.sessions[s].parent.value)
    then {s} + Lineage(db, db.sessions[s].parent.value)
    else {s}
  }

  /** The first row of the lineage that carries the key. */
  function FindRow(messages: seq<Row>, lineage: set<Sid>, key: Key): (r: Option<nat>)
    ensures r.Some? ==> r.value < |messages| && messages[r.value].key == key && messages[r.value].session in lineage
    ensures r.None? ==> forall i | 0 <= i < |messages| :: messages[i].key != key || messages[i].session !in lineage
  {
    if messages == [] then None
    else
      var earlier := FindRow(messages[..|messages| - 1], lineage, key);
      if earlier.Some? then earlier
      else if messages[|messages| - 1].key == key && messages[|messages| - 1].session in lineage then Some(|messages| - 1)
      else None
  }

  datatype Write = Fresh(row: nat) | Dedup(row: nat) | Permanent(error: string) | TurnLost | Closed

  /** Why the target may not take a report, before the transcript guards. */
  function Policy(s: Session): Option<string> {
    if s.source == "cron" || s.source == "subagent" then Some("target_wrong_source")
    else if s.hidden then Some("target_hidden")
    else if s.archived then Some("target_archived")
    else if s.ended.Some? && s.ended.value != "compression" then Some("target_ended:" + s.ended.value)
    else None
  }

  /** One SessionDB transaction. The transcript guard refuses a compressed or leased session. */
  function WriteOnce(db: Db, target: Sid, key: Key, content: string): (Db, Write)
    requires Linked(db.sessions)
  {
    var existing := FindRow(db.messages, Lineage(db, target), key);
    if existing.Some? then
      (db, if db.messages[existing.value].digest != content then Permanent("delivery_conflict") else Dedup(existing.value))
    else if target >= |db.sessions| then (db, Permanent("target_missing"))
    else if Policy(db.sessions[target]).Some? then (db, Permanent(Policy(db.sessions[target]).value))
    else if Compressed(db, target) then (db, Closed)
    else if db.sessions[target].leased then (db, TurnLost)
    else (db.(messages := db.messages + [Row(target, key, content, true)]), Fresh(|db.messages|))
  }

  /** What the rest of the system does to SessionDB between two steps of a delivery. */
  datatype Move =
    | Rotate(s: Sid, copied: seq<nat>)   // compression: close s, continue in a new session, copy some of its rows
    | Create(session: Session)           // a new session, possibly a fork of an older one
    | Change(s: Sid, ended: Option<string>, hidden: bool, archived: bool, leased: bool)

  function CopyRows(messages: seq<Row>, from: Sid, to: Sid, copied: seq<nat>): (r: seq<Row>) {
    if copied == [] then []
    else
      var i := copied[|copied| - 1];
      CopyRows(messages, from, to, copied[..|copied| - 1])
      + (if i < |messages| && messages[i].session == from then [messages[i].(session := to, inserted := false)] else [])
  }

  function ApplyMove(db: Db, m: Move): Db {
    match m
    case Rotate(s, copied) =>
      if s < |db.sessions| && db.sessions[s].ended.None? then
        var child := |db.sessions|;
        Db(db.sessions[s := db.sessions[s].(ended := Some("compression"), next := Some(child))]
             + [db.sessions[s].(parent := Some(s), next := None)],
           db.messages + CopyRows(db.messages, s, child, copied))
      else db
    case Create(session) =>
      if session.next.None? && session.ended != Some("compression")
         && (session.parent.Some? ==> session.parent.value < |db.sessions|)
      then db.(sessions := db.sessions + [session]) else db
    case Change(s, ended, hidden, archived, leased) =>
      if s < |db.sessions| && !Compressed(db, s) && ended != Some("compression") then
        db.(sessions := db.sessions[s := db.sessions[s].(ended := ended, hidden := hidden, archived := archived, leased := leased)])
      else db
  }

  // ---------------------------------------------------------------- one attempt

  /** How an attempt ends, as the acknowledgement sees it. */
  datatype Outcome = Delivered(row: nat) | Echoed(row: nat) | Refused(error: string) | Retry

  /** What one turn of the retry loop meets. */
  datatype Try = Try(available: bool, before: seq<Move>, target: Sid, between: seq<Move>, busy: bool)

  function ApplyMoves(db: Db, ms: seq<Move>): Db {
    if ms == [] then db else ApplyMove(ApplyMoves(db, ms[..|ms| - 1]), ms[|ms| - 1])
  }

  function OutcomeOf(w: Write): Option<Outcome> {
    match w
    case Fresh(row) => Some(Delivered(row))
    case Dedup(row) => Some(Echoed(row))
    case Permanent(error) => Some(Refused(error))
    case TurnLost => Some(Retry)
    case Closed => None
  }

  // ---------------------------------------------------------------- the spool

  datatype Pending = Pending(content: string, attempts: nat, nextRetry: real)
  datatype Status = Queued | DeliveredStatus | Failed
  datatype Receipt = Receipt(status: Status, row: Option<nat>, error: Option<string>, digest: Option<string>)
  datatype Spool = Spool(pending: map<Key, Pending>, receipts: map<Key, Receipt>)

  /** The receipt upsert: a delivered status is never rewritten, row and digest are never forgotten. */
  function PutReceipt(s: Spool, key: Key, status: Status, row: Option<nat>, error: Option<string>, digest: Option<string>): Spool {
    s.(receipts := s.receipts[key :=
      if key in s.receipts then
        var was := s.receipts[key];
        Receipt(if was.status == DeliveredStatus then DeliveredStatus else status, Coalesce(row, was.row), error, Coalesce(digest, was.digest))
      else Receipt(status, row, error, digest)])
  }

  function Unspool(s: Spool, key: Key): Spool {
    s.(pending := s.pending - {key})
  }

  /** The report is durable before anything else happens to it. */
  function SpoolReport(s: Spool, key: Key, content: string, now: real): Spool {
    if key in s.pending then s else s.(pending := s.pending[key := Pending(content, 0, now)])
  }

  /** A delivered receipt of the same content needs no attempt. */
  predicate AlreadyDelivered(s: Spool, key: Key, content: string) {
    key in s.receipts && s.receipts[key].status == DeliveredStatus && s.receipts[key].digest == Some(content)
  }

  function Postpone(s: Spool, key: Key, attempts: Option<nat>, at: real): Spool {
    if key in s.pending then
      s.(pending := s.pending[key := s.pending[key].(nextRetry := at,
                                                     attempts := if attempts.Some? then attempts.value else s.pending[key].attempts)])
    else s
  }

  /** The acknowledgement of a direct delivery. */
  function AckDirect(s: Spool, key: Key, content: string, outcome: Outcome, now: real): Spool {
    match outcome
    case Delivered(row) => PutReceipt(Unspool(s, key), key, DeliveredStatus, Some(row), None, Some(content))
    case Echoed(row) => PutReceipt(Unspool(s, key), key, DeliveredStatus, Some(row), None, Some(content))
    case Refused(error) => Unspool(PutReceipt(s, key, Failed, None, Some(error), None), key)
    case Retry => Postpone(PutReceipt(s, key, Queued, None, None, None), key, None, now + DRAIN_BACKOFF_BASE)
  }

  function Pow2(n: nat): nat {
    if n == 0 then 1 else 2 * Pow2(n - 1)
  }

  function Backoff(attempts: nat): real {
    var delay := DRAIN_BACKOFF_BASE * Pow2(if attempts < 5 then attempts else 5) as real;
    if delay < DRAIN_BACKOFF_CAP then delay else DRAIN_BACKOFF_CAP
  }

  /** The acknowledgement of a drained row; `attempts` is what the pass read when it began. */
  function AckDrain(s: Spool, key: Key, content: string, attempts: nat, outcome: Outcome, now: real): Spool {
    match outcome
    case Delivered(row) => PutReceipt(Unspool(s, key), key, DeliveredStatus, Some(row), None, Some(content))
    case Echoed(row) => PutReceipt(Unspool(s, key), key, DeliveredStatus, Some(row), None, Some(content))
    case Refused(error) => PutReceipt(Unspool(s, key), key, Failed, None, Some(error), None)
    case Retry =>
      if attempts + 1 >= DRAIN_MAX_ATTEMPTS then
        PutReceipt(Unspool(s, key), key, Failed, None, Some("retry_exhausted"), None)
      else Postpone(s, key, Some(attempts + 1), now + Backoff(attempts + 1))
  }

  /** The receipt that the crash-gap scan of the self-wake worker adds for a committed row. */
  function Backfill(s: Spool, key: Key, row: nat, digest: string): Spool {
    if key in s.receipts then s
    else s.(receipts := s.receipts[key := Receipt(DeliveredStatus, Some(row), None, Some(digest))])
  }
}
