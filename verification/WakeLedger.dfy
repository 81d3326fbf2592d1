/**
 The wake ledger of one profile: batches of report keys, and the consumption row of every key.

 This module is the specification. Each operation of `compat/auto_wake_store.py` is a function
 from the ledger (and what the operation is told about the rest of the world) to the new ledger
 and the answer. `WakeLedgerStore` holds the methods that work on the tables in place.
 */
module WakeLedger {
  import opened Basics

  type Key = string
  type SessionId = string
  type BatchId = string
  type RunId = string

  const SESSION_WAKE_LIMIT := 6
  const PROFILE_WAKE_LIMIT := 12
  const QUOTA_WINDOW := 3600.0
  const CONTENT_COOLDOWN := 900.0
  const BATCH_MAX := 10
  const ADMIT_MAX_KEYS := 32
  const HEX := "0123456789abcdef"

  datatype BatchState = Reserved | Dispatching | Accepted | UncertainConsumed | Terminal | Released

  datatype Batch = Batch(
    session: SessionId, state: BatchState, reason: Option<string>, runId: Option<RunId>,
    canonicalInput: string, keys: set<Key>, createdAt: real, updatedAt: real,
    terminalAt: Option<real>, owner: Option<string>)

  /** One row of wake_consumption. An ignored row never belongs to a batch. */
  datatype Consumption = Consumption(
    batch: Option<BatchId>, session: SessionId, messageId: Option<int>, ignored: bool, createdAt: real)

  datatype Ledger = Ledger(batches: map<BatchId, Batch>, consumption: map<Key, Consumption>)

  const EmptyLedger := Ledger(map[], map[])

  // ---------------------------------------------------------------- quota

  /** The batches that count against a window opening at `since`, for one session or for all. */
  function Counted(batches: map<BatchId, Batch>, session: Option<SessionId>, since: real): (r: set<BatchId>) {
    set b | b in batches && batches[b].createdAt > since && batches[b].state != Released
            && (session.None? || batches[b].session == session.value)
  }

  predicate QuotaLeft(batches: map<BatchId, Batch>, session: SessionId, at: real) {
    && |Counted(batches, Some(session), at - QUOTA_WINDOW)| < SESSION_WAKE_LIMIT
    && |Counted(batches, None, at - QUOTA_WINDOW)| < PROFILE_WAKE_LIMIT
  }

  // ---------------------------------------------------------------- admission

  predicate IsKey(k: string) {
    |k| == 64 && forall c | c in k :: c in HEX
  }

  /** The request keys that survive validation, in request order. */
  function ValidKeys(raw: seq<string>): (r: seq<Key>) {
    if raw == [] then []
    else ValidKeys(raw[..|raw| - 1]) + (if IsKey(raw[|raw| - 1]) then [raw[|raw| - 1]] else [])
  }

  predicate Distinct<T(==)>(s: seq<T>) {
    forall i, j | 0 <= i < j < |s| :: s[i] != s[j]
  }

  datatype SessionRow = SessionRow(hidden: bool, archived: bool, source: string, ended: bool, endReason: string)

  predicate SessionAllowed(s: SessionRow) {
    !s.hidden && !s.archived && s.source != "cron" && s.source != "subagent"
    && (s.ended ==> s.endReason == "compression")
  }

  /** The provenance and normalized body of a report row. */
  datatype Source = Source(jobId: string, text: string)

  datatype Report = Report(id: int, timestamp: real, schemaOne: bool, idle: bool, source: Source)

  /** What one admission reads from SessionDB, and the clock. */
  datatype AdmitEnv = AdmitEnv(
    session: Option<SessionRow>, busy: bool, reports: map<Key, Report>, stored: map<int, Source>, at: real)

  datatype Claim = Claim(key: Key, messageId: int)
  datatype Reason = AlreadyConsumed(batch: Option<BatchId>) | UnknownProvenance | CausalSuspect | BatchOverflow
  datatype Rejection = Rejection(key: Key, reason: Reason)

  /** The lists the admission loop builds, and the consumption table it writes as it goes. */
  datatype Scan = Scan(
    consumption: map<Key, Consumption>, claims: seq<Claim>, ignored: seq<Key>, rejected: seq<Rejection>)

  /** A report written while a wake run of the same session was in flight. */
  predicate Suspect(batches: map<BatchId, Batch>, resolved: SessionId, stamp: real) {
    exists b | b in batches ::
      && batches[b].session == resolved
      && (batches[b].state == Dispatching || batches[b].state == Accepted)
      && batches[b].createdAt < stamp
      && (batches[b].terminalAt.None? || batches[b].terminalAt.value > stamp)
  }

  /** The same job already woke this session with the same text inside the cooldown. */
  predicate SameSourceRecent(consumption: map<Key, Consumption>, env: AdmitEnv, resolved: SessionId, row: Report) {
    row.source.jobId != "" &&
    exists k | k in consumption ::
      && consumption[k].session == resolved && !consumption[k].ignored
      && consumption[k].createdAt > env.at - CONTENT_COOLDOWN
      && consumption[k].messageId.Some?
      && consumption[k].messageId.value in env.stored
      && env.stored[consumption[k].messageId.value] == row.source
  }

  function IgnoredRow(resolved: SessionId, at: real): Consumption {
    Consumption(None, resolved, None, true, at)
  }

  /** One turn of the admission loop. */
  function Examine(batches: map<BatchId, Batch>, env: AdmitEnv, resolved: SessionId, sc: Scan, key: Key): Scan {
    if key in sc.consumption then
      if sc.consumption[key].ignored then sc.(ignored := sc.ignored + [key])
      else sc.(rejected := sc.rejected + [Rejection(key, AlreadyConsumed(sc.consumption[key].batch))])
    else if key !in env.reports || !env.reports[key].schemaOne then
      sc.(rejected := sc.rejected + [Rejection(key, UnknownProvenance)])
    else if env.reports[key].idle then
      sc.(consumption := sc.consumption[key := IgnoredRow(resolved, env.at)], ignored := sc.ignored + [key])
    else if Suspect(batches, resolved, env.reports[key].timestamp) then
      sc.(rejected := sc.rejected + [Rejection(key, CausalSuspect)])
    else if SameSourceRecent(sc.consumption, env, resolved, env.reports[key]) then
      sc.(consumption := sc.consumption[key := IgnoredRow(resolved, env.at)], ignored := sc.ignored + [key])
    else
      sc.(claims := sc.claims + [Claim(key, env.reports[key].id)])
  }

  function ScanKeys(batches: map<BatchId, Batch>, env: AdmitEnv, resolved: SessionId,
                    consumption: map<Key, Consumption>, keys: seq<Key>): Scan
  {
    if keys == [] then Scan(consumption, [], [], [])
    else Examine(batches, env, resolved, ScanKeys(batches, env, resolved, consumption, keys[..|keys| - 1]), keys[|keys| - 1])
  }

  function Overflow(claims: seq<Claim>): (r: seq<Rejection>)
    ensures |r| == |claims|
    ensures forall i | 0 <= i < |r| :: r[i] == Rejection(claims[i].key, BatchOverflow)
  {
    if claims == [] then [] else Overflow(claims[..|claims| - 1]) + [Rejection(claims[|claims| - 1].key, BatchOverflow)]
  }

  /** At most BATCH_MAX claims stay; the rest are rejected. */
  function Capped(sc: Scan): Scan {
    if |sc.claims| <= BATCH_MAX then sc
    else sc.(claims := sc.claims[..BATCH_MAX], rejected := sc.rejected + Overflow(sc.claims[BATCH_MAX..]))
  }

  function ClaimKeys(claims: seq<Claim>): (r: set<Key>) {
    if claims == [] then {} else ClaimKeys(claims[..|claims| - 1]) + {claims[|claims| - 1].key}
  }

  /** The consumption rows of a new batch, inserted in claim order. */
  function WithClaims(consumption: map<Key, Consumption>, claims: seq<Claim>, batch: BatchId, session: SessionId, at: real): map<Key, Consumption> {
    if claims == [] then consumption
    else
      var last := claims[|claims| - 1];
      WithClaims(consumption, claims[..|claims| - 1], batch, session, at)
        [last.key := Consumption(Some(batch), session, Some(last.messageId), false, at)]
  }

  datatype AdmitResult =
    | AdmitError(code: string)
    | Busy
    | QuotaExceeded
    | Empty(ignored: seq<Key>, rejected: seq<Rejection>)
    | Admitted(batch: BatchId, accepted: seq<Claim>, ignored: seq<Key>, rejected: seq<Rejection>)
    | BatchIdTaken   // the insert breaks the primary key and the transaction rolls back

  /** The requests refused before the ledger is read. */
  function Refusal(env: AdmitEnv): Option<AdmitResult> {
    if env.session.None? then Some(AdmitError("session_not_found"))
    else if !SessionAllowed(env.session.value) then Some(AdmitError("session_not_allowed"))
    else if env.busy then Some(Busy)
    else None
  }

  function AdmitKeys(l: Ledger, env: AdmitEnv, resolved: SessionId, keys: seq<Key>, batch: BatchId,
                     canonical: string, owner: Option<string>): (Ledger, AdmitResult)
  {
    if keys == [] then (l, AdmitError("no_valid_keys"))
    else if |keys| > ADMIT_MAX_KEYS then (l, AdmitError("too_many_keys"))
    else if Refusal(env).Some? then (l, Refusal(env).value)
    else if !QuotaLeft(l.batches, resolved, env.at) then (l, QuotaExceeded)
    else
      var sc := Capped(ScanKeys(l.batches, env, resolved, l.consumption, keys));
      if sc.claims == [] then (l.(consumption := sc.consumption), Empty(sc.ignored, sc.rejected))
      else if batch in l.batches then (l, BatchIdTaken)
      else
        (Ledger(l.batches[batch := Batch(resolved, Reserved, None, None, canonical, ClaimKeys(sc.claims),
                                         env.at, env.at, None, owner)],
                WithClaims(sc.consumption, sc.claims, batch, resolved, env.at)),
         Admitted(batch, sc.claims, sc.ignored, sc.rejected))
  }

  // ---------------------------------------------------------------- the dispatch door

  datatype GateError = BatchUnknown | BatchForeign | CanonicalMismatch | InFlight | AlreadyConsumedBatch | BatchReleased

  /** None lets the stream proceed: the batch went from reserved to dispatching. */
  function Gate(l: Ledger, batch: BatchId, resolved: SessionId, input: Option<string>, now: real): (Ledger, Option<GateError>) {
    if batch !in l.batches then (l, Some(BatchUnknown))
    else
      var b := l.batches[batch];
      if b.session != resolved then (l, Some(BatchForeign))
      else match b.state
        case Reserved =>
          if input != Some(b.canonicalInput) then (l, Some(CanonicalMismatch))
          else (l.(batches := l.batches[batch := b.(state := Dispatching, updatedAt := now)]), None)
        case Dispatching => (l, Some(InFlight))
        case Accepted => (l, Some(InFlight))
        case UncertainConsumed => (l, Some(AlreadyConsumedBatch))
        case Terminal => (l, Some(AlreadyConsumedBatch))
        case Released => (l, Some(BatchReleased))
  }

  function DispatchFailed(l: Ledger, batch: BatchId, now: real): Ledger {
    if batch in l.batches && l.batches[batch].state == Dispatching && l.batches[batch].runId.None? then
      l.(batches := l.batches[batch := l.batches[batch].(state := Reserved, updatedAt := now)])
    else l
  }

  datatype Claimed = ClaimAccepted | ClaimTerminal | ClaimUncertain | ClaimOther
  datatype ReportResult = ReportOk | ReportConflict(state: BatchState) | ReportError(code: string)

  predicate InFlightState(s: BatchState) { s == Dispatching || s == Accepted }

  function ReportState(l: Ledger, batch: BatchId, resolved: SessionId, claim: Claimed, runId: Option<RunId>, at: real): (Ledger, ReportResult) {
    if batch !in l.batches || l.batches[batch].session != resolved then (l, ReportError("batch_not_found"))
    else
      var b := l.batches[batch];
      match claim
      case ClaimAccepted =>
        if runId.None? then (l, ReportError("run_id_required"))
        else if b.state == Accepted && b.runId == runId then (l, ReportOk)
        else if b.state != Dispatching then (l, ReportConflict(b.state))
        else (l.(batches := l.batches[batch := b.(state := Accepted, runId := runId, updatedAt := at)]), ReportOk)
      case ClaimTerminal =>
        if !InFlightState(b.state) then (l, ReportConflict(b.state))
        else (l.(batches := l.batches[batch := b.(state := Terminal, updatedAt := at, terminalAt := Some(at))]), ReportOk)
      case ClaimUncertain =>
        if !InFlightState(b.state) then (l, ReportConflict(b.state))
        else (l.(batches := l.batches[batch := b.(state := UncertainConsumed, updatedAt := at, terminalAt := Some(at),
                                                  reason := Some("uncertain-consumed"))]), ReportOk)
      case ClaimOther => (l, ReportError("unknown_state"))
  }

  datatype ReleaseResult = ReleaseOk | ReleaseConflict(state: BatchState) | ReleaseError

  /** Only a batch that is provably undispatched gives its claims and its quota back. */
  function Release(l: Ledger, batch: BatchId, resolved: SessionId, now: real): (Ledger, ReleaseResult) {
    if batch !in l.batches || l.batches[batch].session != resolved then (l, ReleaseError)
    else
      var b := l.batches[batch];
      if b.state != Reserved || b.runId.Some? then (l, ReleaseConflict(b.state))
      else
        (Ledger(l.batches[batch := b.(state := Released, updatedAt := now, terminalAt := Some(now), reason := Some("released"))],
                map k | k in l.consumption && l.consumption[k].batch != Some(batch) :: l.consumption[k]),
         ReleaseOk)
  }

  // ---------------------------------------------------------------- historical settlement

  datatype Proof = RunTerminal(at: real) | DoneIntents(at: real, intents: map<Key, Intent>)

  datatype RunSnapshot = RunSnapshot(runId: RunId, session: SessionId, terminal: bool, updatedAt: Option<real>)

  /** A run snapshot proves the end of a batch only when run, session and time all match. */
  function RunProof(b: Batch, snap: Option<RunSnapshot>, now: real): Option<Proof> {
    if snap.Some? && b.runId == Some(snap.value.runId) && snap.value.session == b.session && snap.value.terminal
       && snap.value.updatedAt.Some? && b.createdAt <= snap.value.updatedAt.value <= now + 30.0
    then Some(RunTerminal(snap.value.updatedAt.value))
    else None
  }

  datatype Intent = Intent(sameHome: bool, session: SessionId, done: bool, updatedAt: real)

  /** Closed bookkeeping: every claimed key has a matching done intent. `latest` is their newest stamp. */
  predicate DoneEvidence(l: Ledger, batch: BatchId, intents: map<Key, Intent>, latest: real, now: real)
    requires batch in l.batches
  {
    var b := l.batches[batch];
    && b.keys != {}
    && (set k | k in l.consumption && l.consumption[k].batch == Some(batch)) == b.keys == intents.Keys
    && (forall k | k in b.keys :: k in l.consumption && l.consumption[k].session == b.session && !l.consumption[k].ignored)
    && (forall k | k in intents :: intents[k].done && intents[k].sameHome && intents[k].session == b.session
                                   && b.createdAt <= intents[k].updatedAt <= now + 30.0 && intents[k].updatedAt <= latest)
    && (exists k | k in intents :: intents[k].updatedAt == latest)
  }

  predicate SelfOwned(b: Batch) {
    b.owner.Some? && |b.owner.value| >= 5 && b.owner.value[..5] == "self:"
  }

  function TargetState(p: Proof): BatchState {
    if p.RunTerminal? then Terminal else UncertainConsumed
  }

  /** The columns a settlement compares before it trusts a candidate row. */
  predicate SameRow(a: Batch, b: Batch) {
    && a.state == b.state && a.runId == b.runId && a.session == b.session && a.owner == b.owner
    && a.updatedAt == b.updatedAt && a.keys == b.keys && a.createdAt == b.createdAt
  }

  /** What the page that planned a settlement saw: the row, the run's snapshot, and closed bookkeeping if that was allowed. */
  datatype Seen = Seen(row: Batch, run: Option<RunSnapshot>, at: real, done: Option<Proof>)

  /** A run's snapshot proves before closed bookkeeping does. */
  function PlannedProof(seen: Seen): Option<Proof> {
    var run := RunProof(seen.row, seen.run, seen.at);
    if run.Some? then run else if seen.done.Some? && seen.done.value.DoneIntents? then seen.done else None
  }

  predicate Settleable(b: Batch) {
    SelfOwned(b) && (b.state == Reserved || InFlightState(b.state))
  }

  /** Closed bookkeeping must still read exactly as it was planned. */
  predicate StillProved(l: Ledger, batch: BatchId, proof: Proof, intents: map<Key, Intent>, now: real)
    requires batch in l.batches
  {
    proof.DoneIntents? ==> proof.intents == intents && DoneEvidence(l, batch, intents, proof.at, now)
  }

  /** Settle one historical batch; one that changed since it was seen is left alone. */
  function SettleHistorical(l: Ledger, batch: BatchId, seen: Seen, intents: map<Key, Intent>, now: real): (Ledger, bool) {
    var proof := PlannedProof(seen);
    if proof.None? || batch !in l.batches || !SameRow(l.batches[batch], seen.row) || !Settleable(seen.row)
       || !StillProved(l, batch, proof.value, intents, now)
    then (l, false)
    else
      (l.(batches := l.batches[batch := l.batches[batch].(state := TargetState(proof.value), terminalAt := Some(proof.value.at),
                                                  updatedAt := now,
                                                  reason := Some(if proof.value.RunTerminal? then "reconciled-run-terminal"
                                                                 else "reconciled-done-intents"))]), true)
  }
}
