/**
 The run-scoped steer inbox: runs, steers, batches and purged keys, and every operation on them as a
 function of the whole store. The steers are listed in the order they were inserted.
 */
module SteerStore {
  import opened Basics

  const OUTSTANDING_LIMIT := 32
  const RECEIPT_TTL := 2592000.0
  const HANDOFF_ERROR := "core_handoff"

  type BatchId = string
  type RowId = string

  datatype RunKey = RunKey(scope: string, run: string)

  /** The hash of owner scope, run id and client key, taken to be injective. */
  datatype SteerId = SteerId(run: RunKey, key: string)

  datatype State = Accepted | Staged | Delivered | NotDelivered | OutcomeUnknown

  /** `text` is also the digest the duplicate check compares. */
  datatype Steer = Steer(id: SteerId, text: string, number: nat, state: State, batch: Option<BatchId>,
                         row: Option<RowId>, error: Option<string>, updatedAt: real)

  datatype RunRow = RunRow(originalSid: Option<string>, resolvedSid: Option<string>, epoch: Option<string>,
                           closedReason: Option<string>, closedAt: Option<real>, nextNumber: nat)

  /** A batch is staged, delivered or of unknown outcome. */
  datatype Batch = Batch(run: RunKey, ordered: seq<SteerId>, state: State, row: Option<RowId>, createdAt: real)

  datatype Store = Store(runs: map<RunKey, RunRow>, steers: seq<Steer>, batches: map<BatchId, Batch>, purged: set<SteerId>)

  const EmptyStore := Store(map[], [], map[], {})

  // ---------------------------------------------------------------- reading the tables

  function Find(steers: seq<Steer>, id: SteerId): (r: Option<Steer>)
    ensures r.Some? ==> r.value in steers && r.value.id == id
    ensures r.None? ==> forall i | 0 <= i < |steers| :: steers[i].id != id
  {
    if steers == [] then None
    else
      var earlier := Find(steers[..|steers| - 1], id);
      if earlier.Some? then earlier
      else if steers[|steers| - 1].id == id then Some(steers[|steers| - 1]) else None
  }

  predicate Waiting(s: Steer, run: RunKey) {
    s.id.run == run && s.state == Accepted
  }

  /** The accepted steers of a run, oldest first. */
  function AcceptedOf(steers: seq<Steer>, run: RunKey): (r: seq<Steer>) {
    if steers == [] then []
    else if Waiting(steers[|steers| - 1], run) then AcceptedOf(steers[..|steers| - 1], run) + [steers[|steers| - 1]]
    else AcceptedOf(steers[..|steers| - 1], run)
  }

  /** How many steers of a run are accepted or staged. */
  function Outstanding(steers: seq<Steer>, run: RunKey): nat {
    if steers == [] then 0
    else
      var last := steers[|steers| - 1];
      Outstanding(steers[..|steers| - 1], run) + (if last.id.run == run && (last.state == Accepted || last.state == Staged) then 1 else 0)
  }

  function IdsOf(steers: seq<Steer>): (r: seq<SteerId>)
    ensures |r| == |steers| && forall i | 0 <= i < |r| :: r[i] == steers[i].id
  {
    seq(|steers|, i requires 0 <= i < |steers| => steers[i].id)
  }

  // ---------------------------------------------------------------- updates of all rows

  function RetireOne(s: Steer, run: RunKey, reason: string, now: real): Steer {
    if Waiting(s, run) then s.(state := NotDelivered, error := Some(reason), updatedAt := now) else s
  }

  function Retire(steers: seq<Steer>, run: RunKey, reason: string, now: real): (r: seq<Steer>)
    ensures |r| == |steers|
  {
    seq(|steers|, i requires 0 <= i < |steers| => RetireOne(steers[i], run, reason, now))
  }

  function StageOne(s: Steer, run: RunKey, batch: BatchId, now: real): Steer {
    if Waiting(s, run) then s.(state := Staged, batch := Some(batch), updatedAt := now) else s
  }

  function Stage(steers: seq<Steer>, run: RunKey, batch: BatchId, now: real): (r: seq<Steer>)
    ensures |r| == |steers|
  {
    seq(|steers|, i requires 0 <= i < |steers| => StageOne(steers[i], run, batch, now))
  }

  /** The rows of a batch take its new state; `row` is only written, never cleared. */
  function SettleOne(s: Steer, batch: BatchId, state: State, row: Option<RowId>, error: Option<string>, now: real): Steer {
    if s.batch == Some(batch) then s.(state := state, row := Coalesce(row, s.row), error := error, updatedAt := now) else s
  }

  function Settle(steers: seq<Steer>, batch: BatchId, state: State, row: Option<RowId>, error: Option<string>, now: real): (r: seq<Steer>)
    ensures |r| == |steers|
  {
    seq(|steers|, i requires 0 <= i < |steers| => SettleOne(steers[i], batch, state, row, error, now))
  }

  // ---------------------------------------------------------------- operations

  function RegisterRun(s: Store, run: RunKey, original: Option<string>, resolved: Option<string>, epoch: Option<string>): Store {
    s.(runs := s.runs[run :=
      if run in s.runs then
        s.runs[run].(resolvedSid := Coalesce(resolved, s.runs[run].resolvedSid), epoch := Coalesce(epoch, s.runs[run].epoch))
      else RunRow(original, resolved, epoch, None, None, 1)])
  }

  function ClosedRow(row: Option<RunRow>, reason: string, now: real): RunRow {
    if row.Some? then
      row.value.(closedReason := Coalesce(row.value.closedReason, Some(reason)), closedAt := Coalesce(row.value.closedAt, Some(now)))
    else RunRow(None, None, None, Some(reason), Some(now), 1)
  }

  function RowOf(s: Store, run: RunKey): Option<RunRow> {
    if run in s.runs then Some(s.runs[run]) else None
  }

  predicate Sealed(s: Store, run: RunKey) {
    run in s.runs && s.runs[run].closedReason.Some?
  }

  /** Stops admission and claims, and retires what is still accepted; staged batches stay. */
  function SealRun(s: Store, run: RunKey, reason: string, now: real): Store {
    s.(runs := s.runs[run := ClosedRow(RowOf(s, run), reason, now)], steers := Retire(s.steers, run, reason, now))
  }

  datatype Verdict = Expired | Conflict(hit: Steer) | Duplicate(hit: Steer) | RunClosed | QueueFull | Admitted(steer: Steer)

  function NewRow(sid: Option<string>, resolved: Option<string>, epoch: Option<string>): RunRow {
    RunRow(sid, resolved, epoch, None, None, 1)
  }

  /** Takes the next number of a run and appends the steer. */
  function Append(s: Store, id: SteerId, text: string, state: State, error: Option<string>, blank: RunRow, now: real): (Store, Steer) {
    var row := if id.run in s.runs then s.runs[id.run] else blank;
    var steer := Steer(id, text, row.nextNumber, state, None, None, error, now);
    (s.(runs := s.runs[id.run := row.(nextNumber := row.nextNumber + 1)], steers := s.steers + [steer]), steer)
  }

  /** Idempotent admission: the key decides before anything about the run does. */
  function Admit(s: Store, id: SteerId, text: string, blank: RunRow, now: real): (Store, Verdict) {
    if id in s.purged then (s, Expired)
    else
      var hit := Find(s.steers, id);
      if hit.Some? then (s, if hit.value.text != text then Conflict(hit.value) else Duplicate(hit.value))
      else if Sealed(s, id.run) then (s, RunClosed)
      else if Outstanding(s.steers, id.run) >= OUTSTANDING_LIMIT then (s, QueueFull)
      else
        var (s', steer) := Append(s, id, text, Accepted, None, blank, now);
        (s', Admitted(steer))
  }

  datatype Gate = GateExpired | GateClosed | GateOpen

  function HandoffGate(s: Store, id: SteerId): Gate {
    if id in s.purged then GateExpired else if Sealed(s, id.run) then GateClosed else GateOpen
  }

  /** The receipt of a steer the core's session authority took; an existing row answers for itself. */
  function RecordHandoff(s: Store, id: SteerId, text: string, blank: RunRow, now: real): (Store, Steer) {
    var hit := Find(s.steers, id);
    if hit.Some? then (s, hit.value)
    else Append(s, id, text, OutcomeUnknown, Some(HANDOFF_ERROR), blank, now)
  }

  datatype Claim = Nothing | Claimed(items: seq<Steer>) | BatchIdTaken

  /** Every accepted steer of an open run becomes one staged batch, oldest first. */
  function ClaimBatch(s: Store, run: RunKey, batch: BatchId, now: real): (Store, Claim) {
    if run !in s.runs || Sealed(s, run) then (s, Nothing)
    else
      var items := AcceptedOf(s.steers, run);
      if items == [] then (s, Nothing)
      else if batch in s.batches then (s, BatchIdTaken)
      else
        (s.(steers := Stage(s.steers, run, batch, now),
            batches := s.batches[batch := Batch(run, IdsOf(items), Staged, None, now)]), Claimed(items))
  }

  /** Exact evidence promotes a batch; a delivered batch is final. */
  function ConfirmBatch(s: Store, batch: BatchId, row: RowId, now: real): Store {
    if batch !in s.batches || s.batches[batch].state == Delivered then s
    else s.(batches := s.batches[batch := s.batches[batch].(state := Delivered, row := Some(row))],
            steers := Settle(s.steers, batch, Delivered, Some(row), None, now))
  }

  function MarkUnknown(s: Store, batch: BatchId, reason: string, now: real): Store {
    if batch !in s.batches || s.batches[batch].state == Delivered then s
    else s.(batches := s.batches[batch := s.batches[batch].(state := OutcomeUnknown)],
            steers := Settle(s.steers, batch, OutcomeUnknown, None, Some(reason), now))
  }

  predicate Prunable(runs: map<RunKey, RunRow>, run: RunKey, cutoff: real) {
    run in runs && runs[run].closedReason.Some? && runs[run].closedAt.Some? && runs[run].closedAt.value < cutoff
  }

  function Kept(steers: seq<Steer>, gone: set<RunKey>): (r: seq<Steer>) {
    if steers == [] then []
    else if steers[|steers| - 1].id.run in gone then Kept(steers[..|steers| - 1], gone)
    else Kept(steers[..|steers| - 1], gone) + [steers[|steers| - 1]]
  }

  function PurgedIds(steers: seq<Steer>, gone: set<RunKey>): (r: set<SteerId>) {
    if steers == [] then {}
    else if steers[|steers| - 1].id.run in gone then PurgedIds(steers[..|steers| - 1], gone) + {steers[|steers| - 1].id}
    else PurgedIds(steers[..|steers| - 1], gone)
  }

  /** Forgets the runs in `gone`: their steers leave a tombstone, their batches leave nothing. */
  function Forget(s: Store, gone: set<RunKey>): Store {
    Store(s.runs, Kept(s.steers, gone), map b | b in s.batches && s.batches[b].run !in gone :: s.batches[b],
          s.purged + PurgedIds(s.steers, gone))
  }

  function Prune(s: Store, now: real): Store {
    Forget(s, set run | run in s.runs && Prunable(s.runs, run, now - RECEIPT_TTL))
  }

  // ---------------------------------------------------------------- restart recovery, in one formula

  /** The runs a recovery seals: they hold accepted steers, are open, and nothing in this process is bound to them. */
  function StaleRuns(s: Store, live: set<string>): (r: set<RunKey>) {
    set i | 0 <= i < |s.steers| && s.steers[i].state == Accepted && s.steers[i].id.run.run !in live && !Sealed(s, s.steers[i].id.run)
      :: s.steers[i].id.run
  }

  function StagedBatches(s: Store): (r: set<BatchId>) {
    set b | b in s.batches && s.batches[b].state == Staged
  }

  function SealAll(s: Store, gone: set<RunKey>, reason: string, now: real): Store {
    s.(runs := map run | run in s.runs.Keys + gone :: if run in gone then ClosedRow(RowOf(s, run), reason, now) else s.runs[run],
       steers := seq(|s.steers|, i requires 0 <= i < |s.steers| =>
         if s.steers[i].id.run in gone then RetireOne(s.steers[i], s.steers[i].id.run, reason, now) else s.steers[i]))
  }

  /** What the committed history says about a batch: the row that carries it, or nothing. */
  function SettleBatch(b: BatchId, row: Batch, evidence: map<BatchId, RowId>): Batch {
    if b in evidence then row.(state := Delivered, row := Some(evidence[b])) else row.(state := OutcomeUnknown)
  }

  function SettleSteer(s: Steer, done: set<BatchId>, evidence: map<BatchId, RowId>, reason: string, now: real): Steer {
    if s.batch.None? || s.batch.value !in done then s
    else if s.batch.value in evidence then SettleOne(s, s.batch.value, Delivered, Some(evidence[s.batch.value]), None, now)
    else SettleOne(s, s.batch.value, OutcomeUnknown, None, Some(reason), now)
  }

  function SettleAll(s: Store, done: set<BatchId>, evidence: map<BatchId, RowId>, reason: string, now: real): Store {
    s.(batches := map b | b in s.batches :: if b in done then SettleBatch(b, s.batches[b], evidence) else s.batches[b],
       steers := seq(|s.steers|, i requires 0 <= i < |s.steers| => SettleSteer(s.steers[i], done, evidence, reason, now)))
  }

  /** What `recover` makes of a store, before it prunes. */
  function Recover(s: Store, live: set<string>, evidence: map<BatchId, RowId>, now: real): Store {
    var closed := SealAll(s, StaleRuns(s, live), "restart_stale_epoch", now);
    SettleAll(closed, StagedBatches(closed), evidence, "restart_unconfirmed", now)
  }
}
