/** The moves of a batch and the refusals of a request, state by state. */
module WakeLedgerMoves {
  import opened Basics
  import opened WakeLedger
  import opened WakeLedgerProofs
  import WakeDispatch
  import WakeRequest

  // ---------------------------------------------------------------- who may ask

  predicate Usable(s: SessionRow) {
    s.hidden == false && s.archived == false && s.source !in {"cron", "subagent"} && (s.ended == false || s.endReason == "compression")
  }

  /** A batch that still counts: created within the hour, and not given back. */
  ghost predicate Counts(l: Ledger, b: BatchId, at: real) {
    b in l.batches && at - 3600.0 < l.batches[b].createdAt && l.batches[b].state != Released
  }

  ghost predicate QuotaSpent(l: Ledger, resolved: SessionId, at: real) {
    || |set b | b in l.batches && Counts(l, b, at) && l.batches[b].session == resolved| >= 6
    || |set b | b in l.batches && Counts(l, b, at)| >= 12
  }

  predicate SixtyFourHex(k: string) {
    |k| == 64 && forall c | c in k :: '0' <= c <= '9' || 'a' <= c <= 'f'
  }

  lemma KeyIsHex(k: string)
    ensures IsKey(k) <==> SixtyFourHex(k)
  {
    forall c
      ensures c in HEX <==> '0' <= c <= '9' || 'a' <= c <= 'f'
    {
      HexDigit(c);
    }
  }

  /** The keys of a request are those of 64 lower-case hexadecimal digits. */
  lemma {:induction false} ValidKeysAre(raw: seq<string>)
    ensures forall k :: k in ValidKeys(raw) <==> k in raw && SixtyFourHex(k)
  {
    if raw != [] {
      var front, last := raw[..|raw| - 1], raw[|raw| - 1];
      ValidKeysAre(front);
      KeyIsHex(last);
      assert raw == front + [last];
    }
  }

  lemma {:induction false} ValidKeysInOrder(a: seq<string>, b: seq<string>)
    ensures ValidKeys(a + b) == ValidKeys(a) + ValidKeys(b)
  {
    if b == [] {
      assert a + b == a;
    } else {
      assert (a + b)[..|a + b| - 1] == a + b[..|b| - 1];
      ValidKeysInOrder(a, b[..|b| - 1]);
    }
  }

  lemma HexDigit(c: char)
    ensures c in HEX <==> '0' <= c <= '9' || 'a' <= c <= 'f'
  {
    assert HEX[0] == '0' && HEX[1] == '1' && HEX[2] == '2' && HEX[3] == '3' && HEX[4] == '4' && HEX[5] == '5';
    assert HEX[6] == '6' && HEX[7] == '7' && HEX[8] == '8' && HEX[9] == '9' && HEX[10] == 'a' && HEX[11] == 'b';
    assert HEX[12] == 'c' && HEX[13] == 'd' && HEX[14] == 'e' && HEX[15] == 'f';
  }

  /** When a request is refused, and that it then leaves the ledger alone; the first reason counts. */
  lemma RefusalsExactly(l: Ledger, env: AdmitEnv, resolved: SessionId, keys: seq<Key>, batch: BatchId, canonical: string, owner: Option<string>)
    ensures var (l', r) := AdmitKeys(l, env, resolved, keys, batch, canonical, owner);
            if |keys| == 0 then (l', r) == (l, AdmitError("no_valid_keys"))
            else if |keys| > 32 then (l', r) == (l, AdmitError("too_many_keys"))
            else if env.session == None then (l', r) == (l, AdmitError("session_not_found"))
            else if !Usable(env.session.value) then (l', r) == (l, AdmitError("session_not_allowed"))
            else if env.busy then (l', r) == (l, Busy)
            else if QuotaSpent(l, resolved, env.at) then (l', r) == (l, QuotaExceeded)
            else r.Empty? || r.Admitted? || (r == BatchIdTaken && l' == l && batch in l.batches)
  {
    assert Counted(l.batches, Some(resolved), env.at - 3600.0) == set b | b in l.batches && Counts(l, b, env.at) && l.batches[b].session == resolved;
    assert Counted(l.batches, None, env.at - 3600.0) == set b | b in l.batches && Counts(l, b, env.at);
  }

  /** A new batch: reserved for the session, without a run, under its canonical input, at the time and for the owner of the request. */
  lemma NewBatchIs(l: Ledger, env: AdmitEnv, resolved: SessionId, keys: seq<Key>, batch: BatchId, canonical: string, owner: Option<string>)
    ensures var (l', r) := AdmitKeys(l, env, resolved, keys, batch, canonical, owner);
            && (r.Admitted? ==>
                  r.batch == batch && batch in l'.batches && l'.batches[batch].(keys := {}) == Batch(resolved, Reserved, None, None, canonical, {}, env.at, env.at, None, owner))
            && (r.Empty? ==> l'.batches == l.batches)
  {
  }

  // ---------------------------------------------------------------- the door

  /** What the dispatch door answers, by the state of the batch, and what it changes. */
  lemma DoorAnswers(l: Ledger, batch: BatchId, resolved: SessionId, input: Option<string>, now: real)
    ensures var (l', e) := Gate(l, batch, resolved, input, now);
            if batch !in l.batches then (l', e) == (l, Some(BatchUnknown))
            else if l.batches[batch].session != resolved then (l', e) == (l, Some(BatchForeign))
            else if l.batches[batch].state == Released then (l', e) == (l, Some(BatchReleased))
            else if l.batches[batch].state == Terminal || l.batches[batch].state == UncertainConsumed then (l', e) == (l, Some(AlreadyConsumedBatch))
            else if l.batches[batch].state == Dispatching || l.batches[batch].state == Accepted then (l', e) == (l, Some(InFlight))
            else if input != Some(l.batches[batch].canonicalInput) then (l', e) == (l, Some(CanonicalMismatch))
            else (l', e) == (WithRow(l, batch, l.batches[batch].(state := Dispatching, updatedAt := now)), None)
  {
  }

  function WithRow(l: Ledger, batch: BatchId, row: Batch): Ledger {
    Ledger(l.batches[batch := row], l.consumption)
  }

  lemma FailedDispatchReverts(l: Ledger, batch: BatchId, now: real)
    ensures DispatchFailed(l, batch, now)
         == if batch in l.batches && l.batches[batch].state == Dispatching && l.batches[batch].runId == None
            then WithRow(l, batch, l.batches[batch].(state := Reserved, updatedAt := now)) else l
  {
  }

  // ---------------------------------------------------------------- reports and release

  /** A run is accepted once, from dispatching, under its id; the same report again changes nothing. */
  lemma AcceptedExactly(l: Ledger, batch: BatchId, resolved: SessionId, runId: Option<RunId>, at: real)
    requires batch in l.batches && l.batches[batch].session == resolved
    ensures var (l', r), b := ReportState(l, batch, resolved, ClaimAccepted, runId, at), l.batches[batch];
            if runId == None then (l', r) == (l, ReportError("run_id_required"))
            else if b.state == Accepted && b.runId == runId then (l', r) == (l, ReportOk)
            else if b.state == Dispatching then
              (l', r) == (WithRow(l, batch, b.(state := Accepted, runId := runId, updatedAt := at)), ReportOk)
            else (l', r) == (l, ReportConflict(b.state))
  {
  }

  /** A batch in flight ends as terminal or as consumed with an unknown outcome, as reported; nothing else does. */
  lemma EndedExactly(l: Ledger, batch: BatchId, resolved: SessionId, runId: Option<RunId>, at: real)
    requires batch in l.batches && l.batches[batch].session == resolved
    ensures var b := l.batches[batch];
            var (t, tr), (u, ur) := ReportState(l, batch, resolved, ClaimTerminal, runId, at), ReportState(l, batch, resolved, ClaimUncertain, runId, at);
            if b.state == Dispatching || b.state == Accepted then
              && (t, tr) == (WithRow(l, batch, b.(state := Terminal, updatedAt := at, terminalAt := Some(at))), ReportOk)
              && (u, ur) == (WithRow(l, batch, b.(state := UncertainConsumed, updatedAt := at, terminalAt := Some(at),
                                                  reason := Some("uncertain-consumed"))), ReportOk)
            else (t, tr) == (l, ReportConflict(b.state)) && (u, ur) == (l, ReportConflict(b.state))
  {
  }

  /** Another session's batch and an unknown word are errors. */
  lemma ReportErrors(l: Ledger, batch: BatchId, resolved: SessionId, claim: Claimed, runId: Option<RunId>, at: real)
    ensures batch !in l.batches || l.batches[batch].session != resolved ==>
              ReportState(l, batch, resolved, claim, runId, at) == (l, ReportError("batch_not_found"))
    ensures batch in l.batches && l.batches[batch].session == resolved ==>
              ReportState(l, batch, resolved, ClaimOther, runId, at) == (l, ReportError("unknown_state"))
  {
  }

  /** A release gives back exactly a reserved batch without a run; every other state is a conflict. */
  lemma ReleasedExactly(l: Ledger, batch: BatchId, resolved: SessionId, now: real)
    ensures var (l', r) := Release(l, batch, resolved, now);
            if batch !in l.batches || l.batches[batch].session != resolved then (l', r) == (l, ReleaseError)
            else if l.batches[batch].state != Reserved || l.batches[batch].runId != None then (l', r) == (l, ReleaseConflict(l.batches[batch].state))
            else
              && r == ReleaseOk
              && l'.batches == l.batches[batch := l.batches[batch].(state := Released, updatedAt := now, terminalAt := Some(now), reason := Some("released"))]
              && (forall k :: k in l'.consumption <==> k in l.consumption && l.consumption[k].batch != Some(batch))
              && (forall k | k in l'.consumption :: l'.consumption[k] == l.consumption[k])
  {
  }

  // ---------------------------------------------------------------- historical settlement

  /** Unchanged in every column that decides, and one of the self-wake worker's own that has not ended. */
  predicate CandidateStill(b: Batch, row: Batch) {
    && b.state == row.state && b.runId == row.runId && b.session == row.session && b.owner == row.owner
    && b.updatedAt == row.updatedAt && b.keys == row.keys && b.createdAt == row.createdAt
    && b.owner.Some? && "self:" <= b.owner.value
    && (b.state == Reserved || b.state == Dispatching || b.state == Accepted)
  }

  /** Every claimed key is consumed for the session and has its done intent, the newest stamped at `at`. */
  ghost predicate BooksClosed(l: Ledger, batch: BatchId, intents: map<Key, Intent>, at: real, now: real)
    requires batch in l.batches
  {
    var b := l.batches[batch];
    && b.keys != {} && intents.Keys == b.keys
    && (forall k :: k in b.keys <==> k in l.consumption && l.consumption[k].batch == Some(batch))
    && (forall k | k in b.keys :: l.consumption[k].session == b.session && l.consumption[k].ignored == false)
    && (forall k | k in intents :: intents[k].done && intents[k].sameHome && intents[k].session == b.session
                                   && b.createdAt <= intents[k].updatedAt && intents[k].updatedAt <= now + 30.0 && intents[k].updatedAt <= at)
    && (exists k :: k in intents && intents[k].updatedAt == at)
  }

  lemma BooksClosedExactly(l: Ledger, batch: BatchId, intents: map<Key, Intent>, at: real, now: real)
    requires batch in l.batches
    ensures DoneEvidence(l, batch, intents, at, now) <==> BooksClosed(l, batch, intents, at, now)
  {
    var claimed := set k | k in l.consumption && l.consumption[k].batch == Some(batch);
    if BooksClosed(l, batch, intents, at, now) {
      assert claimed == l.batches[batch].keys;
    }
    if DoneEvidence(l, batch, intents, at, now) {
      assert forall k :: k in claimed <==> k in l.batches[batch].keys;
    }
  }

  /** A settlement on the run's own end, and one on closed books, down to the row they leave. */
  lemma SettlementIs(l: Ledger, batch: BatchId, seen: Seen, intents: map<Key, Intent>, now: real)
    requires batch in l.batches
    ensures var (l', settled), b := SettleHistorical(l, batch, seen, intents, now), l.batches[batch];
            if !CandidateStill(b, seen.row) then (l', settled) == (l, false)
            else if RunMatches(b, seen.run, seen.at) then
              (l', settled) == (WithRow(l, batch, b.(state := Terminal, terminalAt := seen.run.value.updatedAt, updatedAt := now,
                                                     reason := Some("reconciled-run-terminal"))), true)
            else if seen.done.Some? && seen.done.value.DoneIntents? && seen.done.value.intents == intents
                    && BooksClosed(l, batch, intents, seen.done.value.at, now) then
              (l', settled) == (WithRow(l, batch, b.(state := UncertainConsumed, terminalAt := Some(seen.done.value.at), updatedAt := now,
                                                     reason := Some("reconciled-done-intents"))), true)
            else (l', settled) == (l, false)
  {
    if seen.done.Some? && seen.done.value.DoneIntents? {
      BooksClosedExactly(l, batch, intents, seen.done.value.at, now);
    }
    SelfPrefix(l.batches[batch]);
    SelfPrefix(seen.row);
  }

  lemma SelfPrefix(b: Batch)
    ensures SelfOwned(b) <==> b.owner.Some? && "self:" <= b.owner.value
  {
  }

  // ---------------------------------------------------------------- the settlement of a failed request

  /** What becomes of the row of a dispatching batch, by how far its request got and what is known of its run. */
  lemma FailedRequestSettles(l: Ledger, a: WakeDispatch.Attempt, runEnded: Option<bool>, now: real)
    requires a.batch in l.batches && l.batches[a.batch].session == a.resolved && l.batches[a.batch].state == Dispatching
    requires l.batches[a.batch].runId == None
    ensures var b := l.batches[a.batch];
            WakeDispatch.Settle(l, a, runEnded, now)
            == match a.progress
               case Entered => WithRow(l, a.batch, b.(state := Reserved, updatedAt := now))
               case LaneRan => WithRow(l, a.batch, b.(state := Reserved, updatedAt := now))
               case HandedOff => WithRow(l, a.batch, Uncertain(b, now))
               case RunStamped(run) => WithRow(l, a.batch, AfterRun(b, run, runEnded, now))
               case Launched(run) => WithRow(l, a.batch, AfterRun(b, run, runEnded, now))
  {
  }

  function Uncertain(b: Batch, now: real): Batch {
    b.(state := UncertainConsumed, updatedAt := now, terminalAt := Some(now), reason := Some("uncertain-consumed"))
  }

  function AfterRun(b: Batch, run: RunId, runEnded: Option<bool>, now: real): Batch {
    if runEnded == Some(true) then b.(state := Terminal, updatedAt := now, terminalAt := Some(now))
    else if runEnded == Some(false) then b.(state := Accepted, runId := Some(run), updatedAt := now)
    else Uncertain(b, now)
  }

  /** What a whole request leaves of the batch it carries: refused at the door, in flight as long as it answers well, settled when it fails. */
  lemma ServedLeaves(l: Ledger, batch: BatchId, resolved: SessionId, input: Option<string>, p: WakeDispatch.Progress,
                     ending: WakeRequest.Ending, runEnded: Option<bool>, now: real, later: real)
    ensures var (l', refused) := WakeRequest.Served(l, batch, resolved, input, p, ending, runEnded, now, later);
            var enters := batch in l.batches && l.batches[batch].session == resolved && l.batches[batch].state == Reserved
                          && input == Some(l.batches[batch].canonicalInput);
            var failed := ending == WakeRequest.Raised || ending.status >= 400;
            && (refused == None <==> enters)
            && (!enters ==> l' == l)
            && (enters && !failed ==> l' == WithRow(l, batch, l.batches[batch].(state := Dispatching, updatedAt := now)))
            && (enters && failed && l.batches[batch].runId == None ==>
                  var b := l.batches[batch].(state := Dispatching, updatedAt := now);
                  l' == match p
                        case Entered => WithRow(l, batch, b.(state := Reserved, updatedAt := later))
                        case LaneRan => WithRow(l, batch, b.(state := Reserved, updatedAt := later))
                        case HandedOff => WithRow(l, batch, Uncertain(b, later))
                        case RunStamped(run) => WithRow(l, batch, AfterRun(b, run, runEnded, later))
                        case Launched(run) => WithRow(l, batch, AfterRun(b, run, runEnded, later)))
  {
    DoorAnswers(l, batch, resolved, input, now);
    var (entered, refused) := Gate(l, batch, resolved, input, now);
    if refused == None && l.batches[batch].runId == None {
      FailedRequestSettles(entered, WakeDispatch.Attempt(batch, resolved, p, true), runEnded, later);
    }
  }

  /** How far a request gets, by what its handler meets. */
  lemma CourseReaches(c: WakeRequest.Course)
    ensures var p, served := WakeRequest.Reached(c), !c.limited && !c.rejected;
            && (p == WakeDispatch.LaneRan <==> served && c.lane == WakeRequest.Raises(true))
            && (p == WakeDispatch.HandedOff <==> served && c.lane == WakeRequest.Takes)
            && (p == WakeDispatch.RunStamped(c.run) <==> served && c.lane == WakeRequest.Declines && !c.failsBefore && c.failsBetween)
            && (p == WakeDispatch.Launched(c.run) <==> served && c.lane == WakeRequest.Declines && !c.failsBefore && !c.failsBetween)
            && (p == WakeDispatch.Entered <==> !served || c.lane == WakeRequest.Raises(false) || (c.lane == WakeRequest.Declines && c.failsBefore))
  {
  }
}
