/**
 What every operation of the wake ledger keeps: the claims of live batches are exactly the
 consumption rows, and every quota window stays full at most.
 */
module WakeLedgerProofs {
  import opened Basics
  import opened WakeLedger

  /** Live batches and consumption rows describe each other. */
  ghost predicate Sound(l: Ledger) {
    && (forall k | k in l.consumption && l.consumption[k].ignored :: l.consumption[k].batch.None?)
    && (forall k | k in l.consumption && !l.consumption[k].ignored ::
          && l.consumption[k].batch.Some?
          && l.consumption[k].batch.value in l.batches
          && l.batches[l.consumption[k].batch.value].state != Released
          && k in l.batches[l.consumption[k].batch.value].keys)
    && (forall b, k | b in l.batches && l.batches[b].state != Released && k in l.batches[b].keys ::
          k in l.consumption && !l.consumption[k].ignored && l.consumption[k].batch == Some(b))
    && (forall b | b in l.batches && (l.batches[b].state == Reserved || l.batches[b].state == Dispatching) ::
          l.batches[b].runId.None?)
    && (forall b | b in l.batches :: 1 <= |l.batches[b].keys| <= BATCH_MAX)
  }

  /** Two live batches never share a key. */
  lemma LiveBatchesDisjoint(l: Ledger, b: BatchId, c: BatchId)
    requires Sound(l) && b in l.batches && c in l.batches && b != c
    requires l.batches[b].state != Released && l.batches[c].state != Released
    ensures l.batches[b].keys !! l.batches[c].keys
  {
    forall k | k in l.batches[b].keys
      ensures k !in l.batches[c].keys
    {
      assert l.consumption[k].batch == Some(b);
    }
  }

  // ---------------------------------------------------------------- the admission loop

  /** The rows the admission loop wrote, and the keys it set aside, after any prefix of the request. */
  ghost predicate ScanRows(l: Ledger, env: AdmitEnv, resolved: SessionId, keys: seq<Key>, sc: Scan) {
    && (forall k | k in l.consumption :: k in sc.consumption && sc.consumption[k] == l.consumption[k])
    && (forall k | k in sc.consumption && k !in l.consumption ::
          k in keys && k in sc.ignored && sc.consumption[k] == IgnoredRow(resolved, env.at))
    && (forall k | k in ClaimKeys(sc.claims) :: k in keys && k !in sc.consumption)
    && (forall i, j | 0 <= i < j < |sc.claims| :: sc.claims[i].key != sc.claims[j].key)
    && (forall k | k in sc.ignored :: k in sc.consumption && sc.consumption[k].ignored)
    && |sc.claims| + |sc.ignored| + |sc.rejected| == |keys|
  }

  /** The report behind a claim may wake its session. */
  ghost predicate Eligible(l: Ledger, env: AdmitEnv, resolved: SessionId, c: Claim) {
    && c.key in env.reports && env.reports[c.key].schemaOne && !env.reports[c.key].idle
    && c.messageId == env.reports[c.key].id
    && !Suspect(l.batches, resolved, env.reports[c.key].timestamp)
    && !SameSourceRecent(l.consumption, env, resolved, env.reports[c.key])
  }

  ghost predicate ScanFacts(l: Ledger, env: AdmitEnv, resolved: SessionId, keys: seq<Key>, sc: Scan) {
    ScanRows(l, env, resolved, keys, sc) && forall c | c in sc.claims :: Eligible(l, env, resolved, c)
  }

  /** Rows ignored during the request never feed the content cooldown of the same request. */
  lemma CooldownSeesStoredRows(l: Ledger, env: AdmitEnv, resolved: SessionId, keys: seq<Key>, sc: Scan, row: Report)
    requires ScanRows(l, env, resolved, keys, sc)
    ensures SameSourceRecent(sc.consumption, env, resolved, row) == SameSourceRecent(l.consumption, env, resolved, row)
  {
  }

  lemma {:induction false} ScanHolds(l: Ledger, env: AdmitEnv, resolved: SessionId, keys: seq<Key>)
    requires Distinct(keys)
    ensures ScanFacts(l, env, resolved, keys, ScanKeys(l.batches, env, resolved, l.consumption, keys))
  {
    if keys != [] {
      var front, key := keys[..|keys| - 1], keys[|keys| - 1];
      ScanHolds(l, env, resolved, front);
      var sc := ScanKeys(l.batches, env, resolved, l.consumption, front);
      assert key !in front;
      ExamineRows(l, env, resolved, front, sc, key);
      ExamineEligible(l, env, resolved, front, sc, key);
      assert keys == front + [key];
    }
  }

  lemma RejectRows(l: Ledger, env: AdmitEnv, resolved: SessionId, front: seq<Key>, sc: Scan, key: Key, rejection: Rejection)
    requires ScanRows(l, env, resolved, front, sc)
    ensures ScanRows(l, env, resolved, front + [key], sc.(rejected := sc.rejected + [rejection]))
  {
  }

  lemma IgnoreRows(l: Ledger, env: AdmitEnv, resolved: SessionId, front: seq<Key>, sc: Scan, key: Key, consumption: map<Key, Consumption>)
    requires ScanRows(l, env, resolved, front, sc) && key !in front
    requires (consumption == sc.consumption && key in consumption && consumption[key].ignored)
             || (key !in sc.consumption && consumption == sc.consumption[key := IgnoredRow(resolved, env.at)])
    ensures ScanRows(l, env, resolved, front + [key], sc.(consumption := consumption, ignored := sc.ignored + [key]))
  {
    assert (front + [key])[|front|] == key;
    assert (sc.ignored + [key])[|sc.ignored|] == key;
  }

  lemma ClaimRows(l: Ledger, env: AdmitEnv, resolved: SessionId, front: seq<Key>, sc: Scan, key: Key, claim: Claim)
    requires ScanRows(l, env, resolved, front, sc) && key !in front && key !in sc.consumption && claim.key == key
    ensures ScanRows(l, env, resolved, front + [key], sc.(claims := sc.claims + [claim]))
  {
    assert (front + [key])[|front|] == key;
    assert (sc.claims + [claim])[..|sc.claims|] == sc.claims;
    ClaimKeysMembers(sc.claims);
  }

  lemma ExamineRows(l: Ledger, env: AdmitEnv, resolved: SessionId, front: seq<Key>, sc: Scan, key: Key)
    requires ScanRows(l, env, resolved, front, sc) && key !in front
    ensures ScanRows(l, env, resolved, front + [key], Examine(l.batches, env, resolved, sc, key))
  {
    var sc' := Examine(l.batches, env, resolved, sc, key);
    if |sc'.rejected| > |sc.rejected| {
      RejectRows(l, env, resolved, front, sc, key, sc'.rejected[|sc.rejected|]);
    } else if |sc'.claims| > |sc.claims| {
      ClaimRows(l, env, resolved, front, sc, key, sc'.claims[|sc.claims|]);
    } else {
      IgnoreRows(l, env, resolved, front, sc, key, sc'.consumption);
    }
  }

  lemma ExamineEligible(l: Ledger, env: AdmitEnv, resolved: SessionId, front: seq<Key>, sc: Scan, key: Key)
    requires ScanRows(l, env, resolved, front, sc)
    requires forall c | c in sc.claims :: Eligible(l, env, resolved, c)
    ensures forall c | c in Examine(l.batches, env, resolved, sc, key).claims :: Eligible(l, env, resolved, c)
  {
    if key in env.reports {
      CooldownSeesStoredRows(l, env, resolved, front, sc, env.reports[key]);
    }
  }

  lemma {:induction false} ClaimKeysMembers(claims: seq<Claim>)
    ensures forall i | 0 <= i < |claims| :: claims[i].key in ClaimKeys(claims)
    ensures forall k | k in ClaimKeys(claims) :: exists i :: 0 <= i < |claims| && claims[i].key == k
  {
    if claims != [] {
      var front := claims[..|claims| - 1];
      ClaimKeysMembers(front);
      forall k | k in ClaimKeys(claims)
        ensures exists i :: 0 <= i < |claims| && claims[i].key == k
      {
        if k in ClaimKeys(front) {
          var i :| 0 <= i < |front| && front[i].key == k;
          assert claims[i].key == k;
        } else {
          assert claims[|claims| - 1].key == k;
        }
      }
    }
  }

  lemma {:induction false} ClaimKeysSize(claims: seq<Claim>)
    requires forall i, j | 0 <= i < j < |claims| :: claims[i].key != claims[j].key
    ensures |ClaimKeys(claims)| == |claims|
  {
    if claims != [] {
      var front := claims[..|claims| - 1];
      ClaimKeysSize(front);
      ClaimKeysMembers(front);
      assert claims[|claims| - 1].key !in ClaimKeys(front);
    }
  }

  lemma {:induction false} WithClaimsRows(consumption: map<Key, Consumption>, claims: seq<Claim>, batch: BatchId, session: SessionId, at: real)
    ensures WithClaims(consumption, claims, batch, session, at).Keys == consumption.Keys + ClaimKeys(claims)
    ensures forall k | k in ClaimKeys(claims) ::
              WithClaims(consumption, claims, batch, session, at)[k].batch == Some(batch)
              && !WithClaims(consumption, claims, batch, session, at)[k].ignored
    ensures forall k | k in consumption && k !in ClaimKeys(claims) ::
              WithClaims(consumption, claims, batch, session, at)[k] == consumption[k]
  {
    if claims != [] {
      WithClaimsRows(consumption, claims[..|claims| - 1], batch, session, at);
    }
  }

  lemma {:induction false} WithClaimsAt(consumption: map<Key, Consumption>, claims: seq<Claim>, batch: BatchId, session: SessionId, at: real, i: nat)
    requires i < |claims|
    requires forall i, j | 0 <= i < j < |claims| :: claims[i].key != claims[j].key
    ensures claims[i].key in WithClaims(consumption, claims, batch, session, at)
    ensures WithClaims(consumption, claims, batch, session, at)[claims[i].key]
         == Consumption(Some(batch), session, Some(claims[i].messageId), false, at)
  {
    if i < |claims| - 1 {
      WithClaimsAt(consumption, claims[..|claims| - 1], batch, session, at, i);
    }
  }

  lemma CapKeeps(l: Ledger, env: AdmitEnv, resolved: SessionId, keys: seq<Key>, sc: Scan)
    requires ScanFacts(l, env, resolved, keys, sc)
    ensures ScanFacts(l, env, resolved, keys, Capped(sc)) && |Capped(sc).claims| <= BATCH_MAX
    ensures Capped(sc).claims == [] <==> sc.claims == []
  {
    if |sc.claims| > BATCH_MAX {
      var kept := sc.claims[..BATCH_MAX];
      ClaimKeysMembers(sc.claims);
      ClaimKeysMembers(kept);
      forall k | k in ClaimKeys(kept)
        ensures k in ClaimKeys(sc.claims)
      {
        var i :| 0 <= i < |kept| && kept[i].key == k;
        assert sc.claims[i].key == k;
      }
      assert forall c | c in kept :: c in sc.claims;
    }
  }

  /** The capped lists of one admission, as used by every lemma about AdmitKeys. */
  function Listed(l: Ledger, env: AdmitEnv, resolved: SessionId, keys: seq<Key>): (sc: Scan) {
    Capped(ScanKeys(l.batches, env, resolved, l.consumption, keys))
  }

  /**
   An admission claims only reports nobody consumed, that carry provenance, say something, were not
   written inside a wake run in flight and do not repeat a recent report; it takes between one and
   ten; it changes no row that was there; and every key of the request gets exactly one verdict.
   */
  lemma AdmitClaimsFreshReports(l: Ledger, env: AdmitEnv, resolved: SessionId, keys: seq<Key>, batch: BatchId,
                                canonical: string, owner: Option<string>)
    requires Distinct(keys)
    requires AdmitKeys(l, env, resolved, keys, batch, canonical, owner).1.Admitted?
    ensures var (l', r) := AdmitKeys(l, env, resolved, keys, batch, canonical, owner);
            && batch !in l.batches && 1 <= |r.accepted| <= BATCH_MAX
            && |r.accepted| + |r.ignored| + |r.rejected| == |keys|
            && (forall c | c in r.accepted ::
                  && c.key in keys && c.key !in l.consumption && Eligible(l, env, resolved, c)
                  && c.key in l'.consumption
                  && l'.consumption[c.key] == Consumption(Some(batch), resolved, Some(c.messageId), false, env.at))
            && (forall k | k in l.consumption :: k in l'.consumption && l'.consumption[k] == l.consumption[k])
            && (forall k | k in l'.consumption && k !in l.consumption ::
                  k in keys && (k in r.ignored || k in ClaimKeys(r.accepted)))
            && l'.batches.Keys == l.batches.Keys + {batch}
            && (forall b | b in l.batches :: l'.batches[b] == l.batches[b])
            && l'.batches[batch].state == Reserved && l'.batches[batch].session == resolved
            && l'.batches[batch].keys == ClaimKeys(r.accepted)
  {
    ScanHolds(l, env, resolved, keys);
    CapKeeps(l, env, resolved, keys, ScanKeys(l.batches, env, resolved, l.consumption, keys));
    var sc := Listed(l, env, resolved, keys);
    WithClaimsRows(sc.consumption, sc.claims, batch, resolved, env.at);
    ClaimKeysMembers(sc.claims);
    forall c | c in sc.claims
      ensures c.key in WithClaims(sc.consumption, sc.claims, batch, resolved, env.at)
      ensures WithClaims(sc.consumption, sc.claims, batch, resolved, env.at)[c.key]
           == Consumption(Some(batch), resolved, Some(c.messageId), false, env.at)
    {
      var i :| 0 <= i < |sc.claims| && sc.claims[i] == c;
      WithClaimsAt(sc.consumption, sc.claims, batch, resolved, env.at, i);
    }
  }

  // ---------------------------------------------------------------- soundness of every operation

  /** `l'` is `l` with one reserved batch, its claims, and some ignored rows. */
  ghost predicate OneBatchAdded(l: Ledger, l': Ledger, batch: BatchId) {
    && batch !in l.batches && l'.batches.Keys == l.batches.Keys + {batch}
    && (forall b | b in l.batches :: l'.batches[b] == l.batches[b])
    && l'.batches[batch].state == Reserved && l'.batches[batch].runId.None?
    && 1 <= |l'.batches[batch].keys| <= BATCH_MAX
    && (forall k | k in l'.batches[batch].keys ::
          k !in l.consumption && k in l'.consumption && !l'.consumption[k].ignored && l'.consumption[k].batch == Some(batch))
    && (forall k | k in l.consumption :: k in l'.consumption && l'.consumption[k] == l.consumption[k])
    && (forall k | k in l'.consumption && k !in l.consumption ::
          k in l'.batches[batch].keys || (l'.consumption[k].ignored && l'.consumption[k].batch.None?))
  }

  lemma OneBatchAddedSound(l: Ledger, l': Ledger, batch: BatchId)
    requires Sound(l) && OneBatchAdded(l, l', batch)
    ensures Sound(l')
  {
    forall k | k in l'.consumption && !l'.consumption[k].ignored
      ensures l'.consumption[k].batch.Some? && l'.consumption[k].batch.value in l'.batches
      ensures l'.batches[l'.consumption[k].batch.value].state != Released
      ensures k in l'.batches[l'.consumption[k].batch.value].keys
    {
      if k in l.consumption {
        assert l.consumption[k].batch.value in l.batches;
      }
    }
  }

  lemma ClaimsAddOneBatch(l: Ledger, l': Ledger, env: AdmitEnv, resolved: SessionId, keys: seq<Key>, sc: Scan, batch: BatchId)
    requires ScanRows(l, env, resolved, keys, sc) && batch !in l.batches && batch in l'.batches
    requires l'.batches == l.batches[batch := l'.batches[batch]]
    requires l'.consumption == WithClaims(sc.consumption, sc.claims, batch, resolved, env.at)
    requires l'.batches[batch].state == Reserved && l'.batches[batch].runId.None?
    requires l'.batches[batch].keys == ClaimKeys(sc.claims) && 1 <= |sc.claims| <= BATCH_MAX
    ensures OneBatchAdded(l, l', batch)
  {
    WithClaimsRows(sc.consumption, sc.claims, batch, resolved, env.at);
    ClaimKeysSize(sc.claims);
  }

  lemma AdmitSound(l: Ledger, env: AdmitEnv, resolved: SessionId, keys: seq<Key>, batch: BatchId,
                   canonical: string, owner: Option<string>)
    requires Sound(l) && Distinct(keys)
    ensures Sound(AdmitKeys(l, env, resolved, keys, batch, canonical, owner).0)
  {
    ScanHolds(l, env, resolved, keys);
    var scanned := ScanKeys(l.batches, env, resolved, l.consumption, keys);
    CapKeeps(l, env, resolved, keys, scanned);
    var sc := Capped(scanned);
    var (l', r) := AdmitKeys(l, env, resolved, keys, batch, canonical, owner);
    if r.Admitted? {
      ClaimsAddOneBatch(l, l', env, resolved, keys, sc, batch);
      OneBatchAddedSound(l, l', batch);
    } else if r.Empty? {
      IgnoredRowsSound(l, env, resolved, keys, sc);
    }
  }

  lemma IgnoredRowsSound(l: Ledger, env: AdmitEnv, resolved: SessionId, keys: seq<Key>, sc: Scan)
    requires Sound(l) && ScanRows(l, env, resolved, keys, sc)
    ensures Sound(l.(consumption := sc.consumption))
  {
    forall k | k in sc.consumption && !sc.consumption[k].ignored
      ensures k in l.consumption && sc.consumption[k] == l.consumption[k]
    {
    }
  }

  /** One live batch changes its state and keeps its keys. */
  lemma RowChangeSound(l: Ledger, batch: BatchId, row: Batch)
    requires Sound(l) && batch in l.batches && l.batches[batch].state != Released
    requires row.keys == l.batches[batch].keys && row.state != Released
    requires row.state == Reserved || row.state == Dispatching ==> row.runId.None?
    ensures Sound(l.(batches := l.batches[batch := row]))
  {
    var l' := l.(batches := l.batches[batch := row]);
    forall b | b in l'.batches
      ensures l'.batches[b].keys == l.batches[b].keys
      ensures l'.batches[b].state == Released <==> l.batches[b].state == Released
    {
    }
  }

  lemma GateSound(l: Ledger, batch: BatchId, resolved: SessionId, input: Option<string>, now: real)
    requires Sound(l)
    ensures Sound(Gate(l, batch, resolved, input, now).0)
  {
    if Gate(l, batch, resolved, input, now).1.None? {
      RowChangeSound(l, batch, l.batches[batch].(state := Dispatching, updatedAt := now));
    }
  }

  lemma DispatchFailedSound(l: Ledger, batch: BatchId, now: real)
    requires Sound(l)
    ensures Sound(DispatchFailed(l, batch, now))
  {
    if DispatchFailed(l, batch, now) != l {
      RowChangeSound(l, batch, l.batches[batch].(state := Reserved, updatedAt := now));
    }
  }

  lemma ReportSound(l: Ledger, batch: BatchId, resolved: SessionId, claim: Claimed, runId: Option<RunId>, at: real)
    requires Sound(l)
    ensures Sound(ReportState(l, batch, resolved, claim, runId, at).0)
  {
    var l' := ReportState(l, batch, resolved, claim, runId, at).0;
    if l' != l {
      RowChangeSound(l, batch, l'.batches[batch]);
    }
  }

  lemma SettleSound(l: Ledger, batch: BatchId, seen: Seen, intents: map<Key, Intent>, now: real)
    requires Sound(l)
    ensures Sound(SettleHistorical(l, batch, seen, intents, now).0)
  {
    var (l', settled) := SettleHistorical(l, batch, seen, intents, now);
    if settled {
      RowChangeSound(l, batch, l'.batches[batch]);
    }
  }

  /** The snapshot of the run matches the row: its run, its session, ended, and at a time since the batch began. */
  predicate RunMatches(b: Batch, run: Option<RunSnapshot>, at: real) {
    && run.Some? && b.runId == Some(run.value.runId) && run.value.session == b.session && run.value.terminal
    && run.value.updatedAt.Some? && b.createdAt <= run.value.updatedAt.value <= at + 30.0
  }

  /** A batch ends as terminal only on its own run's end, as uncertain only on closed bookkeeping, and otherwise stays as it is. */
  lemma SettledExactlyOnProof(l: Ledger, batch: BatchId, seen: Seen, intents: map<Key, Intent>, now: real)
    requires batch in l.batches
    ensures var (l', settled), b := SettleHistorical(l, batch, seen, intents, now), l.batches[batch];
            && (settled <==> SameRow(b, seen.row) && Settleable(b)
                             && (RunMatches(b, seen.run, seen.at)
                                 || (PlannedProof(seen).Some? && PlannedProof(seen).value.DoneIntents?
                                     && StillProved(l, batch, PlannedProof(seen).value, intents, now))))
            && (settled && l'.batches[batch].state == Terminal ==>
                  RunMatches(b, seen.run, seen.at) && l'.batches[batch].terminalAt == seen.run.value.updatedAt)
            && (settled && l'.batches[batch].state != Terminal ==>
                  l'.batches[batch].state == UncertainConsumed && !RunMatches(b, seen.run, seen.at)
                  && l'.batches[batch].terminalAt.Some? && DoneEvidence(l, batch, intents, l'.batches[batch].terminalAt.value, now))
            && (!settled ==> l' == l)
  {
  }

  /** A release forgets exactly the claims of its batch, so their keys may be admitted again. */
  lemma ReleaseReturnsItsClaims(l: Ledger, batch: BatchId, resolved: SessionId, now: real)
    requires Sound(l)
    ensures Sound(Release(l, batch, resolved, now).0)
    ensures Release(l, batch, resolved, now).1 == ReleaseOk ==>
      && batch in l.batches && l.batches[batch].state == Reserved
      && Release(l, batch, resolved, now).0.consumption.Keys == l.consumption.Keys - l.batches[batch].keys
      && (forall k | k in l.consumption && k !in l.batches[batch].keys ::
            Release(l, batch, resolved, now).0.consumption[k] == l.consumption[k])
  {
  }

  /** The door opens once per reservation: only for the reserved batch of this session and its own input. */
  lemma GateOpensOnlyReserved(l: Ledger, batch: BatchId, resolved: SessionId, input: Option<string>, now: real)
    ensures Gate(l, batch, resolved, input, now).1.None? <==>
      batch in l.batches && l.batches[batch].session == resolved && l.batches[batch].state == Reserved
      && input == Some(l.batches[batch].canonicalInput)
    ensures var l' := Gate(l, batch, resolved, input, now).0;
            Gate(l', batch, resolved, input, now).1.Some? && Gate(l', batch, resolved, input, now).0 == l'
  {
  }

  // ---------------------------------------------------------------- quota

  /** The live batches created in (t - 3600, t], for one session or for the whole profile. */
  function Window(l: Ledger, session: Option<SessionId>, t: real): (r: set<BatchId>) {
    set b | b in l.batches && t - QUOTA_WINDOW < l.batches[b].createdAt <= t && l.batches[b].state != Released
            && (session.None? || l.batches[b].session == session.value)
  }

  function Limit(session: Option<SessionId>): nat {
    if session.Some? then SESSION_WAKE_LIMIT else PROFILE_WAKE_LIMIT
  }

  /** At every time, past or future, and for every session. */
  ghost predicate WithinQuota(l: Ledger) {
    forall session: Option<SessionId>, t: real :: |Window(l, session, t)| <= Limit(session)
  }

  /** Everything but an admission: no new batch, no batch comes back from released. */
  ghost predicate NoNewBatches(l: Ledger, l': Ledger) {
    && l'.batches.Keys <= l.batches.Keys
    && forall b | b in l'.batches ::
         && l'.batches[b].createdAt == l.batches[b].createdAt && l'.batches[b].session == l.batches[b].session
         && (l.batches[b].state == Released ==> l'.batches[b].state == Released)
  }

  lemma NoNewBatchesWithinQuota(l: Ledger, l': Ledger)
    requires WithinQuota(l) && NoNewBatches(l, l')
    ensures WithinQuota(l')
  {
    forall session: Option<SessionId>, t: real
      ensures |Window(l', session, t)| <= Limit(session)
    {
      SubsetSize(Window(l', session, t), Window(l, session, t));
    }
  }

  /**
   An admission keeps every window within the quota, at whatever time its clock reads: a window that
   holds the new batch opens no earlier than the window the admission counted.
   */
  lemma AdmitWithinQuota(l: Ledger, env: AdmitEnv, resolved: SessionId, keys: seq<Key>, batch: BatchId,
                         canonical: string, owner: Option<string>)
    requires WithinQuota(l)
    ensures WithinQuota(AdmitKeys(l, env, resolved, keys, batch, canonical, owner).0)
  {
    var (l', r) := AdmitKeys(l, env, resolved, keys, batch, canonical, owner);
    if !r.Admitted? {
      NoNewBatchesWithinQuota(l, l');
    } else {
      forall session: Option<SessionId>, t: real
        ensures |Window(l', session, t)| <= Limit(session)
      {
        WindowAfterAdmit(l, l', env.at, resolved, batch, session, t);
      }
    }
  }

  lemma WindowAfterAdmit(l: Ledger, l': Ledger, at: real, resolved: SessionId, batch: BatchId,
                         session: Option<SessionId>, t: real)
    requires batch !in l.batches && batch in l'.batches && l'.batches == l.batches[batch := l'.batches[batch]]
    requires l'.batches[batch].createdAt == at && l'.batches[batch].session == resolved
    requires WithinQuota(l) && QuotaLeft(l.batches, resolved, at)
    ensures |Window(l', session, t)| <= Limit(session)
  {
    if batch in Window(l', session, t) {
      SubsetPlusOneSize(Window(l', session, t), Counted(l.batches, session, at - QUOTA_WINDOW), batch);
    } else {
      SubsetSize(Window(l', session, t), Window(l, session, t));
    }
  }
}
