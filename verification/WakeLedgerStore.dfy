/** The tables of the wake ledger and the operations that change them in place. */
module WakeLedgerStore {
  import opened Basics
  import opened WakeLedger

  class Store {
    var batches: map<BatchId, Batch>
    var consumption: map<Key, Consumption>

    ghost function View(): Ledger
      reads this
    {
      Ledger(batches, consumption)
    }

    constructor ()
      ensures View() == EmptyLedger
    {
      batches := map[];
      consumption := map[];
    }

    /** Drops malformed keys; a valid key given twice refuses the whole request. */
    static method CleanKeys(raw: seq<string>) returns (keys: Option<seq<Key>>)
      ensures keys.Some? <==> Distinct(ValidKeys(raw))
      ensures keys.Some? ==> keys.value == ValidKeys(raw)
    {
      var cleaned: seq<Key> := [];
      var seen: set<Key> := {};
      for n := 0 to |raw|
        invariant cleaned == ValidKeys(raw[..n])
        invariant seen == set k | k in cleaned
        invariant Distinct(cleaned)
      {
        var key := raw[n];
        assert raw[..n + 1][..n] == raw[..n];
        assert ValidKeys(raw[..n + 1]) == cleaned + (if IsKey(key) then [key] else []);
        if IsKey(key) {
          if key in seen {
            var longer := ValidKeys(raw[..n + 1]);
            var first :| 0 <= first < |cleaned| && cleaned[first] == key;
            assert longer[first] == longer[|cleaned|];
            ValidKeysGrow(raw, n + 1);
            assert ValidKeys(raw)[first] == ValidKeys(raw)[|cleaned|];
            return None;
          }
          seen := seen + {key};
          cleaned := cleaned + [key];
        }
      }
      assert raw[..|raw|] == raw;
      return Some(cleaned);
    }

    static lemma {:induction false} ValidKeysGrow(raw: seq<string>, n: nat)
      requires n <= |raw|
      ensures ValidKeys(raw[..n]) <= ValidKeys(raw)
    {
      if n == |raw| {
        assert raw[..n] == raw;
      } else {
        var front := raw[..|raw| - 1];
        ValidKeysGrow(front, n);
        assert front[..n] == raw[..n];
        assert ValidKeys(front) <= ValidKeys(raw);
      }
    }

    /** The admission loop: one verdict per key, ignored keys consumed on the spot. */
    method ExamineKeys(env: AdmitEnv, resolved: SessionId, keys: seq<Key>)
      returns (claims: seq<Claim>, ignored: seq<Key>, rejected: seq<Rejection>)
      modifies this`consumption
      ensures Scan(consumption, claims, ignored, rejected)
           == ScanKeys(batches, env, resolved, old(consumption), keys)
    {
      claims, ignored, rejected := [], [], [];
      for n := 0 to |keys|
        invariant Scan(consumption, claims, ignored, rejected)
               == ScanKeys(batches, env, resolved, old(consumption), keys[..n])
      {
        var key := keys[n];
        assert keys[..n + 1][..n] == keys[..n] && keys[..n + 1][n] == key;
        ghost var sc := Scan(consumption, claims, ignored, rejected);
        assert ScanKeys(batches, env, resolved, old(consumption), keys[..n + 1]) == Examine(batches, env, resolved, sc, key);
        if key in consumption {
          if consumption[key].ignored {
            ignored := ignored + [key];
          } else {
            rejected := rejected + [Rejection(key, AlreadyConsumed(consumption[key].batch))];
          }
        } else if key !in env.reports || !env.reports[key].schemaOne {
          rejected := rejected + [Rejection(key, UnknownProvenance)];
        } else if env.reports[key].idle {
          consumption := consumption[key := IgnoredRow(resolved, env.at)];
          ignored := ignored + [key];
        } else if Suspect(batches, resolved, env.reports[key].timestamp) {
          rejected := rejected + [Rejection(key, CausalSuspect)];
        } else if SameSourceRecent(consumption, env, resolved, env.reports[key]) {
          consumption := consumption[key := IgnoredRow(resolved, env.at)];
          ignored := ignored + [key];
        } else {
          claims := claims + [Claim(key, env.reports[key].id)];
        }
      }
      assert keys[..|keys|] == keys;
    }

    /** Writes the consumption row of every claim of a new batch. */
    method InsertClaims(claims: seq<Claim>, batch: BatchId, resolved: SessionId, at: real)
      modifies this`consumption
      ensures consumption == WithClaims(old(consumption), claims, batch, resolved, at)
    {
      for n := 0 to |claims|
        invariant consumption == WithClaims(old(consumption), claims[..n], batch, resolved, at)
      {
        assert claims[..n + 1][..n] == claims[..n];
        consumption := consumption[claims[n].key := Consumption(Some(batch), resolved, Some(claims[n].messageId), false, at)];
      }
      assert claims[..|claims|] == claims;
    }

    /** Validates and claims one batch in one transaction. */
    method Admit(env: AdmitEnv, resolved: SessionId, raw: seq<string>, batch: BatchId,
                 canonical: string, owner: Option<string>) returns (r: AdmitResult)
      modifies this
      ensures !Distinct(ValidKeys(raw)) ==> View() == old(View()) && r == AdmitError("duplicate_key_in_request")
      ensures Distinct(ValidKeys(raw)) ==>
                (View(), r) == AdmitKeys(old(View()), env, resolved, ValidKeys(raw), batch, canonical, owner)
    {
      var cleaned := CleanKeys(raw);
      if cleaned.None? {
        return AdmitError("duplicate_key_in_request");
      }
      var keys := cleaned.value;
      if keys == [] {
        return AdmitError("no_valid_keys");
      }
      if |keys| > ADMIT_MAX_KEYS {
        return AdmitError("too_many_keys");
      }
      if env.session.None? {
        return AdmitError("session_not_found");
      }
      if !SessionAllowed(env.session.value) {
        return AdmitError("session_not_allowed");
      }
      if env.busy {
        return Busy;
      }
      var sessionUsed := |Counted(batches, Some(resolved), env.at - QUOTA_WINDOW)|;
      var profileUsed := |Counted(batches, None, env.at - QUOTA_WINDOW)|;
      if sessionUsed >= SESSION_WAKE_LIMIT || profileUsed >= PROFILE_WAKE_LIMIT {
        return QuotaExceeded;
      }
      var before := consumption;
      var claims, ignored, rejected := ExamineKeys(env, resolved, keys);
      if |claims| > BATCH_MAX {
        rejected := rejected + Overflow(claims[BATCH_MAX..]);
        claims := claims[..BATCH_MAX];
      }
      if claims == [] {
        return Empty(ignored, rejected);
      }
      if batch in batches {
        consumption := before;
        return BatchIdTaken;
      }
      batches := batches[batch := Batch(resolved, Reserved, None, None, canonical, ClaimKeys(claims),
                                        env.at, env.at, None, owner)];
      InsertClaims(claims, batch, resolved, env.at);
      return Admitted(batch, claims, ignored, rejected);
    }

    /** Compare-and-set from reserved to dispatching, before the run starts. */
    method GateDispatch(batch: BatchId, resolved: SessionId, input: Option<string>, now: real) returns (r: Option<GateError>)
      modifies this
      ensures (View(), r) == Gate(old(View()), batch, resolved, input, now)
    {
      if batch !in batches {
        return Some(BatchUnknown);
      }
      var row := batches[batch];
      if row.session != resolved {
        return Some(BatchForeign);
      }
      if row.state == Reserved {
        if input.None? || input.value != row.canonicalInput {
          return Some(CanonicalMismatch);
        }
        batches := batches[batch := row.(state := Dispatching, updatedAt := now)];
        return None;
      }
      if row.state == Dispatching || row.state == Accepted {
        return Some(InFlight);
      }
      if row.state == UncertainConsumed || row.state == Terminal {
        return Some(AlreadyConsumedBatch);
      }
      return Some(BatchReleased);
    }

    /** A rejection before the stream started: the batch goes back to reserved. */
    method FailDispatch(batch: BatchId, now: real)
      modifies this
      ensures View() == DispatchFailed(old(View()), batch, now)
    {
      if batch in batches {
        var row := batches[batch];
        if row.state == Dispatching && row.runId.None? {
          batches := batches[batch := row.(state := Reserved, updatedAt := now)];
        }
      }
    }

    /** A transition reported by a client; an illegal move is a conflict. */
    method Report(batch: BatchId, resolved: SessionId, claim: Claimed, runId: Option<RunId>, at: real) returns (r: ReportResult)
      modifies this
      ensures (View(), r) == ReportState(old(View()), batch, resolved, claim, runId, at)
    {
      if batch !in batches || batches[batch].session != resolved {
        return ReportError("batch_not_found");
      }
      var row := batches[batch];
      match claim {
        case ClaimAccepted =>
          if runId.None? {
            return ReportError("run_id_required");
          }
          if row.state == Accepted && row.runId == runId {
            return ReportOk;
          }
          if row.state != Dispatching {
            return ReportConflict(row.state);
          }
          row := row.(state := Accepted, runId := runId, updatedAt := at);
        case ClaimTerminal =>
          if row.state != Dispatching && row.state != Accepted {
            return ReportConflict(row.state);
          }
          row := row.(state := Terminal, updatedAt := at, terminalAt := Some(at));
        case ClaimUncertain =>
          if row.state != Dispatching && row.state != Accepted {
            return ReportConflict(row.state);
          }
          row := row.(state := UncertainConsumed, updatedAt := at, terminalAt := Some(at), reason := Some("uncertain-consumed"));
        case ClaimOther =>
          return ReportError("unknown_state");
      }
      batches := batches[batch := row];
      return ReportOk;
    }

    /** Returns the claims and the quota of an undispatched batch. */
    method ReleaseBatch(batch: BatchId, resolved: SessionId, now: real) returns (r: ReleaseResult)
      modifies this
      ensures (View(), r) == Release(old(View()), batch, resolved, now)
    {
      if batch !in batches || batches[batch].session != resolved {
        return ReleaseError;
      }
      var row := batches[batch];
      if row.state != Reserved || row.runId.Some? {
        return ReleaseConflict(row.state);
      }
      consumption := map k | k in consumption && consumption[k].batch != Some(batch) :: consumption[k];
      batches := batches[batch := row.(state := Released, updatedAt := now, terminalAt := Some(now), reason := Some("released"))];
      return ReleaseOk;
    }

    /** One candidate of the historical reconcile pass, settled only on proof. */
    method SettleCandidate(batch: BatchId, seen: Seen, intents: map<Key, Intent>, now: real)
      returns (settled: bool)
      modifies this
      ensures (View(), settled) == SettleHistorical(old(View()), batch, seen, intents, now)
    {
      var proof := RunProof(seen.row, seen.run, seen.at);
      if proof.None? && seen.done.Some? && seen.done.value.DoneIntents? {
        proof := seen.done;
      }
      if proof.None? || !SelfOwned(seen.row)
         || !(seen.row.state == Reserved || seen.row.state == Dispatching || seen.row.state == Accepted) {
        return false;
      }
      if batch !in batches || !SameRow(batches[batch], seen.row) {
        return false;
      }
      if proof.value.DoneIntents?
         && (proof.value.intents != intents || !DoneEvidence(Ledger(batches, consumption), batch, intents, proof.value.at, now)) {
        return false;
      }
      var reason := if proof.value.RunTerminal? then "reconciled-run-terminal" else "reconciled-done-intents";
      batches := batches[batch := batches[batch].(state := TargetState(proof.value), terminalAt := Some(proof.value.at),
                                                  updatedAt := now, reason := Some(reason))];
      return true;
    }
  }
}
