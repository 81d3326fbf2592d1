/**
 What the wake ledger answers, written out over the ledger as it was: for every key of a request, for every
 state of a batch, and for every reason there is to refuse.
 */
module WakeLedgerAnswers {
  import opened Basics
  import opened WakeLedger
  import opened WakeLedgerProofs

  // ---------------------------------------------------------------- the keys of a request

  /** A wake run of the session was in flight when the report was written. */
  ghost predicate WrittenInFlight(l: Ledger, resolved: SessionId, r: Report) {
    exists b :: b in l.batches && l.batches[b].session == resolved
                && (l.batches[b].state == Dispatching || l.batches[b].state == Accepted)
                && l.batches[b].createdAt < r.timestamp
                && (l.batches[b].terminalAt == None || l.batches[b].terminalAt.value > r.timestamp)
  }

  /** The session consumed a report of the same job with the same text less than fifteen minutes ago. */
  ghost predicate RepeatsRecent(l: Ledger, env: AdmitEnv, resolved: SessionId, r: Report) {
    r.source.jobId != ""
    && exists k :: k in l.consumption && l.consumption[k].session == resolved && !l.consumption[k].ignored
                   && env.at - 900.0 < l.consumption[k].createdAt && l.consumption[k].messageId.Some?
                   && l.consumption[k].messageId.value in env.stored
                   && env.stored[l.consumption[k].messageId.value] == r.source
  }

  predicate Consumed(l: Ledger, k: Key) {
    k in l.consumption && l.consumption[k].ignored == false
  }

  predicate Unknown(l: Ledger, env: AdmitEnv, k: Key) {
    k !in l.consumption && (k !in env.reports || env.reports[k].schemaOne == false)
  }

  /** A report of known provenance that nobody consumed. */
  predicate Known(l: Ledger, env: AdmitEnv, k: Key) {
    k !in l.consumption && k in env.reports && env.reports[k].schemaOne == true
  }

  ghost predicate Suspected(l: Ledger, env: AdmitEnv, resolved: SessionId, k: Key) {
    Known(l, env, k) && !env.reports[k].idle && WrittenInFlight(l, resolved, env.reports[k])
  }

  /** Ignored now: it says nothing, or repeats what the session just heard. */
  ghost predicate IgnoredNow(l: Ledger, env: AdmitEnv, resolved: SessionId, k: Key) {
    Known(l, env, k)
    && (env.reports[k].idle || (!WrittenInFlight(l, resolved, env.reports[k]) && RepeatsRecent(l, env, resolved, env.reports[k])))
  }

  ghost predicate Claimable(l: Ledger, env: AdmitEnv, resolved: SessionId, k: Key) {
    Known(l, env, k) && !env.reports[k].idle && !WrittenInFlight(l, resolved, env.reports[k])
    && !RepeatsRecent(l, env, resolved, env.reports[k])
  }

  ghost function ClaimableAmong(l: Ledger, env: AdmitEnv, resolved: SessionId, keys: seq<Key>): nat {
    if keys == [] then 0
    else ClaimableAmong(l, env, resolved, keys[..|keys| - 1]) + (if Claimable(l, env, resolved, keys[|keys| - 1]) then 1 else 0)
  }

  ghost predicate IgnoredRight(l: Ledger, env: AdmitEnv, resolved: SessionId, keys: seq<Key>, ignored: seq<Key>) {
    forall k :: k in ignored <==> k in keys && ((k in l.consumption && l.consumption[k].ignored) || IgnoredNow(l, env, resolved, k))
  }

  ghost predicate RejectedRight(l: Ledger, env: AdmitEnv, resolved: SessionId, keys: seq<Key>, rejected: seq<Rejection>) {
    forall k, reason :: Rejection(k, reason) in rejected <==> k in keys && RejectedFor(l, env, resolved, k, reason)
  }

  ghost predicate ClaimsRight(l: Ledger, env: AdmitEnv, resolved: SessionId, keys: seq<Key>, claims: seq<Claim>) {
    && |claims| == ClaimableAmong(l, env, resolved, keys)
    && (forall c | c in claims :: c.key in keys && Claimable(l, env, resolved, c.key) && c.messageId == env.reports[c.key].id)
    && (forall i | 0 <= i < |keys| && Claimable(l, env, resolved, keys[i]) ::
          ClaimableAmong(l, env, resolved, keys[..i]) < |claims| && claims[ClaimableAmong(l, env, resolved, keys[..i])].key == keys[i])
  }

  ghost predicate RowsRight(l: Ledger, env: AdmitEnv, resolved: SessionId, keys: seq<Key>, consumption: map<Key, Consumption>) {
    && (forall k | k in consumption && k !in l.consumption ::
          IgnoredNow(l, env, resolved, k) && consumption[k] == Consumption(None, resolved, None, true, env.at))
    && (forall k | k in keys && IgnoredNow(l, env, resolved, k) :: k in consumption)
  }

  /** The answers to the keys of a request, the claims not capped yet. */
  ghost predicate Answered(l: Ledger, env: AdmitEnv, resolved: SessionId, keys: seq<Key>, sc: Scan) {
    && IgnoredRight(l, env, resolved, keys, sc.ignored) && RejectedRight(l, env, resolved, keys, sc.rejected)
    && ClaimsRight(l, env, resolved, keys, sc.claims) && RowsRight(l, env, resolved, keys, sc.consumption)
  }

  /** The three reasons found before the claims are capped. */
  ghost predicate RejectedFor(l: Ledger, env: AdmitEnv, resolved: SessionId, k: Key, reason: Reason) {
    match reason
    case AlreadyConsumed(batch) => Consumed(l, k) && batch == l.consumption[k].batch
    case UnknownProvenance => Unknown(l, env, k)
    case CausalSuspect => Suspected(l, env, resolved, k)
    case BatchOverflow => false
  }

  /** One more key whose answer is `sc'`. */
  lemma {:induction false} ScanAnswers(l: Ledger, env: AdmitEnv, resolved: SessionId, keys: seq<Key>)
    requires Distinct(keys)
    ensures Answered(l, env, resolved, keys, ScanKeys(l.batches, env, resolved, l.consumption, keys))
  {
    if keys != [] {
      var front, key := keys[..|keys| - 1], keys[|keys| - 1];
      var sc := ScanKeys(l.batches, env, resolved, l.consumption, front);
      ScanAnswers(l, env, resolved, front);
      ScanHolds(l, env, resolved, front);
      assert key !in front;
      assert keys == front + [key];
      OneMoreAnswered(l, env, resolved, front, sc, key);
    }
  }

  /** What the loop sees of a key is what the old ledger says of it. */
  lemma SeenAsItWas(l: Ledger, env: AdmitEnv, resolved: SessionId, front: seq<Key>, sc: Scan, key: Key)
    requires ScanRows(l, env, resolved, front, sc) && key !in front
    ensures key in sc.consumption <==> key in l.consumption
    ensures key in l.consumption ==> sc.consumption[key] == l.consumption[key]
    ensures key in env.reports ==> (Suspect(l.batches, resolved, env.reports[key].timestamp) <==> WrittenInFlight(l, resolved, env.reports[key]))
    ensures key in env.reports ==>
      (SameSourceRecent(sc.consumption, env, resolved, env.reports[key]) <==> RepeatsRecent(l, env, resolved, env.reports[key]))
  {
    if key in env.reports {
      CooldownSeesStoredRows(l, env, resolved, front, sc, env.reports[key]);
    }
  }

  /** How the loop answers one key, by what the old ledger says of it. */
  ghost predicate OneAnswer(l: Ledger, env: AdmitEnv, resolved: SessionId, sc: Scan, sc': Scan, key: Key) {
    if Claimable(l, env, resolved, key) then sc' == sc.(claims := sc.claims + [Claim(key, env.reports[key].id)])
    else if IgnoredNow(l, env, resolved, key) then
      sc' == sc.(consumption := sc.consumption[key := Consumption(None, resolved, None, true, env.at)], ignored := sc.ignored + [key])
    else if key in l.consumption && l.consumption[key].ignored then sc' == sc.(ignored := sc.ignored + [key])
    else exists reason :: RejectedFor(l, env, resolved, key, reason) && sc' == sc.(rejected := sc.rejected + [Rejection(key, reason)])
  }

  lemma ExamineAnswersOne(l: Ledger, env: AdmitEnv, resolved: SessionId, front: seq<Key>, sc: Scan, key: Key)
    requires ScanRows(l, env, resolved, front, sc) && key !in front
    ensures OneAnswer(l, env, resolved, sc, Examine(l.batches, env, resolved, sc, key), key)
  {
    SeenAsItWas(l, env, resolved, front, sc, key);
    var sc' := Examine(l.batches, env, resolved, sc, key);
    if |sc'.rejected| > |sc.rejected| {
      assert RejectedFor(l, env, resolved, key, sc'.rejected[|sc.rejected|].reason);
    }
  }

  lemma OneReason(l: Ledger, env: AdmitEnv, resolved: SessionId, key: Key, a: Reason, b: Reason)
    requires RejectedFor(l, env, resolved, key, a) && RejectedFor(l, env, resolved, key, b)
    ensures a == b && !Claimable(l, env, resolved, key) && !IgnoredNow(l, env, resolved, key) && !(key in l.consumption && l.consumption[key].ignored)
  {
  }

  lemma OneMoreRejected(l: Ledger, env: AdmitEnv, resolved: SessionId, front: seq<Key>, sc: Scan, sc': Scan, key: Key)
    requires key !in front && OneAnswer(l, env, resolved, sc, sc', key) && RejectedRight(l, env, resolved, front, sc.rejected)
    ensures RejectedRight(l, env, resolved, front + [key], sc'.rejected)
  {
    forall k, reason
      ensures Rejection(k, reason) in sc'.rejected <==> k in front + [key] && RejectedFor(l, env, resolved, k, reason)
    {
      if k == key && RejectedFor(l, env, resolved, key, reason) {
        OneReason(l, env, resolved, key, reason, reason);
        var other :| RejectedFor(l, env, resolved, key, other) && sc' == sc.(rejected := sc.rejected + [Rejection(key, other)]);
        OneReason(l, env, resolved, key, reason, other);
      }
    }
  }

  lemma OneMoreIgnored(l: Ledger, env: AdmitEnv, resolved: SessionId, front: seq<Key>, sc: Scan, sc': Scan, key: Key)
    requires key !in front && OneAnswer(l, env, resolved, sc, sc', key)
    requires IgnoredRight(l, env, resolved, front, sc.ignored) && RowsRight(l, env, resolved, front, sc.consumption)
    ensures IgnoredRight(l, env, resolved, front + [key], sc'.ignored) && RowsRight(l, env, resolved, front + [key], sc'.consumption)
  {
  }

  lemma OneMoreClaim(l: Ledger, env: AdmitEnv, resolved: SessionId, front: seq<Key>, sc: Scan, sc': Scan, key: Key)
    requires key !in front && OneAnswer(l, env, resolved, sc, sc', key) && ClaimsRight(l, env, resolved, front, sc.claims)
    ensures ClaimsRight(l, env, resolved, front + [key], sc'.claims)
  {
    var keys := front + [key];
    assert keys[..|front|] == front && keys[|keys| - 1] == key;
    forall i | 0 <= i < |keys| && Claimable(l, env, resolved, keys[i])
      ensures ClaimableAmong(l, env, resolved, keys[..i]) < |sc'.claims|
      ensures sc'.claims[ClaimableAmong(l, env, resolved, keys[..i])].key == keys[i]
    {
      if i < |front| {
        assert keys[..i] == front[..i];
      }
    }
  }

  lemma OneMoreAnswered(l: Ledger, env: AdmitEnv, resolved: SessionId, front: seq<Key>, sc: Scan, key: Key)
    requires ScanRows(l, env, resolved, front, sc) && key !in front && Answered(l, env, resolved, front, sc)
    ensures Answered(l, env, resolved, front + [key], Examine(l.batches, env, resolved, sc, key))
  {
    var sc' := Examine(l.batches, env, resolved, sc, key);
    ExamineAnswersOne(l, env, resolved, front, sc, key);
    OneMoreRejected(l, env, resolved, front, sc, sc', key);
    OneMoreIgnored(l, env, resolved, front, sc, sc', key);
    OneMoreClaim(l, env, resolved, front, sc, sc', key);
  }

  /** Those after the tenth claimable key of the request. */
  ghost predicate Overflows(l: Ledger, env: AdmitEnv, resolved: SessionId, keys: seq<Key>, k: Key) {
    exists i :: 0 <= i < |keys| && keys[i] == k && Claimable(l, env, resolved, k) && ClaimableAmong(l, env, resolved, keys[..i]) >= 10
  }

  lemma CappedOverflows(l: Ledger, env: AdmitEnv, resolved: SessionId, keys: seq<Key>, sc: Scan, k: Key)
    requires Answered(l, env, resolved, keys, sc) && Distinct(keys) && |sc.claims| > BATCH_MAX
    requires forall i, j | 0 <= i < j < |sc.claims| :: sc.claims[i].key != sc.claims[j].key
    requires Rejection(k, BatchOverflow) in Capped(sc).rejected
    ensures Overflows(l, env, resolved, keys, k)
  {
    var tail := Overflow(sc.claims[BATCH_MAX..]);
    assert Rejection(k, BatchOverflow) in tail;
    var n :| 0 <= n < |tail| && tail[n] == Rejection(k, BatchOverflow);
    assert sc.claims[BATCH_MAX + n].key == k;
    assert sc.claims[BATCH_MAX + n] in sc.claims;
    var i :| 0 <= i < |keys| && keys[i] == k;
    var m := ClaimableAmong(l, env, resolved, keys[..i]);
    assert sc.claims[m].key == k;
    assert m == BATCH_MAX + n;
  }

  lemma CappedOverflow(l: Ledger, env: AdmitEnv, resolved: SessionId, keys: seq<Key>, sc: Scan, k: Key)
    requires Answered(l, env, resolved, keys, sc) && Distinct(keys)
    requires forall i, j | 0 <= i < j < |sc.claims| :: sc.claims[i].key != sc.claims[j].key
    ensures Rejection(k, BatchOverflow) in Capped(sc).rejected <==> Overflows(l, env, resolved, keys, k)
  {
    if |sc.claims| > BATCH_MAX {
      var tail := Overflow(sc.claims[BATCH_MAX..]);
      if Rejection(k, BatchOverflow) in Capped(sc).rejected {
        CappedOverflows(l, env, resolved, keys, sc, k);
      }
      if Overflows(l, env, resolved, keys, k) {
        var i :| 0 <= i < |keys| && keys[i] == k && Claimable(l, env, resolved, k) && ClaimableAmong(l, env, resolved, keys[..i]) >= 10;
        var m := ClaimableAmong(l, env, resolved, keys[..i]);
        assert tail[m - 10] == Rejection(k, BatchOverflow);
      }
    }
  }

  function IgnoredOf(r: AdmitResult): seq<Key> {
    if r.Empty? || r.Admitted? then r.ignored else []
  }

  function RejectedOf(r: AdmitResult): seq<Rejection> {
    if r.Empty? || r.Admitted? then r.rejected else []
  }

  function AcceptedOf(r: AdmitResult): seq<Claim> {
    if r.Admitted? then r.accepted else []
  }

  /** Every key is rejected for exactly its reason. */
  ghost predicate RejectionsAre(l: Ledger, env: AdmitEnv, resolved: SessionId, keys: seq<Key>, rejected: seq<Rejection>) {
    && (forall k, b :: Rejection(k, AlreadyConsumed(b)) in rejected <==> k in keys && Consumed(l, k) && b == l.consumption[k].batch)
    && (forall k :: Rejection(k, UnknownProvenance) in rejected <==> k in keys && Unknown(l, env, k))
    && (forall k :: Rejection(k, CausalSuspect) in rejected <==> k in keys && Suspected(l, env, resolved, k))
    && (forall k :: Rejection(k, BatchOverflow) in rejected <==> Overflows(l, env, resolved, keys, k))
  }

  /** The claims are the first ten claimable keys, each with the id of its report. */
  ghost predicate ClaimsAre(l: Ledger, env: AdmitEnv, resolved: SessionId, keys: seq<Key>, claims: seq<Claim>) {
    && (forall c | c in claims :: c.key in keys && Claimable(l, env, resolved, c.key) && c.messageId == env.reports[c.key].id)
    && |claims| == (if ClaimableAmong(l, env, resolved, keys) < 10 then ClaimableAmong(l, env, resolved, keys) else 10)
  }

  /** A new row is that of a claim, or an ignored one for a report that says nothing or repeats a recent one. */
  ghost predicate NewRowsAre(l: Ledger, l': Ledger, env: AdmitEnv, resolved: SessionId, keys: seq<Key>, claims: seq<Claim>) {
    && (forall k | k in l'.consumption && k !in l.consumption ::
          if k in ClaimKeys(claims) then l'.consumption[k].ignored == false
          else IgnoredNow(l, env, resolved, k) && l'.consumption[k] == Consumption(None, resolved, None, true, env.at))
    && (forall k | k in keys && IgnoredNow(l, env, resolved, k) :: k in l'.consumption)
  }

  /**
   Every key of a request that was looked at: rejected as consumed, unknown, suspect or too many, ignored, or
   claimed, exactly as the ledger was before; and a new ignored row only for a report that says nothing or
   repeats a recent one.
   */
  lemma EveryKeyIsAnswered(l: Ledger, env: AdmitEnv, resolved: SessionId, keys: seq<Key>, batch: BatchId, canonical: string, owner: Option<string>)
    requires Distinct(keys)
    ensures var (l', r) := AdmitKeys(l, env, resolved, keys, batch, canonical, owner);
            r.Empty? || r.Admitted? ==>
              && RejectionsAre(l, env, resolved, keys, RejectedOf(r)) && IgnoredRight(l, env, resolved, keys, IgnoredOf(r))
              && ClaimsAre(l, env, resolved, keys, AcceptedOf(r)) && NewRowsAre(l, l', env, resolved, keys, AcceptedOf(r))
  {
    var (l', r) := AdmitKeys(l, env, resolved, keys, batch, canonical, owner);
    if r.Empty? || r.Admitted? {
      var sc := ScanKeys(l.batches, env, resolved, l.consumption, keys);
      ScanAnswers(l, env, resolved, keys);
      ScanHolds(l, env, resolved, keys);
      CapAnswers(l, env, resolved, keys, sc);
      RejectionsFollow(l, env, resolved, keys, sc);
      RowsFollow(l, env, resolved, keys, Capped(sc), batch);
      assert r.Empty? ==> Capped(sc).claims == [] && WithClaims(sc.consumption, [], batch, resolved, env.at) == sc.consumption;
    }
  }

  lemma RejectionsFollow(l: Ledger, env: AdmitEnv, resolved: SessionId, keys: seq<Key>, sc: Scan)
    requires RejectedRight(l, env, resolved, keys, sc.rejected)
    requires forall k, reason | reason != BatchOverflow :: Rejection(k, reason) in Capped(sc).rejected <==> Rejection(k, reason) in sc.rejected
    requires forall k :: Rejection(k, BatchOverflow) in Capped(sc).rejected <==> Overflows(l, env, resolved, keys, k)
    ensures RejectionsAre(l, env, resolved, keys, Capped(sc).rejected)
  {
  }

  lemma RowsFollow(l: Ledger, env: AdmitEnv, resolved: SessionId, keys: seq<Key>, sc: Scan, batch: BatchId)
    requires RowsRight(l, env, resolved, keys, sc.consumption)
    ensures NewRowsAre(l, Ledger(l.batches, WithClaims(sc.consumption, sc.claims, batch, resolved, env.at)), env, resolved, keys, sc.claims)
  {
    WithClaimsRows(sc.consumption, sc.claims, batch, resolved, env.at);
  }

  lemma CapAnswers(l: Ledger, env: AdmitEnv, resolved: SessionId, keys: seq<Key>, sc: Scan)
    requires Answered(l, env, resolved, keys, sc) && Distinct(keys)
    requires forall i, j | 0 <= i < j < |sc.claims| :: sc.claims[i].key != sc.claims[j].key
    ensures var capped := Capped(sc);
            && capped.ignored == sc.ignored && capped.consumption == sc.consumption
            && (forall c | c in capped.claims :: c in sc.claims)
            && |capped.claims| == (if |sc.claims| < 10 then |sc.claims| else 10)
            && (forall k, reason | reason != BatchOverflow :: Rejection(k, reason) in capped.rejected <==> Rejection(k, reason) in sc.rejected)
            && (forall k :: Rejection(k, BatchOverflow) in capped.rejected <==> Overflows(l, env, resolved, keys, k))
  {
    forall k
      ensures Rejection(k, BatchOverflow) in Capped(sc).rejected <==> Overflows(l, env, resolved, keys, k)
    {
      CappedOverflow(l, env, resolved, keys, sc, k);
    }
  }
}
