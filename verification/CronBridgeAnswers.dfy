/** What the cron bridge answers, written out: a write by the state of its target, an attempt by what its tries meet, a receipt by its columns. */
module CronBridgeAnswers {
  import opened Basics
  import opened CronBridge
  import opened CronBridgeProofs
  import opened CronBridgeStore
  import CronBridgeRun

  // ---------------------------------------------------------------- one write

  /** The row of the report the target's lineage shows first, if any. */
  function RowSeen(db: Db, target: Sid, key: Key): Option<nat>
    requires Linked(db.sessions)
  {
    FindRow(db.messages, Lineage(db, target), key)
  }

  predicate SeesOther(db: Db, target: Sid, key: Key, content: string)
    requires Linked(db.sessions)
  {
    RowSeen(db, target, key).Some? && db.messages[RowSeen(db, target, key).value].digest != content
  }

  predicate SeesSame(db: Db, target: Sid, key: Key, content: string)
    requires Linked(db.sessions)
  {
    RowSeen(db, target, key).Some? && db.messages[RowSeen(db, target, key).value].digest == content
  }

  /** The session may take reports at all. */
  predicate Takes(s: Session) {
    s.source != "cron" && s.source != "subagent" && s.hidden == false && s.archived == false
    && (s.ended == None || s.ended == Some("compression"))
  }

  /** Why a write is refused for good, and with which words. */
  predicate RefusedWith(db: Db, target: Sid, key: Key, content: string, error: string)
    requires Linked(db.sessions)
  {
    if SeesOther(db, target, key, content) then error == "delivery_conflict"
    else
      && !SeesSame(db, target, key, content)
      && if target >= |db.sessions| then error == "target_missing"
         else
           var s := db.sessions[target];
           if s.source == "cron" || s.source == "subagent" then error == "target_wrong_source"
           else if s.hidden then error == "target_hidden"
           else if s.archived then error == "target_archived"
           else s.ended.Some? && s.ended != Some("compression") && error == "target_ended:" + s.ended.value
  }

  /** A rotation closed the target, and nothing else stands against it. */
  predicate MeetsRotation(db: Db, target: Sid, key: Key)
    requires Linked(db.sessions)
  {
    RowSeen(db, target, key).None? && target < |db.sessions| && Takes(db.sessions[target]) && db.sessions[target].ended == Some("compression")
  }

  predicate MeetsOpen(db: Db, target: Sid, key: Key)
    requires Linked(db.sessions)
  {
    RowSeen(db, target, key).None? && target < |db.sessions| && Takes(db.sessions[target]) && db.sessions[target].ended == None
  }

  lemma WriteAnswers(db: Db, target: Sid, key: Key, content: string)
    requires Linked(db.sessions)
    ensures var (db', w) := WriteOnce(db, target, key, content);
            && (forall row :: w == Dedup(row) <==> SeesSame(db, target, key, content) && row == RowSeen(db, target, key).value)
            && (forall error :: w == Permanent(error) <==> RefusedWith(db, target, key, content, error))
            && (w == Closed <==> MeetsRotation(db, target, key))
            && (w == TurnLost <==> MeetsOpen(db, target, key) && db.sessions[target].leased)
            && (w.Fresh? <==> MeetsOpen(db, target, key) && !db.sessions[target].leased)
            && (w.Fresh? ==> w.row == |db.messages| && db' == db.(messages := db.messages + [Row(target, key, content, true)]))
            && (!w.Fresh? ==> db' == db)
  {
  }

  // ---------------------------------------------------------------- one attempt

  /** SessionDB when try n writes, if nobody wrote before. */
  function Meanwhile(db: Db, tries: seq<Try>, n: nat): (r: Db)
    requires Linked(db.sessions) && n <= |tries|
    ensures Linked(r.sessions)
  {
    if n == 0 then db
    else
      var before := Meanwhile(db, tries, n - 1);
      LinkedAfterMoves(before, tries[n - 1].before + tries[n - 1].between);
      ApplyMoves(before, tries[n - 1].before + tries[n - 1].between)
  }

  /** Try i reaches SessionDB and finds its target closed by a rotation. */
  predicate Rotated(db: Db, key: Key, tries: seq<Try>, i: nat)
    requires Linked(db.sessions) && i < |tries|
  {
    tries[i].available && !tries[i].busy && MeetsRotation(Meanwhile(db, tries, i + 1), tries[i].target, key)
  }

  /** What the attempt answers when try i is the first that met no rotation. */
  predicate EndsWithTry(db: Db, key: Key, content: string, t: Try, r: Outcome)
    requires Linked(db.sessions)
  {
    if !t.available || t.busy then r == Retry
    else if SeesSame(db, t.target, key, content) then r == Echoed(RowSeen(db, t.target, key).value)
    else if MeetsOpen(db, t.target, key) then r == if db.sessions[t.target].leased then Retry else Delivered(|db.messages|)
    else r.Refused? && RefusedWith(db, t.target, key, content, r.error)
  }

  lemma {:induction false} MeanwhileShifts(db: Db, tries: seq<Try>, n: nat)
    requires Linked(db.sessions) && n < |tries|
    ensures Meanwhile(db, tries, n + 1) == Meanwhile(Meanwhile(db, tries, 1), tries[1..], n)
  {
    if n > 0 {
      MeanwhileShifts(db, tries, n - 1);
      assert tries[1..][n - 1] == tries[n];
    }
  }

  lemma RotatedShifts(db: Db, key: Key, tries: seq<Try>, j: nat)
    requires Linked(db.sessions) && j + 1 < |tries|
    ensures tries[1..][j] == tries[j + 1]
    ensures Rotated(Meanwhile(db, tries, 1), key, tries[1..], j) == Rotated(db, key, tries, j + 1)
  {
    MeanwhileShifts(db, tries, j + 1);
  }

  predicate AllRotated(db: Db, key: Key, tries: seq<Try>, n: nat)
    requires Linked(db.sessions) && n <= |tries|
  {
    forall j: nat | j < n :: Rotated(db, key, tries, j)
  }

  lemma RotationsShift(db: Db, key: Key, tries: seq<Try>, n: nat)
    requires Linked(db.sessions) && 0 < n <= |tries| && AllRotated(db, key, tries, n)
    ensures AllRotated(Meanwhile(db, tries, 1), key, tries[1..], n - 1)
  {
    forall j: nat | j < n - 1
      ensures Rotated(Meanwhile(db, tries, 1), key, tries[1..], j)
    {
      RotatedShifts(db, key, tries, j);
      assert Rotated(db, key, tries, j + 1);
    }
  }

  /** A try that meets a rotation hands on to the next one and writes nothing. */
  lemma RotationGoesOn(db: Db, key: Key, content: string, tries: seq<Try>)
    requires Linked(db.sessions) && tries != [] && Rotated(db, key, tries, 0)
    ensures AttemptFrom(db, key, content, tries) == AttemptFrom(Meanwhile(db, tries, 1), key, content, tries[1..])
  {
    assert Meanwhile(db, tries, 0) == db;
    WriteAnswers(Meanwhile(db, tries, 1), tries[0].target, key, content);
  }

  lemma FirstTryEnds(db: Db, key: Key, content: string, tries: seq<Try>)
    requires Linked(db.sessions) && tries != [] && !Rotated(db, key, tries, 0)
    ensures EndsWithTry(Meanwhile(db, tries, 1), key, content, tries[0], AttemptFrom(db, key, content, tries).1)
  {
    assert Meanwhile(db, tries, 0) == db;
    WriteAnswers(Meanwhile(db, tries, 1), tries[0].target, key, content);
  }

  lemma EndShifts(db: Db, key: Key, content: string, tries: seq<Try>, i: nat)
    requires Linked(db.sessions) && 0 < i < |tries| && Rotated(db, key, tries, 0)
    requires var next := Meanwhile(db, tries, 1);
             EndsWithTry(Meanwhile(next, tries[1..], i), key, content, tries[1..][i - 1], AttemptFrom(next, key, content, tries[1..]).1)
    ensures EndsWithTry(Meanwhile(db, tries, i + 1), key, content, tries[i], AttemptFrom(db, key, content, tries).1)
  {
    MeanwhileShifts(db, tries, i);
    RotationGoesOn(db, key, content, tries);
    assert tries[1..][i - 1] == tries[i];
  }

  /**
   An attempt goes on past every try that meets a rotation, and ends with the first that does not: by the state
   of that try's target and nothing else.
   */
  lemma {:induction false} AttemptEndsAt(db: Db, key: Key, content: string, tries: seq<Try>, i: nat)
    requires Linked(db.sessions) && i < |tries| && AllRotated(db, key, tries, i) && !Rotated(db, key, tries, i)
    ensures EndsWithTry(Meanwhile(db, tries, i + 1), key, content, tries[i], AttemptFrom(db, key, content, tries).1)
    decreases i
  {
    if i == 0 {
      FirstTryEnds(db, key, content, tries);
    } else {
      var next := Meanwhile(db, tries, 1);
      RotationsShift(db, key, tries, i);
      RotatedShifts(db, key, tries, i - 1);
      AttemptEndsAt(next, key, content, tries[1..], i - 1);
      EndShifts(db, key, content, tries, i);
    }
  }

  /** An attempt whose every try meets a rotation is put off, not refused. */
  lemma {:induction false} RotationsOnlyPutOff(db: Db, key: Key, content: string, tries: seq<Try>)
    requires Linked(db.sessions) && AllRotated(db, key, tries, |tries|)
    ensures AttemptFrom(db, key, content, tries) == (Meanwhile(db, tries, |tries|), Retry)
    decreases |tries|
  {
    if tries != [] {
      var next := Meanwhile(db, tries, 1);
      RotationGoesOn(db, key, content, tries);
      RotationsShift(db, key, tries, |tries|);
      RotationsOnlyPutOff(next, key, content, tries[1..]);
      MeanwhileShifts(db, tries, |tries| - 1);
    }
  }

  lemma {:induction false} FirstWithoutRotation(db: Db, key: Key, tries: seq<Try>, n: nat) returns (i: nat)
    requires Linked(db.sessions) && n <= |tries| && AllRotated(db, key, tries, n)
    ensures n <= i <= |tries| && AllRotated(db, key, tries, i) && (i < |tries| ==> !Rotated(db, key, tries, i))
    decreases |tries| - n
  {
    if n < |tries| && Rotated(db, key, tries, n) {
      i := FirstWithoutRotation(db, key, tries, n + 1);
    } else {
      i := n;
    }
  }

  /** Refused only when a try found another digest, no target, or a target that takes no reports. */
  lemma RefusedOnlyForCause(db: Db, key: Key, content: string, tries: seq<Try>)
    requires Linked(db.sessions)
    ensures var r := AttemptFrom(db, key, content, tries).1;
            r.Refused? ==> exists i: nat :: i < |tries| && RefusedWith(Meanwhile(db, tries, i + 1), tries[i].target, key, content, r.error)
  {
    var i := FirstWithoutRotation(db, key, tries, 0);
    if i < |tries| {
      AttemptEndsAt(db, key, content, tries, i);
    } else {
      RotationsOnlyPutOff(db, key, content, tries);
    }
  }

  /** However many rotations come first: the try that meets an open, unleased target that takes reports delivers. */
  lemma DeliveredAfterRotations(db: Db, key: Key, content: string, tries: seq<Try>, i: nat)
    requires Linked(db.sessions) && i < |tries| && AllRotated(db, key, tries, i)
    requires tries[i].available && !tries[i].busy
    requires var now := Meanwhile(db, tries, i + 1); MeetsOpen(now, tries[i].target, key) && !now.sessions[tries[i].target].leased
    ensures AttemptFrom(db, key, content, tries).1 == Delivered(|Meanwhile(db, tries, i + 1).messages|)
  {
    AttemptEndsAt(db, key, content, tries, i);
  }

  // ---------------------------------------------------------------- over runs

  /** A failed receipt names a target that takes no reports, another digest, or the end of the retries; never a rotation. */
  predicate Cause(error: string) {
    || error in {"delivery_conflict", "target_missing", "target_wrong_source", "target_hidden", "target_archived", "retry_exhausted"}
    || ("target_ended:" <= error && error != "target_ended:compression")
  }

  ghost predicate CausesNamed(actors: map<nat, CronBridgeRun.Actor>, receipts: map<Key, Receipt>) {
    && (forall i | i in actors && actors[i].phase.Acking? && actors[i].phase.outcome.Refused? :: Cause(actors[i].phase.outcome.error))
    && (forall k | k in receipts && receipts[k].status == Failed :: receipts[k].error.Some? && Cause(receipts[k].error.value))
  }

  lemma RefusalHasCause(db: Db, target: Sid, key: Key, content: string)
    requires Linked(db.sessions)
    ensures var w := WriteOnce(db, target, key, content).1; w.Permanent? ==> Cause(w.error)
  {
    WriteAnswers(db, target, key, content);
    var w := WriteOnce(db, target, key, content).1;
    if w.Permanent? && target < |db.sessions| && db.sessions[target].ended.Some? {
      EndedIsNotCompression(db.sessions[target].ended.value);
    }
  }

  lemma EndedIsNotCompression(reason: string)
    ensures "target_ended:" <= "target_ended:" + reason
    ensures reason != "compression" ==> "target_ended:" + reason != "target_ended:compression"
  {
    assert ("target_ended:" + reason)[13..] == reason;
    assert "target_ended:compression"[13..] == "compression";
  }

  /** A rotation met at the write sends the delivery back to resolve, or puts it off; it never refuses. */
  lemma RotationNeverRefuses(w: CronBridgeRun.World, id: nat)
    requires Linked(w.db.sessions) && id in w.actors && w.actors[id].phase.Writing?
    requires MeetsRotation(w.db, w.actors[id].phase.target, w.actors[id].key)
    ensures var w' := CronBridgeRun.Apply(w, CronBridgeRun.Write(id, false));
            && w'.db == w.db && w'.spool == w.spool && id in w'.actors
            && w'.actors[id].phase == if w.actors[id].phase.tries <= 1 then CronBridgeRun.Acking(Retry)
                                      else CronBridgeRun.Resolving(w.actors[id].phase.tries - 1)
  {
    WriteAnswers(w.db, w.actors[id].phase.target, w.actors[id].key, w.actors[id].content);
  }

  lemma AckNamesCause(s: Spool, a: CronBridgeRun.Actor, now: real)
    requires a.phase.Acking? && (a.phase.outcome.Refused? ==> Cause(a.phase.outcome.error))
    requires forall k | k in s.receipts && s.receipts[k].status == Failed :: s.receipts[k].error.Some? && Cause(s.receipts[k].error.value)
    ensures var s' := CronBridgeRun.AckSpool(s, a, now);
            forall k | k in s'.receipts && s'.receipts[k].status == Failed :: s'.receipts[k].error.Some? && Cause(s'.receipts[k].error.value)
  {
  }

  lemma WriteNamesCauses(w: CronBridgeRun.World, id: nat, busy: bool)
    requires Linked(w.db.sessions) && CausesNamed(w.actors, w.spool.receipts)
    ensures var w' := CronBridgeRun.Apply(w, CronBridgeRun.Write(id, busy)); CausesNamed(w'.actors, w'.spool.receipts)
  {
    if id in w.actors && w.actors[id].phase.Writing? {
      RefusalHasCause(w.db, w.actors[id].phase.target, w.actors[id].key, w.actors[id].content);
    }
  }

  lemma AckStepNamesCauses(w: CronBridgeRun.World, id: nat, now: real)
    requires Linked(w.db.sessions) && CausesNamed(w.actors, w.spool.receipts)
    ensures var w' := CronBridgeRun.Apply(w, CronBridgeRun.Acknowledge(id, now)); CausesNamed(w'.actors, w'.spool.receipts)
  {
    if id in w.actors && w.actors[id].phase.Acking? { AckNamesCause(w.spool, w.actors[id], now); }
  }

  lemma StepNamesCauses(w: CronBridgeRun.World, e: CronBridgeRun.Event)
    requires Linked(w.db.sessions) && CausesNamed(w.actors, w.spool.receipts)
    ensures CausesNamed(CronBridgeRun.Apply(w, e).actors, CronBridgeRun.Apply(w, e).spool.receipts)
  {
    match e
    case Write(id, busy) => WriteNamesCauses(w, id, busy);
    case Acknowledge(id, now) => AckStepNamesCauses(w, id, now);
    case _ =>
  }

  /** Over every run, with any rotations in it: no failed receipt is due to one. */
  lemma {:induction false} FailuresNameTheirCause(es: seq<CronBridgeRun.Event>)
    ensures CausesNamed(CronBridgeRun.Run(es).actors, CronBridgeRun.Run(es).spool.receipts)
  {
    if es != [] {
      FailuresNameTheirCause(es[..|es| - 1]);
      StepNamesCauses(CronBridgeRun.Run(es[..|es| - 1]), es[|es| - 1]);
    }
  }

  // ---------------------------------------------------------------- receipts and the spool

  /** The upsert column by column: delivered is never left, row and digest are kept when nothing new is known, the error is the latest. */
  lemma UpsertIs(s: Spool, key: Key, status: Status, row: Option<nat>, error: Option<string>, digest: Option<string>)
    ensures var s' := PutReceipt(s, key, status, row, error, digest);
            && s'.pending == s.pending && s'.receipts.Keys == s.receipts.Keys + {key}
            && (forall k | k in s.receipts && k != key :: s'.receipts[k] == s.receipts[k])
            && (key !in s.receipts ==> s'.receipts[key] == Receipt(status, row, error, digest))
            && (key in s.receipts ==>
                  && (s'.receipts[key].status == if s.receipts[key].status == DeliveredStatus then DeliveredStatus else status)
                  && (s'.receipts[key].row == if row == None then s.receipts[key].row else row)
                  && s'.receipts[key].error == error
                  && (s'.receipts[key].digest == if digest == None then s.receipts[key].digest else digest))
  {
  }

  /** A report is spooled once, with no attempts and due at once; a second delivery leaves what is there. */
  lemma SpoolIs(s: Spool, key: Key, content: string, now: real)
    ensures SpoolReport(s, key, content, now).receipts == s.receipts
    ensures SpoolReport(s, key, content, now).pending == if key in s.pending then s.pending else s.pending[key := Pending(content, 0, now)]
    ensures AlreadyDelivered(s, key, content) <==>
              key in s.receipts && s.receipts[key].status == DeliveredStatus && s.receipts[key].digest == Some(content)
  {
  }

  /** What a direct delivery leaves of its row: gone when delivered, found or refused, otherwise due again in half a minute with its count. */
  lemma DirectLeaves(s: Spool, key: Key, content: string, outcome: Outcome, now: real)
    ensures var s' := AckDirect(s, key, content, outcome, now);
            && (forall k | k != key :: k in s'.pending <==> k in s.pending)
            && (forall k | k in s.pending && k != key :: s'.pending[k] == s.pending[k])
            && (key in s'.pending <==> key in s.pending && outcome == Retry)
            && (key in s'.pending ==> s'.pending[key] == s.pending[key].(nextRetry := now + 30.0))
            && key in s'.receipts
            && (outcome.Refused? ==> s'.receipts[key].error == Some(outcome.error))
            && (outcome == Retry ==> s'.receipts[key].error == None)
            && (outcome.Delivered? || outcome.Echoed? ==>
                  s'.receipts[key].status == DeliveredStatus && s'.receipts[key].row == Some(outcome.row) && s'.receipts[key].digest == Some(content))
            && (!outcome.Delivered? && !outcome.Echoed? && !WasDelivered(s, key) ==>
                  s'.receipts[key].status == if outcome == Retry then Queued else Failed)
  {
  }

  /** What a drained row gets: its delay by the count the pass read, or the end of its retries. */
  lemma DrainedRetryIs(s: Spool, key: Key, content: string, attempts: nat, now: real)
    ensures var s' := AckDrain(s, key, content, attempts, Retry, now);
            if attempts >= 23 then
              key !in s'.pending && key in s'.receipts && s'.receipts[key].error == Some("retry_exhausted")
            else if key in s.pending then
              s' == s.(pending := s.pending[key := s.pending[key].(attempts := attempts + 1, nextRetry := now + Backoff(attempts + 1))])
            else s' == s
  {
  }

  /** One, two, four, eight minutes, and a quarter of an hour from then on. */
  lemma BackoffTable(attempts: nat)
    ensures Backoff(1) == 60.0 && Backoff(2) == 120.0 && Backoff(3) == 240.0 && Backoff(4) == 480.0
    ensures attempts >= 5 ==> Backoff(attempts) == 900.0
  {
    assert Pow2(1) == 2 && Pow2(2) == 4 && Pow2(3) == 8 && Pow2(4) == 16 && Pow2(5) == 32;
  }

  /** A pass takes at most 32 rows, all of them due and under the cap. */
  lemma PageIs(s: Spool, keys: seq<Key>, now: real)
    ensures CronBridgeRun.DuePage(s, keys, now) <==>
              |keys| <= 32 && (forall i, j | 0 <= i < j < |keys| :: keys[i] != keys[j])
              && forall k | k in keys :: k in s.pending && s.pending[k].attempts < 24 && s.pending[k].nextRetry <= now
  {
    assert forall i | 0 <= i < |keys| :: keys[i] in keys;
  }

  /** What a drained row leaves when its attempt was answered: it is gone, and its receipt says how it ended. */
  lemma DrainedLeaves(s: Spool, key: Key, content: string, attempts: nat, row: nat, error: string, now: real)
    ensures var kept := if key in s.receipts then s.receipts[key] else Receipt(Queued, None, None, None);
            && AckDrain(s, key, content, attempts, Delivered(row), now)
               == Spool(s.pending - {key}, s.receipts[key := Receipt(DeliveredStatus, Some(row), None, Some(content))])
            && AckDrain(s, key, content, attempts, Echoed(row), now)
               == Spool(s.pending - {key}, s.receipts[key := Receipt(DeliveredStatus, Some(row), None, Some(content))])
            && AckDrain(s, key, content, attempts, Refused(error), now)
               == Spool(s.pending - {key},
                        s.receipts[key := Receipt(if kept.status == DeliveredStatus then DeliveredStatus else Failed, kept.row, Some(error), kept.digest)])
  {
  }

  /** What the spool says of one report. */
  predicate SameAt(s: Spool, t: Spool, key: Key) {
    && (key in s.pending <==> key in t.pending) && (key in s.pending ==> s.pending[key] == t.pending[key])
    && (key in s.receipts <==> key in t.receipts) && (key in s.receipts ==> s.receipts[key] == t.receipts[key])
  }

  predicate DistinctKeys(jobs: seq<Job>) {
    forall i, j | 0 <= i < j < |jobs| :: jobs[i].key != jobs[j].key
  }

  lemma OthersStay(s: Spool, t: Spool, job: Job, outcome: Outcome, now: real, key: Key)
    requires SameAt(s, t, key)
    ensures key != job.key ==> SameAt(AckDrain(s, job.key, job.content, job.attempts, outcome, now), t, key)
    ensures key == job.key ==>
              SameAt(AckDrain(s, job.key, job.content, job.attempts, outcome, now), AckDrain(t, job.key, job.content, job.attempts, outcome, now), key)
  {
  }

  /** A pass over distinct reports leaves each of them as its own acknowledgement would alone, and every other report as it was. */
  lemma {:induction false} PassSettlesEach(s: Spool, jobs: seq<Job>, outcomes: seq<Outcome>, now: real)
    requires |jobs| == |outcomes| && DistinctKeys(jobs)
    ensures forall i | 0 <= i < |jobs| ::
              SameAt(AckAll(s, jobs, outcomes, now), AckDrain(s, jobs[i].key, jobs[i].content, jobs[i].attempts, outcomes[i], now), jobs[i].key)
    ensures forall key | (forall i | 0 <= i < |jobs| :: jobs[i].key != key) :: SameAt(AckAll(s, jobs, outcomes, now), s, key)
  {
    if jobs != [] {
      var n := |jobs| - 1;
      var before := AckAll(s, jobs[..n], outcomes[..n], now);
      PassSettlesEach(s, jobs[..n], outcomes[..n], now);
      forall i | 0 <= i < |jobs|
        ensures SameAt(AckAll(s, jobs, outcomes, now), AckDrain(s, jobs[i].key, jobs[i].content, jobs[i].attempts, outcomes[i], now), jobs[i].key)
      {
        if i == n {
          OthersStay(before, s, jobs[n], outcomes[n], now, jobs[n].key);
        } else {
          var alone := AckDrain(s, jobs[i].key, jobs[i].content, jobs[i].attempts, outcomes[i], now);
          assert jobs[..n][i] == jobs[i] && outcomes[..n][i] == outcomes[i];
          OthersStay(before, alone, jobs[n], outcomes[n], now, jobs[i].key);
        }
      }
      forall key | (forall i | 0 <= i < |jobs| :: jobs[i].key != key)
        ensures SameAt(AckAll(s, jobs, outcomes, now), s, key)
      {
        OthersStay(before, s, jobs[n], outcomes[n], now, key);
      }
    }
  }

  /** How a row of a pass ends, by its outcome and by the attempts the pass read. */
  predicate EndsAs(job: Job, outcome: Outcome, e: Ending) {
    match e
    case Inserted => outcome.Delivered?
    case Found => outcome.Echoed?
    case PutOff => outcome == Retry && job.attempts < 23
    case DeadLetter => outcome.Refused? || (outcome == Retry && job.attempts >= 23)
  }

  function EndingAt(jobs: seq<Job>, outcomes: seq<Outcome>, e: Ending): set<nat>
    requires |jobs| == |outcomes|
  {
    set i: nat | i < |jobs| && EndsAs(jobs[i], outcomes[i], e)
  }

  /** The four counts of a pass are the numbers of its rows that ended so. */
  lemma {:induction false} CountsAre(jobs: seq<Job>, outcomes: seq<Outcome>, e: Ending)
    requires |jobs| == |outcomes|
    ensures HowMany(jobs, outcomes, e) == |EndingAt(jobs, outcomes, e)|
  {
    if jobs == [] {
      assert EndingAt(jobs, outcomes, e) == {};
    } else {
      var n := |jobs| - 1;
      CountsAre(jobs[..n], outcomes[..n], e);
      var front := EndingAt(jobs[..n], outcomes[..n], e);
      assert n !in front;
      assert EndingAt(jobs, outcomes, e) == front + (if EndsAs(jobs[n], outcomes[n], e) then {n} else {});
    }
  }

  /** The crash-gap scan adds a delivered receipt for a committed row whose report has none, and changes nothing else. */
  lemma BackfillIs(s: Spool, key: Key, row: nat, digest: string)
    ensures Backfill(s, key, row, digest)
            == if key in s.receipts then s else Spool(s.pending, s.receipts[key := Receipt(DeliveredStatus, Some(row), None, Some(digest))])
  {
  }

  // ---------------------------------------------------------------- what happens to sessions meanwhile

  /** A compression closes an open session and continues it in a new one that takes over its other columns and some of its rows. */
  lemma RotateIs(db: Db, s: Sid, copied: seq<nat>)
    requires Linked(db.sessions)
    ensures var db' := ApplyMove(db, Rotate(s, copied));
            if s < |db.sessions| && db.sessions[s].ended == None then
              var was, n := db.sessions[s], |db.sessions|;
              && |db'.sessions| == n + 1
              && db'.sessions[s] == Session(was.parent, Some("compression"), Some(n), was.source, was.hidden, was.archived, was.leased)
              && db'.sessions[n] == Session(Some(s), None, None, was.source, was.hidden, was.archived, was.leased)
              && (forall t | 0 <= t < n && t != s :: db'.sessions[t] == db.sessions[t])
              && db'.messages == db.messages + CopyRows(db.messages, s, n, copied)
            else db' == db
  {
  }

  /** A copied row keeps its key and its content; only rows of the closed session are copied. */
  lemma CopiesAre(messages: seq<Row>, s: Sid, child: Sid, copied: seq<nat>, i: nat)
    ensures CopyRows(messages, s, child, []) == []
    ensures CopyRows(messages, s, child, copied + [i])
            == CopyRows(messages, s, child, copied)
               + if i < |messages| && messages[i].session == s then [Row(child, messages[i].key, messages[i].digest, false)] else []
  {
    assert (copied + [i])[..|copied|] == copied;
  }

  /** A session that no compression closed may be created, and ended, hidden, archived or leased at any time. */
  lemma ChangesAre(db: Db, fork: Session, s: Sid, ended: Option<string>, hidden: bool, archived: bool, leased: bool)
    ensures fork.next == None && fork.ended != Some("compression") && (fork.parent == None || fork.parent.value < |db.sessions|) ==>
              ApplyMove(db, Create(fork)) == Db(db.sessions + [fork], db.messages)
    ensures s < |db.sessions| && db.sessions[s].ended != Some("compression") && ended != Some("compression") ==>
              var was := db.sessions[s];
              ApplyMove(db, Change(s, ended, hidden, archived, leased))
              == Db(db.sessions[s := Session(was.parent, ended, was.next, was.source, hidden, archived, leased)], db.messages)
  {
  }

  /** Moves happen one after the other. */
  lemma MovesAre(db: Db, ms: seq<Move>, m: Move)
    ensures ApplyMoves(db, []) == db && ApplyMoves(db, ms + [m]) == ApplyMove(ApplyMoves(db, ms), m)
  {
    assert (ms + [m])[..|ms|] == ms;
  }

  // ---------------------------------------------------------------- how a delivery begins and ends in a run

  /** A delivery spools first; a delivered receipt of the same content answers it, and then its row is dropped; otherwise it gets three tries. */
  lemma DeliveryBegins(w: CronBridgeRun.World, id: nat, key: Key, content: string, now: real)
    requires Linked(w.db.sessions) && id !in w.actors
    ensures var w' := CronBridgeRun.Apply(w, CronBridgeRun.Deliver(id, key, content, now));
            var known := key in w.spool.receipts && w.spool.receipts[key].status == DeliveredStatus && w.spool.receipts[key].digest == Some(content);
            && key in w'.spool.pending && w'.spool == SpoolReport(w.spool, key, content, now) && w'.db == w.db && id in w'.actors
            && w'.actors[id] == CronBridgeRun.Actor(CronBridgeRun.Direct, key, content, if known then CronBridgeRun.Answered else CronBridgeRun.Resolving(3))
            && (known ==> CronBridgeRun.Apply(w', CronBridgeRun.DropAnswered(id)).spool == w.spool.(pending := w.spool.pending - {key}))
  {
  }

  /** A pass goes through the rows it read one by one, with the count it read and three tries for each. */
  lemma PassGoesOn(w: CronBridgeRun.World, pass: nat, id: nat)
    requires Linked(w.db.sessions) && id !in w.actors && pass in w.queues && w.queues[pass] != []
    requires forall i | i in w.actors :: w.actors[i].kind == CronBridgeRun.Direct || w.actors[i].kind.pass != pass
    ensures var w', job := CronBridgeRun.Apply(w, CronBridgeRun.NextJob(pass, id)), w.queues[pass][0];
            && w'.queues == w.queues[pass := w.queues[pass][1..]] && w'.spool == w.spool && w'.db == w.db
            && w'.actors == w.actors[id := CronBridgeRun.Actor(CronBridgeRun.Drained(job.attempts, pass), job.key, job.content, CronBridgeRun.Resolving(3))]
  {
  }

  /** A turn that is leased, a store that is busy or away: the delivery is put off. */
  lemma TriesEnd(w: CronBridgeRun.World, id: nat, busy: bool)
    requires Linked(w.db.sessions) && id in w.actors
    ensures w.actors[id].phase.Resolving? ==>
              CronBridgeRun.Apply(w, CronBridgeRun.Unavailable(id)) == w.(actors := w.actors[id := w.actors[id].(phase := CronBridgeRun.Acking(Retry))])
    ensures w.actors[id].phase.Writing? && (busy || (MeetsOpen(w.db, w.actors[id].phase.target, w.actors[id].key)
                                                     && w.db.sessions[w.actors[id].phase.target].leased)) ==>
              CronBridgeRun.Apply(w, CronBridgeRun.Write(id, busy)) == w.(actors := w.actors[id := w.actors[id].(phase := CronBridgeRun.Acking(Retry))])
  {
    if w.actors[id].phase.Writing? {
      WriteAnswers(w.db, w.actors[id].phase.target, w.actors[id].key, w.actors[id].content);
    }
  }
}
