/** What every steer operation keeps: numbering, the batch relation, the queue limit. */
module SteerProofs {
  import opened Basics
  import opened SteerStore

  // ---------------------------------------------------------------- the invariant

  /** The ids of the steers of a batch, in the order of their numbers. */
  function IdsIn(steers: seq<Steer>, batch: BatchId): (r: seq<SteerId>) {
    if steers == [] then []
    else if steers[|steers| - 1].batch == Some(batch) then IdsIn(steers[..|steers| - 1], batch) + [steers[|steers| - 1].id]
    else IdsIn(steers[..|steers| - 1], batch)
  }

  /** Keys are unique; numbers of a run grow in insertion order and stay below the next one. */
  ghost predicate Numbered(s: Store) {
    && (forall i | 0 <= i < |s.steers| :: s.steers[i].id.run in s.runs && 1 <= s.steers[i].number < s.runs[s.steers[i].id.run].nextNumber)
    && (forall i, j | 0 <= i < j < |s.steers| :: s.steers[i].id != s.steers[j].id)
    && (forall i, j | 0 <= i < j < |s.steers| && s.steers[i].id.run == s.steers[j].id.run :: s.steers[i].number < s.steers[j].number)
    && (forall run | run in s.runs :: 1 <= s.runs[run].nextNumber)
  }

  /** A sealed run has no accepted steer, and a pruned key has no row. */
  ghost predicate Quiet(s: Store) {
    forall i | 0 <= i < |s.steers| :: s.steers[i].id !in s.purged && (s.steers[i].state == Accepted ==> !Sealed(s, s.steers[i].id.run))
  }

  /** The steers that carry a batch id are exactly its ordered ids, and share its state and run. */
  ghost predicate Batched(s: Store) {
    && (forall i | 0 <= i < |s.steers| ::
          if s.steers[i].batch.Some? then
            && s.steers[i].batch.value in s.batches
            && s.batches[s.steers[i].batch.value].run == s.steers[i].id.run
            && s.batches[s.steers[i].batch.value].state == s.steers[i].state
          else s.steers[i].state == Accepted || s.steers[i].state == NotDelivered || s.steers[i].state == OutcomeUnknown)
    && (forall b | b in s.batches ::
          && (s.batches[b].state == Staged || s.batches[b].state == Delivered || s.batches[b].state == OutcomeUnknown)
          && s.batches[b].ordered == IdsIn(s.steers, b) && s.batches[b].ordered != [])
  }

  ghost predicate Bounded(s: Store) {
    forall run: RunKey :: Outstanding(s.steers, run) <= OUTSTANDING_LIMIT
  }

  ghost predicate Valid(s: Store) {
    Numbered(s) && Quiet(s) && Batched(s) && Bounded(s)
  }

  // ---------------------------------------------------------------- sequence facts

  lemma {:induction false} IdsInSame(steers: seq<Steer>, steers': seq<Steer>, batch: BatchId)
    requires |steers| == |steers'|
    requires forall i | 0 <= i < |steers| :: steers'[i].id == steers[i].id && (steers'[i].batch == Some(batch) <==> steers[i].batch == Some(batch))
    ensures IdsIn(steers', batch) == IdsIn(steers, batch)
  {
    if steers != [] {
      IdsInSame(steers[..|steers| - 1], steers'[..|steers'| - 1], batch);
    }
  }

  lemma {:induction false} IdsInNone(steers: seq<Steer>, batch: BatchId)
    requires forall i | 0 <= i < |steers| :: steers[i].batch != Some(batch)
    ensures IdsIn(steers, batch) == []
  {
    if steers != [] {
      IdsInNone(steers[..|steers| - 1], batch);
    }
  }

  lemma IdsInAppend(steers: seq<Steer>, last: Steer, batch: BatchId)
    ensures IdsIn(steers + [last], batch) == if last.batch == Some(batch) then IdsIn(steers, batch) + [last.id] else IdsIn(steers, batch)
  {
    assert (steers + [last])[..|steers|] == steers;
  }

  lemma {:induction false} IdsInMember(steers: seq<Steer>, batch: BatchId, i: nat)
    requires i < |steers| && steers[i].batch == Some(batch)
    ensures steers[i].id in IdsIn(steers, batch)
  {
    if i < |steers| - 1 {
      IdsInMember(steers[..|steers| - 1], batch, i);
    }
  }

  lemma {:induction false} StagedIds(steers: seq<Steer>, run: RunKey, batch: BatchId, now: real)
    requires forall i | 0 <= i < |steers| :: steers[i].batch != Some(batch)
    ensures IdsIn(Stage(steers, run, batch, now), batch) == IdsOf(AcceptedOf(steers, run))
  {
    if steers != [] {
      var front := steers[..|steers| - 1];
      StagedIds(front, run, batch, now);
      assert Stage(steers, run, batch, now)[..|steers| - 1] == Stage(front, run, batch, now);
    }
  }

  predicate Open(s: Steer) {
    s.state == Accepted || s.state == Staged
  }

  lemma {:induction false} OutstandingShrinks(steers: seq<Steer>, steers': seq<Steer>, run: RunKey)
    requires |steers| == |steers'|
    requires forall i | 0 <= i < |steers| :: steers'[i].id == steers[i].id && (Open(steers'[i]) ==> Open(steers[i]))
    ensures Outstanding(steers', run) <= Outstanding(steers, run)
  {
    if steers != [] {
      OutstandingShrinks(steers[..|steers| - 1], steers'[..|steers'| - 1], run);
    }
  }

  lemma OutstandingAppend(steers: seq<Steer>, last: Steer, run: RunKey)
    ensures Outstanding(steers + [last], run)
         == Outstanding(steers, run) + (if last.id.run == run && (last.state == Accepted || last.state == Staged) then 1 else 0)
  {
    assert (steers + [last])[..|steers|] == steers;
  }

  lemma {:induction false} OutstandingKept(steers: seq<Steer>, gone: set<RunKey>, run: RunKey)
    ensures Outstanding(Kept(steers, gone), run) <= Outstanding(steers, run)
  {
    if steers != [] {
      var front, last := steers[..|steers| - 1], steers[|steers| - 1];
      OutstandingKept(front, gone, run);
      if last.id.run !in gone {
        OutstandingAppend(Kept(front, gone), last, run);
      }
    }
  }

  /** Kept rows keep their order. */
  lemma {:induction false} KeptOne(steers: seq<Steer>, gone: set<RunKey>, i: nat) returns (a: nat)
    requires i < |Kept(steers, gone)|
    ensures a < |steers| && steers[a] == Kept(steers, gone)[i] && steers[a].id.run !in gone
  {
    var front := steers[..|steers| - 1];
    if i < |Kept(front, gone)| {
      a := KeptOne(front, gone, i);
    } else {
      a := |steers| - 1;
    }
  }

  lemma {:induction false} KeptPair(steers: seq<Steer>, gone: set<RunKey>, i: nat, j: nat) returns (a: nat, b: nat)
    requires i < j < |Kept(steers, gone)|
    ensures a < b < |steers| && steers[a] == Kept(steers, gone)[i] && steers[b] == Kept(steers, gone)[j]
  {
    var front := steers[..|steers| - 1];
    if j < |Kept(front, gone)| {
      a, b := KeptPair(front, gone, i, j);
    } else {
      a := KeptOne(front, gone, i);
      b := |steers| - 1;
    }
  }

  lemma {:induction false} IdsInKept(steers: seq<Steer>, gone: set<RunKey>, batch: BatchId)
    requires forall i | 0 <= i < |steers| && steers[i].batch == Some(batch) :: steers[i].id.run !in gone
    ensures IdsIn(Kept(steers, gone), batch) == IdsIn(steers, batch)
  {
    if steers != [] {
      var front, last := steers[..|steers| - 1], steers[|steers| - 1];
      IdsInKept(front, gone, batch);
      if last.id.run !in gone {
        IdsInAppend(Kept(front, gone), last, batch);
      }
    }
  }

  lemma {:induction false} PurgedMembers(steers: seq<Steer>, gone: set<RunKey>)
    ensures forall id | id in PurgedIds(steers, gone) :: id.run in gone && exists i :: 0 <= i < |steers| && steers[i].id == id
    ensures forall i | 0 <= i < |steers| && steers[i].id.run in gone :: steers[i].id in PurgedIds(steers, gone)
  {
    if steers != [] {
      var front := steers[..|steers| - 1];
      PurgedMembers(front, gone);
      forall id | id in PurgedIds(steers, gone)
        ensures id.run in gone && exists i :: 0 <= i < |steers| && steers[i].id == id
      {
        if id in PurgedIds(front, gone) {
          var i :| 0 <= i < |front| && front[i].id == id;
          assert steers[i].id == id;
        } else {
          assert steers[|steers| - 1].id == id;
        }
      }
    }
  }

  lemma {:induction false} AcceptedMembers(steers: seq<Steer>, run: RunKey)
    ensures forall x | x in AcceptedOf(steers, run) :: x in steers && Waiting(x, run)
    ensures forall i | 0 <= i < |steers| && Waiting(steers[i], run) :: steers[i] in AcceptedOf(steers, run)
  {
    if steers != [] {
      AcceptedMembers(steers[..|steers| - 1], run);
      assert steers == steers[..|steers| - 1] + [steers[|steers| - 1]];
    }
  }

  // ---------------------------------------------------------------- retiring: accepted rows end as not delivered

  /** Some accepted steers become not delivered, runs may close, nothing else changes. */
  ghost predicate Retires(s: Store, s': Store) {
    && |s'.steers| == |s.steers| && s'.batches == s.batches && s'.purged == s.purged
    && (forall i | 0 <= i < |s.steers| ::
          s'.steers[i] == s.steers[i]
          || (s.steers[i].state == Accepted && s'.steers[i] == s.steers[i].(state := NotDelivered, error := s'.steers[i].error, updatedAt := s'.steers[i].updatedAt)))
    && s.runs.Keys <= s'.runs.Keys
    && (forall run | run in s'.runs :: s'.runs[run].nextNumber == if run in s.runs then s.runs[run].nextNumber else 1)
    && (forall i | 0 <= i < |s.steers| && s'.steers[i].state == Accepted :: !Sealed(s', s'.steers[i].id.run))
  }

  lemma BoundedShrinks(s: Store, s': Store)
    requires Bounded(s) && |s'.steers| == |s.steers|
    requires forall i | 0 <= i < |s.steers| :: s'.steers[i].id == s.steers[i].id && (Open(s'.steers[i]) ==> Open(s.steers[i]))
    ensures Bounded(s')
  {
    forall run: RunKey
      ensures Outstanding(s'.steers, run) <= OUTSTANDING_LIMIT
    {
      OutstandingShrinks(s.steers, s'.steers, run);
    }
  }

  lemma RetiresKeepsBatched(s: Store, s': Store)
    requires Batched(s) && Retires(s, s')
    ensures Batched(s')
  {
    forall b | b in s'.batches
      ensures IdsIn(s'.steers, b) == IdsIn(s.steers, b)
    {
      IdsInSame(s.steers, s'.steers, b);
    }
  }

  lemma RetiresKeepsNumbered(s: Store, s': Store)
    requires Numbered(s) && Retires(s, s')
    ensures Numbered(s')
  {
  }

  lemma RetiresKeepsValid(s: Store, s': Store)
    requires Valid(s) && Retires(s, s')
    ensures Valid(s')
  {
    RetiresKeepsNumbered(s, s');
    RetiresKeepsBatched(s, s');
    BoundedShrinks(s, s');
    assert Quiet(s');
  }

  lemma SealRetires(s: Store, run: RunKey, reason: string, now: real)
    requires Valid(s)
    ensures Retires(s, SealRun(s, run, reason, now))
  {
  }

  lemma SealAllRetires(s: Store, gone: set<RunKey>, reason: string, now: real)
    requires Valid(s)
    ensures Retires(s, SealAll(s, gone, reason, now))
  {
  }

  // ---------------------------------------------------------------- settling: whole batches change state

  /** Batches move on from staged, their steers with them; a delivered batch stays. */
  ghost predicate Settles(s: Store, s': Store) {
    && s'.runs == s.runs && s'.purged == s.purged && |s'.steers| == |s.steers|
    && s'.batches.Keys == s.batches.Keys
    && (forall b | b in s.batches ::
          && s'.batches[b].run == s.batches[b].run && s'.batches[b].ordered == s.batches[b].ordered
          && (s'.batches[b].state == s.batches[b].state || s'.batches[b].state == Delivered || s'.batches[b].state == OutcomeUnknown)
          && (s.batches[b].state == Delivered ==> s'.batches[b].state == Delivered))
    && (forall i | 0 <= i < |s.steers| ::
          && s'.steers[i].id == s.steers[i].id && s'.steers[i].number == s.steers[i].number && s'.steers[i].text == s.steers[i].text
          && s'.steers[i].batch == s.steers[i].batch
          && (s.steers[i].batch.None? ==> s'.steers[i] == s.steers[i])
          && (s.steers[i].batch.Some? && s.steers[i].batch.value in s.batches ==> s'.steers[i].state == s'.batches[s.steers[i].batch.value].state)
          && (s.steers[i].state == Delivered ==> s'.steers[i] == s.steers[i]))
  }

  lemma SettlesKeepsBatched(s: Store, s': Store)
    requires Batched(s) && Settles(s, s')
    ensures Batched(s')
  {
    forall b | b in s'.batches
      ensures IdsIn(s'.steers, b) == IdsIn(s.steers, b)
    {
      IdsInSame(s.steers, s'.steers, b);
    }
  }

  lemma SettlesKeepsValid(s: Store, s': Store)
    requires Valid(s) && Settles(s, s')
    ensures Valid(s')
  {
    SettlesKeepsBatched(s, s');
    BoundedShrinks(s, s');
    assert Numbered(s');
    assert Quiet(s');
  }

  lemma ConfirmSettles(s: Store, batch: BatchId, row: RowId, now: real)
    requires Batched(s)
    ensures Settles(s, ConfirmBatch(s, batch, row, now))
  {
  }

  lemma MarkUnknownSettles(s: Store, batch: BatchId, reason: string, now: real)
    requires Batched(s)
    ensures Settles(s, MarkUnknown(s, batch, reason, now))
  {
  }

  lemma SettleAllSettles(s: Store, evidence: map<BatchId, RowId>, reason: string, now: real)
    requires Batched(s)
    ensures Settles(s, SettleAll(s, StagedBatches(s), evidence, reason, now))
  {
  }

  // ---------------------------------------------------------------- appending, claiming, forgetting

  lemma AppendKeepsBatched(s: Store, steer: Steer, runs: map<RunKey, RunRow>)
    requires Batched(s) && steer.batch.None? && (steer.state == Accepted || steer.state == OutcomeUnknown)
    ensures Batched(s.(runs := runs, steers := s.steers + [steer]))
  {
    var s' := s.(runs := runs, steers := s.steers + [steer]);
    forall b | b in s'.batches
      ensures IdsIn(s'.steers, b) == IdsIn(s.steers, b)
    {
      IdsInAppend(s.steers, steer, b);
    }
  }

  lemma AppendKeepsBounded(s: Store, steer: Steer, runs: map<RunKey, RunRow>)
    requires Bounded(s) && (Open(steer) ==> Outstanding(s.steers, steer.id.run) < OUTSTANDING_LIMIT)
    ensures Bounded(s.(runs := runs, steers := s.steers + [steer]))
  {
    forall run: RunKey
      ensures Outstanding(s.steers + [steer], run) <= OUTSTANDING_LIMIT
    {
      OutstandingAppend(s.steers, steer, run);
    }
  }

  lemma AppendKeepsNumbered(s: Store, id: SteerId, text: string, state: State, error: Option<string>, blank: RunRow, now: real)
    requires Numbered(s) && Find(s.steers, id).None? && blank.nextNumber == 1
    ensures Numbered(Append(s, id, text, state, error, blank, now).0)
  {
  }

  lemma AppendKeepsQuiet(s: Store, id: SteerId, text: string, state: State, error: Option<string>, blank: RunRow, now: real)
    requires Numbered(s) && Quiet(s) && id !in s.purged && (state == Accepted ==> !Sealed(s, id.run) && blank.closedReason.None?)
    ensures Quiet(Append(s, id, text, state, error, blank, now).0)
  {
  }

  lemma AppendKeepsValid(s: Store, id: SteerId, text: string, state: State, error: Option<string>, blank: RunRow, now: real)
    requires Valid(s) && id !in s.purged && Find(s.steers, id).None? && blank.nextNumber == 1
    requires state == OutcomeUnknown || (state == Accepted && !Sealed(s, id.run) && blank.closedReason.None?
                                         && Outstanding(s.steers, id.run) < OUTSTANDING_LIMIT)
    ensures Valid(Append(s, id, text, state, error, blank, now).0)
  {
    var (s', steer) := Append(s, id, text, state, error, blank, now);
    AppendKeepsBatched(s, steer, s'.runs);
    AppendKeepsBounded(s, steer, s'.runs);
    AppendKeepsNumbered(s, id, text, state, error, blank, now);
    AppendKeepsQuiet(s, id, text, state, error, blank, now);
  }

  lemma NewBatchHasNoSteers(s: Store, batch: BatchId)
    requires Batched(s) && batch !in s.batches
    ensures forall i | 0 <= i < |s.steers| :: s.steers[i].batch != Some(batch)
  {
  }

  lemma ClaimKeepsBatched(s: Store, run: RunKey, batch: BatchId, now: real)
    requires Batched(s)
    ensures Batched(ClaimBatch(s, run, batch, now).0)
  {
    var (s', c) := ClaimBatch(s, run, batch, now);
    if c.Claimed? {
      NewBatchHasNoSteers(s, batch);
      StagedIds(s.steers, run, batch, now);
      forall b | b in s.batches
        ensures IdsIn(s'.steers, b) == IdsIn(s.steers, b)
      {
        IdsInSame(s.steers, s'.steers, b);
      }
    }
  }

  lemma ClaimKeepsValid(s: Store, run: RunKey, batch: BatchId, now: real)
    requires Valid(s)
    ensures Valid(ClaimBatch(s, run, batch, now).0)
  {
    var (s', c) := ClaimBatch(s, run, batch, now);
    ClaimKeepsBatched(s, run, batch, now);
    BoundedShrinks(s, s');
    assert Numbered(s');
    assert Quiet(s');
  }

  lemma ForgetKeepsValid(s: Store, gone: set<RunKey>)
    requires Valid(s)
    ensures Valid(Forget(s, gone))
  {
    var s' := Forget(s, gone);
    ForgetKeepsNumbered(s, gone);
    PurgedMembers(s.steers, gone);
    forall i | 0 <= i < |s'.steers|
      ensures s'.steers[i] in s.steers && s'.steers[i].id.run !in gone
    {
      var a := KeptOne(s.steers, gone, i);
    }
    forall b | b in s'.batches
      ensures IdsIn(s'.steers, b) == IdsIn(s.steers, b)
    {
      IdsInKept(s.steers, gone, b);
    }
    forall run: RunKey
      ensures Outstanding(s'.steers, run) <= OUTSTANDING_LIMIT
    {
      OutstandingKept(s.steers, gone, run);
    }
  }

  lemma ForgetKeepsNumbered(s: Store, gone: set<RunKey>)
    requires Numbered(s)
    ensures Numbered(Forget(s, gone))
  {
    var kept := Kept(s.steers, gone);
    forall i | 0 <= i < |kept|
      ensures kept[i].id.run in s.runs && 1 <= kept[i].number < s.runs[kept[i].id.run].nextNumber
    {
      var a := KeptOne(s.steers, gone, i);
    }
    forall i, j | 0 <= i < j < |kept|
      ensures kept[i].id != kept[j].id && (kept[i].id.run == kept[j].id.run ==> kept[i].number < kept[j].number)
    {
      var a, b := KeptPair(s.steers, gone, i, j);
    }
  }

  lemma RegisterKeepsValid(s: Store, run: RunKey, original: Option<string>, resolved: Option<string>, epoch: Option<string>)
    requires Valid(s)
    ensures Valid(RegisterRun(s, run, original, resolved, epoch))
  {
  }

  // ---------------------------------------------------------------- recovery

  lemma RecoverKeepsValid(s: Store, live: set<string>, evidence: map<BatchId, RowId>, now: real)
    requires Valid(s)
    ensures Valid(Recover(s, live, evidence, now))
  {
    var closed := SealAll(s, StaleRuns(s, live), "restart_stale_epoch", now);
    SealAllRetires(s, StaleRuns(s, live), "restart_stale_epoch", now);
    RetiresKeepsValid(s, closed);
    SettleAllSettles(closed, evidence, "restart_unconfirmed", now);
    SettlesKeepsValid(closed, SettleAll(closed, StagedBatches(closed), evidence, "restart_unconfirmed", now));
  }

  /** What becomes of one row: `before` in the store as it crashed, `after` in the recovered one. */
  ghost predicate Repaired(before: Steer, after: Steer, closed: bool, live: set<string>, evidence: map<BatchId, RowId>) {
    && after.id == before.id && after.number == before.number && after.text == before.text && after.batch == before.batch
    && (before.state == Accepted ==>
          if before.id.run.run in live then after == before else after.state == NotDelivered && closed)
    && (before.state == Staged ==>
          before.batch.Some? &&
          if before.batch.value in evidence
          then after.state == Delivered && after.row == Some(evidence[before.batch.value])
          else after.state == OutcomeUnknown)
    && (before.state != Accepted && before.state != Staged ==> after == before)
  }

  lemma StaleRunsAre(s: Store, live: set<string>)
    requires Quiet(s)
    ensures forall i | 0 <= i < |s.steers| && s.steers[i].state == Accepted ::
              s.steers[i].id.run in StaleRuns(s, live) <==> s.steers[i].id.run.run !in live
  {
  }

  lemma SettledRows(s: Store, evidence: map<BatchId, RowId>, reason: string, now: real, i: nat)
    requires Batched(s) && i < |s.steers|
    ensures var after := SettleAll(s, StagedBatches(s), evidence, reason, now).steers[i];
            && after.id == s.steers[i].id && after.number == s.steers[i].number && after.text == s.steers[i].text && after.batch == s.steers[i].batch
            && (s.steers[i].state != Staged ==> after == s.steers[i])
            && (s.steers[i].state == Staged ==>
                  s.steers[i].batch.Some? &&
                  if s.steers[i].batch.value in evidence
                  then after.state == Delivered && after.row == Some(evidence[s.steers[i].batch.value])
                  else after.state == OutcomeUnknown)
  {
  }

  /**
   From any reachable store, a recovery leaves no staged batch; an accepted steer stays only in a live
   run and otherwise ends as not delivered in a sealed one; a staged steer is delivered exactly when
   the committed history carries its batch; every other row, the delivered ones included, is untouched.
   */
  lemma RecoverRepairs(s: Store, live: set<string>, evidence: map<BatchId, RowId>, now: real)
    requires Valid(s)
    ensures var s' := Recover(s, live, evidence, now);
            && |s'.steers| == |s.steers|
            && (forall b | b in s'.batches :: s'.batches[b].state != Staged)
            && (forall i | 0 <= i < |s.steers| :: Repaired(s.steers[i], s'.steers[i], Sealed(s', s.steers[i].id.run), live, evidence))
  {
    var gone := StaleRuns(s, live);
    var closed := SealAll(s, gone, "restart_stale_epoch", now);
    SealAllRetires(s, gone, "restart_stale_epoch", now);
    RetiresKeepsBatched(s, closed);
    StaleRunsAre(s, live);
    var s' := Recover(s, live, evidence, now);
    forall i | 0 <= i < |s.steers|
      ensures Repaired(s.steers[i], s'.steers[i], Sealed(s', s.steers[i].id.run), live, evidence)
    {
      SettledRows(closed, evidence, "restart_unconfirmed", now, i);
    }
  }
}
