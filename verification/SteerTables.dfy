/** The steer tables and the operations that change them in place. */
module SteerTables {
  import opened Basics
  import opened SteerStore

  class Tables {
    var runs: map<RunKey, RunRow>
    var steers: seq<Steer>
    var batches: map<BatchId, Batch>
    var purged: set<SteerId>

    ghost function View(): Store
      reads this
    {
      Store(runs, steers, batches, purged)
    }

    constructor ()
      ensures View() == EmptyStore
    {
      runs, steers, batches, purged := map[], [], map[], {};
    }

    /** The row of a key, if the key was ever used and not pruned. */
    method FindKey(id: SteerId) returns (r: Option<Steer>)
      ensures r == Find(steers, id)
    {
      for i := 0 to |steers|
        invariant Find(steers[..i], id) == None
      {
        assert steers[..i + 1][..i] == steers[..i];
        if steers[i].id == id {
          FirstFound(steers, id, i);
          return Some(steers[i]);
        }
      }
      assert steers[..|steers|] == steers;
      return None;
    }

    method Register(run: RunKey, original: Option<string>, resolved: Option<string>, epoch: Option<string>)
      modifies this`runs
      ensures View() == RegisterRun(old(View()), run, original, resolved, epoch)
    {
      if run in runs {
        var row := runs[run];
        if resolved.Some? {
          row := row.(resolvedSid := resolved);
        }
        if epoch.Some? {
          row := row.(epoch := epoch);
        }
        runs := runs[run := row];
      } else {
        runs := runs[run := RunRow(original, resolved, epoch, None, None, 1)];
      }
    }

    method Seal(run: RunKey, reason: string, now: real)
      modifies this`runs, this`steers
      ensures View() == SealRun(old(View()), run, reason, now)
    {
      var row := RunRow(None, None, None, Some(reason), Some(now), 1);
      if run in runs {
        row := runs[run];
        if row.closedReason.None? {
          row := row.(closedReason := Some(reason));
        }
        if row.closedAt.None? {
          row := row.(closedAt := Some(now));
        }
      }
      runs := runs[run := row];
      var updated: seq<Steer> := [];
      for i := 0 to |steers|
        invariant updated == Retire(steers, run, reason, now)[..i]
      {
        var steer := steers[i];
        if steer.id.run == run && steer.state == Accepted {
          steer := steer.(state := NotDelivered, error := Some(reason), updatedAt := now);
        }
        updated := updated + [steer];
      }
      steers := updated;
    }

    method Insert(id: SteerId, text: string, state: State, error: Option<string>, blank: RunRow, now: real) returns (steer: Steer)
      modifies this`runs, this`steers
      ensures (View(), steer) == Append(old(View()), id, text, state, error, blank, now)
    {
      var row := blank;
      if id.run in runs {
        row := runs[id.run];
      }
      steer := Steer(id, text, row.nextNumber, state, None, None, error, now);
      runs := runs[id.run := row.(nextNumber := row.nextNumber + 1)];
      steers := steers + [steer];
    }

    /** Durable admission in one transaction. */
    method Submit(id: SteerId, text: string, blank: RunRow, now: real) returns (v: Verdict)
      modifies this`runs, this`steers
      ensures (View(), v) == Admit(old(View()), id, text, blank, now)
    {
      if id in purged {
        return Expired;
      }
      var hit := FindKey(id);
      if hit.Some? {
        if hit.value.text != text {
          return Conflict(hit.value);
        }
        return Duplicate(hit.value);
      }
      if id.run in runs && runs[id.run].closedReason.Some? {
        return RunClosed;
      }
      var outstanding := 0;
      for i := 0 to |steers|
        invariant outstanding == Outstanding(steers[..i], id.run)
      {
        assert steers[..i + 1][..i] == steers[..i];
        if steers[i].id.run == id.run && (steers[i].state == Accepted || steers[i].state == Staged) {
          outstanding := outstanding + 1;
        }
      }
      assert steers[..|steers|] == steers;
      if outstanding >= OUTSTANDING_LIMIT {
        return QueueFull;
      }
      var steer := Insert(id, text, Accepted, None, blank, now);
      return Admitted(steer);
    }

    method Gate(id: SteerId) returns (g: Gate)
      ensures g == HandoffGate(View(), id)
    {
      if id in purged {
        return GateExpired;
      }
      if id.run in runs && runs[id.run].closedReason.Some? {
        return GateClosed;
      }
      return GateOpen;
    }

    method Record(id: SteerId, text: string, blank: RunRow, now: real) returns (steer: Steer)
      modifies this`runs, this`steers
      ensures (View(), steer) == RecordHandoff(old(View()), id, text, blank, now)
    {
      var hit := FindKey(id);
      if hit.Some? {
        return hit.value;
      }
      steer := Insert(id, text, OutcomeUnknown, Some(HANDOFF_ERROR), blank, now);
    }

    /** Claims every accepted steer of the run as one staged batch. */
    method ClaimAll(run: RunKey, batch: BatchId, now: real) returns (c: Claim)
      modifies this`steers, this`batches
      ensures (View(), c) == ClaimBatch(old(View()), run, batch, now)
    {
      if run !in runs || runs[run].closedReason.Some? {
        return Nothing;
      }
      var items: seq<Steer> := [];
      var updated: seq<Steer> := [];
      for i := 0 to |steers|
        invariant items == AcceptedOf(steers[..i], run)
        invariant updated == Stage(steers, run, batch, now)[..i]
      {
        assert steers[..i + 1][..i] == steers[..i];
        var steer := steers[i];
        if steer.id.run == run && steer.state == Accepted {
          items := items + [steer];
          steer := steer.(state := Staged, batch := Some(batch), updatedAt := now);
        }
        updated := updated + [steer];
      }
      assert steers[..|steers|] == steers;
      assert updated == Stage(steers, run, batch, now);
      if items == [] {
        return Nothing;
      }
      if batch in batches {
        return BatchIdTaken;
      }
      steers := updated;
      batches := batches[batch := Batch(run, IdsOf(items), Staged, None, now)];
      return Claimed(items);
    }

    method SettleRows(batch: BatchId, state: State, row: Option<RowId>, error: Option<string>, now: real)
      modifies this`steers
      ensures steers == Settle(old(steers), batch, state, row, error, now)
    {
      var updated: seq<Steer> := [];
      for i := 0 to |steers|
        invariant updated == Settle(steers, batch, state, row, error, now)[..i]
      {
        var steer := steers[i];
        if steer.batch == Some(batch) {
          steer := steer.(state := state, row := Coalesce(row, steer.row), error := error, updatedAt := now);
        }
        updated := updated + [steer];
      }
      steers := updated;
    }

    method Confirm(batch: BatchId, row: RowId, now: real)
      modifies this`steers, this`batches
      ensures View() == ConfirmBatch(old(View()), batch, row, now)
    {
      if batch !in batches || batches[batch].state == Delivered {
        return;
      }
      batches := batches[batch := batches[batch].(state := Delivered, row := Some(row))];
      SettleRows(batch, Delivered, Some(row), None, now);
    }

    method Doubt(batch: BatchId, reason: string, now: real)
      modifies this`steers, this`batches
      ensures View() == MarkUnknown(old(View()), batch, reason, now)
    {
      if batch !in batches || batches[batch].state == Delivered {
        return;
      }
      batches := batches[batch := batches[batch].(state := OutcomeUnknown)];
      SettleRows(batch, OutcomeUnknown, None, Some(reason), now);
    }

    /** Confirms the batches of the rows a flush committed; a row without an id proves nothing. */
    method ConfirmFlushed(rows: seq<(Option<BatchId>, Option<RowId>)>, now: real)
      modifies this`steers, this`batches
      ensures View() == ConfirmRows(old(View()), rows, now)
    {
      for i := 0 to |rows|
        invariant View() == ConfirmRows(old(View()), rows[..i], now)
      {
        assert rows[..i + 1][..i] == rows[..i];
        if rows[i].0.Some? && rows[i].0.value != "" && rows[i].1.Some? {
          Confirm(rows[i].0.value, rows[i].1.value, now);
        }
      }
      assert rows[..|rows|] == rows;
    }

    /** Forgets one run: a tombstone for every key, then the rows and the batches go. */
    method ForgetRun(run: RunKey)
      modifies this`steers, this`batches, this`purged
      ensures View() == Forget(old(View()), {run})
    {
      var rows := steers;
      var kept: seq<Steer> := [];
      for i := 0 to |rows|
        invariant purged == old(purged) + PurgedIds(rows[..i], {run})
        invariant kept == Kept(rows[..i], {run})
        invariant batches == old(batches)
      {
        assert rows[..i + 1][..i] == rows[..i];
        if rows[i].id.run == run {
          purged := purged + {rows[i].id};
        } else {
          kept := kept + [rows[i]];
        }
      }
      assert rows[..|rows|] == rows;
      steers := kept;
      batches := map b | b in batches && batches[b].run != run :: batches[b];
    }

    /** Prunes run by run every run that was closed long enough ago. */
    method PruneExpired(now: real)
      modifies this`steers, this`batches, this`purged
      ensures View() == Prune(old(View()), now)
    {
      var todo := set run | run in runs && Prunable(runs, run, now - RECEIPT_TTL);
      ghost var all := todo;
      ForgetNothing(View());
      assert all - todo == {};
      while todo != {}
        invariant todo <= all
        invariant View() == Forget(old(View()), all - todo)
        decreases |todo|
      {
        var run :| run in todo;
        ForgetOneMore(old(View()), all - todo, run);
        ForgetRun(run);
        assert all - (todo - {run}) == (all - todo) + {run};
        todo := todo - {run};
      }
      assert all - todo == all;
    }

    /**
     Restart recovery: seals the runs nobody is bound to any more, settles every staged batch by the
     committed history, prunes. `live` and `evidence` are what this process and SessionDB answer.
     */
    method RecoverAll(live: set<string>, evidence: map<BatchId, RowId>, now: real)
      modifies this
      ensures View() == Prune(Recover(old(View()), live, evidence, now), now)
    {
      SealStaleRuns(live, now);
      SettleStaged(evidence, now);
      PruneExpired(now);
    }

    method SealStaleRuns(live: set<string>, now: real)
      modifies this`runs, this`steers
      ensures View() == SealAll(old(View()), StaleRuns(old(View()), live), "restart_stale_epoch", now)
    {
      var todo := set i | 0 <= i < |steers| && steers[i].state == Accepted :: steers[i].id.run;
      ghost var start, all, done := View(), todo, {};
      assert SealAll(start, {}, "restart_stale_epoch", now) == start;
      while todo != {}
        invariant todo <= all
        invariant done == set run | run in all - todo && run.run !in live && !Sealed(start, run)
        invariant View() == SealAll(start, done, "restart_stale_epoch", now)
        decreases |todo|
      {
        var run :| run in todo;
        if run.run !in live && !(run in runs && runs[run].closedReason.Some?) {
          SealOneMore(start, done, run, "restart_stale_epoch", now);
          Seal(run, "restart_stale_epoch", now);
          done := done + {run};
        }
        todo := todo - {run};
      }
      assert done == StaleRuns(start, live);
    }

    method SettleStaged(evidence: map<BatchId, RowId>, now: real)
      modifies this`steers, this`batches
      ensures View() == SettleAll(old(View()), StagedBatches(old(View())), evidence, "restart_unconfirmed", now)
    {
      var todo := set b | b in batches && batches[b].state == Staged;
      ghost var start, all := View(), todo;
      assert SettleAll(start, {}, evidence, "restart_unconfirmed", now) == start;
      assert all - todo == {};
      while todo != {}
        invariant todo <= all
        invariant View() == SettleAll(start, all - todo, evidence, "restart_unconfirmed", now)
        decreases |todo|
      {
        var batch :| batch in todo;
        SettleOneMore(start, all - todo, batch, evidence, "restart_unconfirmed", now);
        if batch in evidence {
          Confirm(batch, evidence[batch], now);
        } else {
          Doubt(batch, "restart_unconfirmed", now);
        }
        assert all - (todo - {batch}) == (all - todo) + {batch};
        todo := todo - {batch};
      }
      assert all - todo == all;
    }
  }

  lemma SealOneMore(s: Store, gone: set<RunKey>, run: RunKey, reason: string, now: real)
    requires run !in gone
    ensures SealRun(SealAll(s, gone, reason, now), run, reason, now) == SealAll(s, gone + {run}, reason, now)
  {
    var before, after := SealAll(s, gone, reason, now), SealAll(s, gone + {run}, reason, now);
    assert RowOf(before, run) == RowOf(s, run);
    assert SealRun(before, run, reason, now).runs == after.runs;
    assert SealRun(before, run, reason, now).steers == after.steers;
  }

  lemma SettleOneMore(s: Store, done: set<BatchId>, batch: BatchId, evidence: map<BatchId, RowId>, reason: string, now: real)
    requires batch !in done && batch in s.batches && s.batches[batch].state == Staged
    ensures batch in evidence ==>
      ConfirmBatch(SettleAll(s, done, evidence, reason, now), batch, evidence[batch], now) == SettleAll(s, done + {batch}, evidence, reason, now)
    ensures batch !in evidence ==>
      MarkUnknown(SettleAll(s, done, evidence, reason, now), batch, reason, now) == SettleAll(s, done + {batch}, evidence, reason, now)
  {
    var before, after := SettleAll(s, done, evidence, reason, now), SettleAll(s, done + {batch}, evidence, reason, now);
    var settled := if batch in evidence then ConfirmBatch(before, batch, evidence[batch], now) else MarkUnknown(before, batch, reason, now);
    assert settled.batches == after.batches;
    assert settled.steers == after.steers;
  }

  function ConfirmRows(s: Store, rows: seq<(Option<BatchId>, Option<RowId>)>, now: real): Store {
    if rows == [] then s
    else
      var (batch, row) := rows[|rows| - 1];
      var s' := ConfirmRows(s, rows[..|rows| - 1], now);
      if batch.Some? && batch.value != "" && row.Some? then ConfirmBatch(s', batch.value, row.value, now) else s'
  }

  lemma {:induction false} FirstFound(steers: seq<Steer>, id: SteerId, i: nat)
    requires i < |steers| && Find(steers[..i], id) == None && steers[i].id == id
    ensures Find(steers, id) == Some(steers[i])
  {
    var front := steers[..|steers| - 1];
    if i < |front| {
      assert front[..i] == steers[..i];
      FirstFound(front, id, i);
    }
  }

  lemma {:induction false} KeptTwice(steers: seq<Steer>, gone: set<RunKey>, more: set<RunKey>)
    ensures Kept(Kept(steers, gone), more) == Kept(steers, gone + more)
    ensures PurgedIds(steers, gone + more) == PurgedIds(steers, gone) + PurgedIds(Kept(steers, gone), more)
  {
    if steers != [] {
      var front, last := steers[..|steers| - 1], steers[|steers| - 1];
      KeptTwice(front, gone, more);
      if last.id.run !in gone {
        var longer := Kept(front, gone) + [last];
        assert longer[..|longer| - 1] == Kept(front, gone) && longer[|longer| - 1] == last;
      }
    }
  }

  lemma {:induction false} KeptAll(steers: seq<Steer>)
    ensures Kept(steers, {}) == steers
  {
    if steers != [] {
      KeptAll(steers[..|steers| - 1]);
    }
  }

  lemma ForgetNothing(s: Store)
    ensures Forget(s, {}) == s
  {
    KeptAll(s.steers);
    NonePurged(s.steers);
  }

  lemma {:induction false} NonePurged(steers: seq<Steer>)
    ensures PurgedIds(steers, {}) == {}
  {
    if steers != [] {
      NonePurged(steers[..|steers| - 1]);
    }
  }

  /** Forgetting one more run is forgetting it from what is left. */
  lemma ForgetOneMore(s: Store, gone: set<RunKey>, run: RunKey)
    ensures Forget(s, gone + {run}) == Forget(Forget(s, gone), {run})
  {
    KeptTwice(s.steers, gone, {run});
  }
}
