/** Whole runs of the steer inbox: admissions, handoffs, claims, seals, flushes, restarts and pruning in any order. */
module SteerRun {
  import opened Basics
  import opened SteerStore
  import opened SteerProofs

  /** What a key got when it was first taken. */
  datatype Ticket = Ticket(number: nat, text: string)

  /** History beside the store: every key ever taken, every number ever claimed, every committed row. */
  datatype World = World(store: Store, tickets: map<SteerId, Ticket>, claimed: map<RunKey, seq<nat>>, history: set<(RowId, BatchId)>)

  const Start := World(EmptyStore, map[], map[], {})

  datatype Event =
    | Register(run: RunKey, original: Option<string>, resolved: Option<string>, epoch: Option<string>)
    | Submit(id: SteerId, text: string, sid: Option<string>, epoch: Option<string>, now: real)
    | Handoff(id: SteerId, text: string, original: Option<string>, resolved: Option<string>, epoch: Option<string>, now: real)
    | SealEvent(run: RunKey, reason: string, now: real)
    | Claim(run: RunKey, batch: BatchId, now: real)
    | CommitRow(row: RowId, batch: BatchId)
    | Confirm(row: RowId, batch: BatchId, now: real)
    | Doubt(batch: BatchId, reason: string, now: real)
    | Restart(live: set<string>, evidence: map<BatchId, RowId>, now: real)
    | PruneEvent(now: real)

  function Numbers(items: seq<Steer>): (r: seq<nat>)
    ensures |r| == |items| && forall i | 0 <= i < |r| :: r[i] == items[i].number
  {
    seq(|items|, i requires 0 <= i < |items| => items[i].number)
  }

  function ClaimedOf(claimed: map<RunKey, seq<nat>>, run: RunKey): seq<nat> {
    if run in claimed then claimed[run] else []
  }

  /** A confirmation needs a committed row that carries the batch id, and so does every piece of evidence. */
  function Apply(w: World, e: Event): World {
    match e
    case Register(run, original, resolved, epoch) => w.(store := RegisterRun(w.store, run, original, resolved, epoch))
    case Submit(id, text, sid, epoch, now) =>
      var (s, v) := Admit(w.store, id, text, NewRow(sid, sid, epoch), now);
      if v.Admitted? then w.(store := s, tickets := w.tickets[id := Ticket(v.steer.number, text)]) else w.(store := s)
    case Handoff(id, text, original, resolved, epoch, now) =>
      if HandoffGate(w.store, id) != GateOpen then w
      else
        var (s, steer) := RecordHandoff(w.store, id, text, NewRow(original, resolved, epoch), now);
        if Find(w.store.steers, id).None? then w.(store := s, tickets := w.tickets[id := Ticket(steer.number, text)]) else w.(store := s)
    case SealEvent(run, reason, now) => w.(store := SealRun(w.store, run, reason, now))
    case Claim(run, batch, now) =>
      var (s, c) := ClaimBatch(w.store, run, batch, now);
      if c.Claimed? then w.(store := s, claimed := w.claimed[run := ClaimedOf(w.claimed, run) + Numbers(c.items)]) else w.(store := s)
    case CommitRow(row, batch) => w.(history := w.history + {(row, batch)})
    case Confirm(row, batch, now) => if (row, batch) in w.history then w.(store := ConfirmBatch(w.store, batch, row, now)) else w
    case Doubt(batch, reason, now) => w.(store := MarkUnknown(w.store, batch, reason, now))
    case Restart(live, evidence, now) =>
      if forall b | b in evidence :: (evidence[b], b) in w.history
      then w.(store := Prune(Recover(w.store, live, evidence, now), now)) else w
    case PruneEvent(now) => w.(store := Prune(w.store, now))
  }

  function Run(es: seq<Event>): (w: World) {
    if es == [] then Start else Apply(Run(es[..|es| - 1]), es[|es| - 1])
  }

  // ---------------------------------------------------------------- the invariants

  /** A steer ends as not delivered only by the seal of its run. */
  ghost predicate RetiredBySeal(s: Store) {
    forall i | 0 <= i < |s.steers| && s.steers[i].state == NotDelivered :: Sealed(s, s.steers[i].id.run)
  }

  /** Rows remember their tickets; a ticket without a row left a tombstone. */
  ghost predicate TicketsKept(s: Store, tickets: map<SteerId, Ticket>) {
    && (forall i | 0 <= i < |s.steers| ::
          s.steers[i].id in tickets && tickets[s.steers[i].id] == Ticket(s.steers[i].number, s.steers[i].text))
    && (forall id | id in tickets :: id in s.purged || exists i :: 0 <= i < |s.steers| && s.steers[i].id == id)
    && (forall id | id in s.purged :: id in tickets)
  }

  ghost predicate Increasing(c: seq<nat>) {
    forall i, j | 0 <= i < j < |c| :: c[i] < c[j]
  }

  /** A steer handed to the core is never queued here; every other steer is claimed in its turn. */
  predicate HandedOff(s: Steer) {
    s.batch.None? && s.state == OutcomeUnknown
  }

  ghost predicate ClaimsGrow(runs: map<RunKey, RunRow>, claimed: map<RunKey, seq<nat>>) {
    forall run | run in claimed :: Increasing(claimed[run]) && run in runs
      && forall n | n in claimed[run] :: n < runs[run].nextNumber
  }

  ghost predicate Unclaimed(steers: seq<Steer>, claimed: map<RunKey, seq<nat>>) {
    forall i, n | 0 <= i < |steers| && steers[i].batch.None? && !HandedOff(steers[i])
                  && n in ClaimedOf(claimed, steers[i].id.run) :: n < steers[i].number
  }

  ghost predicate InTurn(s: Store, claimed: map<RunKey, seq<nat>>) {
    && ClaimsGrow(s.runs, claimed)
    && (forall i | 0 <= i < |s.steers| && s.steers[i].batch.Some? :: s.steers[i].number in ClaimedOf(claimed, s.steers[i].id.run))
    && Unclaimed(s.steers, claimed)
  }

  /** A delivered steer names the committed row that carries its batch. */
  ghost predicate Evidenced(s: Store, history: set<(RowId, BatchId)>) {
    forall i | 0 <= i < |s.steers| && s.steers[i].state == Delivered ::
      s.steers[i].batch.Some? && s.steers[i].row.Some? && (s.steers[i].row.value, s.steers[i].batch.value) in history
  }

  ghost predicate Inv(w: World) {
    && Valid(w.store) && RetiredBySeal(w.store) && TicketsKept(w.store, w.tickets)
    && InTurn(w.store, w.claimed) && Evidenced(w.store, w.history)
  }

  // ---------------------------------------------------------------- kept by every kind of step

  /** `s'` keeps the rows of `s` up to state, batch and bookkeeping columns. */
  ghost predicate SameRows(s: Store, s': Store) {
    && |s'.steers| == |s.steers| && s'.purged == s.purged
    && forall i | 0 <= i < |s.steers| ::
         s'.steers[i].id == s.steers[i].id && s'.steers[i].number == s.steers[i].number && s'.steers[i].text == s.steers[i].text
  }

  lemma SameRowsKeepTickets(s: Store, s': Store, tickets: map<SteerId, Ticket>)
    requires TicketsKept(s, tickets) && SameRows(s, s')
    ensures TicketsKept(s', tickets)
  {
    forall id | id in tickets && id !in s.purged
      ensures exists i :: 0 <= i < |s'.steers| && s'.steers[i].id == id
    {
      var i :| 0 <= i < |s.steers| && s.steers[i].id == id;
      assert s'.steers[i].id == id;
    }
  }

  lemma RetiresKeepsEvidence(s: Store, s': Store, history: set<(RowId, BatchId)>)
    requires Evidenced(s, history) && Retires(s, s')
    ensures Evidenced(s', history)
  {
  }

  lemma RetiresKeepsRest(s: Store, s': Store, w: World)
    requires w.store == s && Inv(w) && Retires(s, s')
    requires forall i | 0 <= i < |s.steers| && s'.steers[i].state == NotDelivered :: Sealed(s', s'.steers[i].id.run)
    ensures Inv(w.(store := s'))
  {
    RetiresKeepsValid(s, s');
    SameRowsKeepTickets(s, s', w.tickets);
    RetiresKeepsTurn(s, s', w.claimed);
    RetiresKeepsEvidence(s, s', w.history);
    assert RetiredBySeal(s');
  }

  lemma RetiresKeepsTurn(s: Store, s': Store, claimed: map<RunKey, seq<nat>>)
    requires InTurn(s, claimed) && Retires(s, s')
    ensures InTurn(s', claimed)
  {
    forall i, n | 0 <= i < |s'.steers| && s'.steers[i].batch.None? && !HandedOff(s'.steers[i]) && n in ClaimedOf(claimed, s'.steers[i].id.run)
      ensures n < s'.steers[i].number
    {
      assert s.steers[i].batch.None? && !HandedOff(s.steers[i]);
    }
  }

  lemma SettlesKeepsRest(s: Store, s': Store, w: World)
    requires w.store == s && Inv(w) && Settles(s, s') && Evidenced(s', w.history)
    ensures Inv(w.(store := s'))
  {
    SettlesKeepsValid(s, s');
    SameRowsKeepTickets(s, s', w.tickets);
    SettlesKeepsTurn(s, s', w.claimed);
    SettlesKeepsRetired(s, s');
  }

  lemma SettlesKeepsTurn(s: Store, s': Store, claimed: map<RunKey, seq<nat>>)
    requires InTurn(s, claimed) && Settles(s, s')
    ensures InTurn(s', claimed)
  {
  }

  lemma SettlesKeepsRetired(s: Store, s': Store)
    requires RetiredBySeal(s) && Batched(s) && Batched(s') && Settles(s, s')
    ensures RetiredBySeal(s')
  {
  }

  lemma AppendKeepsRest(w: World, id: SteerId, text: string, state: State, error: Option<string>, blank: RunRow, now: real)
    requires Inv(w) && id !in w.store.purged && Find(w.store.steers, id).None? && blank == NewRow(blank.originalSid, blank.resolvedSid, blank.epoch)
    requires state == OutcomeUnknown || (state == Accepted && !Sealed(w.store, id.run) && Outstanding(w.store.steers, id.run) < OUTSTANDING_LIMIT)
    ensures var (s', steer) := Append(w.store, id, text, state, error, blank, now);
            Inv(w.(store := s', tickets := w.tickets[id := Ticket(steer.number, text)]))
  {
    var (s', steer) := Append(w.store, id, text, state, error, blank, now);
    AppendKeepsValid(w.store, id, text, state, error, blank, now);
    AppendKeepsTickets(w.store, s', steer, w.tickets);
    AppendKeepsTurn(w.store, s', steer, w.claimed);
    AppendKeepsMarks(w.store, s', steer, w.history);
  }

  lemma AppendKeepsMarks(s: Store, s': Store, steer: Steer, history: set<(RowId, BatchId)>)
    requires RetiredBySeal(s) && Evidenced(s, history) && s'.steers == s.steers + [steer]
    requires steer.state == Accepted || steer.state == OutcomeUnknown
    requires forall run | Sealed(s, run) :: Sealed(s', run)
    ensures RetiredBySeal(s') && Evidenced(s', history)
  {
  }

  lemma AppendKeepsTickets(s: Store, s': Store, steer: Steer, tickets: map<SteerId, Ticket>)
    requires TicketsKept(s, tickets) && s'.steers == s.steers + [steer] && s'.purged == s.purged
    requires steer.id !in s.purged && forall i | 0 <= i < |s.steers| :: s.steers[i].id != steer.id
    ensures TicketsKept(s', tickets[steer.id := Ticket(steer.number, steer.text)])
  {
    var tickets' := tickets[steer.id := Ticket(steer.number, steer.text)];
    forall id | id in tickets' && id !in s'.purged
      ensures exists i :: 0 <= i < |s'.steers| && s'.steers[i].id == id
    {
      if id == steer.id {
        assert s'.steers[|s.steers|].id == id;
      } else {
        var i :| 0 <= i < |s.steers| && s.steers[i].id == id;
        assert s'.steers[i].id == id;
      }
    }
  }

  lemma AppendKeepsTurn(s: Store, s': Store, steer: Steer, claimed: map<RunKey, seq<nat>>)
    requires InTurn(s, claimed) && s'.steers == s.steers + [steer] && steer.batch.None?
    requires s.runs.Keys <= s'.runs.Keys && forall run | run in s.runs :: s.runs[run].nextNumber <= s'.runs[run].nextNumber
    requires steer.id.run in s.runs ==> steer.number == s.runs[steer.id.run].nextNumber
    ensures InTurn(s', claimed)
  {
    forall n | n in ClaimedOf(claimed, steer.id.run)
      ensures n < steer.number
    {
      assert steer.id.run in claimed;
    }
  }

  /** A claim takes every accepted steer of its run, oldest first, all younger than what was claimed before. */
  lemma {:induction false} ClaimInOrder(steers: seq<Steer>, run: RunKey)
    requires forall i, j | 0 <= i < j < |steers| && steers[i].id.run == steers[j].id.run :: steers[i].number < steers[j].number
    ensures Increasing(Numbers(AcceptedOf(steers, run)))
  {
    if steers != [] {
      var front, last := steers[..|steers| - 1], steers[|steers| - 1];
      ClaimInOrder(front, run);
      AcceptedMembers(front, run);
      forall k | 0 <= k < |AcceptedOf(front, run)| && last.id.run == run
        ensures AcceptedOf(front, run)[k].number < last.number
      {
        assert AcceptedOf(front, run)[k] in front;
        var i :| 0 <= i < |front| && front[i] == AcceptedOf(front, run)[k];
        assert steers[i].number < steers[|front|].number;
      }
    }
  }

  /** Every number a claim takes belongs to a waiting steer of the run. */
  lemma TakenWait(steers: seq<Steer>, run: RunKey, n: nat) returns (i: nat)
    requires n in Numbers(AcceptedOf(steers, run))
    ensures i < |steers| && Waiting(steers[i], run) && steers[i].number == n
  {
    AcceptedMembers(steers, run);
    var items := AcceptedOf(steers, run);
    var k :| 0 <= k < |items| && items[k].number == n;
    assert items[k] in steers;
    i :| 0 <= i < |steers| && steers[i] == items[k];
  }

  lemma IncreasingJoin(a: seq<nat>, b: seq<nat>)
    requires Increasing(a) && Increasing(b) && forall m, n | m in a && n in b :: m < n
    ensures Increasing(a + b)
  {
    forall i, j | 0 <= i < j < |a + b|
      ensures (a + b)[i] < (a + b)[j]
    {
      if i < |a| <= j {
        assert a[i] in a && b[j - |a|] in b;
      }
    }
  }

  lemma ClaimedGrow(s: Store, run: RunKey, claimed: map<RunKey, seq<nat>>)
    requires Numbered(s) && Batched(s) && ClaimsGrow(s.runs, claimed) && Unclaimed(s.steers, claimed) && run in s.runs
    ensures ClaimsGrow(s.runs, claimed[run := ClaimedOf(claimed, run) + Numbers(AcceptedOf(s.steers, run))])
  {
    var before, taken := ClaimedOf(claimed, run), Numbers(AcceptedOf(s.steers, run));
    ClaimInOrder(s.steers, run);
    forall n | n in taken
      ensures n < s.runs[run].nextNumber && forall m | m in before :: m < n
    {
      var i := TakenWait(s.steers, run, n);
    }
    IncreasingJoin(before, taken);
  }

  lemma ClaimTakesAll(s: Store, run: RunKey)
    ensures forall i | 0 <= i < |s.steers| && Waiting(s.steers[i], run) :: s.steers[i].number in Numbers(AcceptedOf(s.steers, run))
  {
    var items := AcceptedOf(s.steers, run);
    AcceptedMembers(s.steers, run);
    forall i | 0 <= i < |s.steers| && Waiting(s.steers[i], run)
      ensures s.steers[i].number in Numbers(items)
    {
      var k :| 0 <= k < |items| && items[k] == s.steers[i];
      assert Numbers(items)[k] == s.steers[i].number;
    }
  }

  lemma ClaimKeepsTurn(s: Store, run: RunKey, batch: BatchId, now: real, claimed: map<RunKey, seq<nat>>)
    requires Numbered(s) && InTurn(s, claimed) && RetiredBySeal(s) && Batched(s) && ClaimBatch(s, run, batch, now).1.Claimed?
    ensures InTurn(ClaimBatch(s, run, batch, now).0, claimed[run := ClaimedOf(claimed, run) + Numbers(ClaimBatch(s, run, batch, now).1.items)])
  {
    var (s', c) := ClaimBatch(s, run, batch, now);
    var claimed' := claimed[run := ClaimedOf(claimed, run) + Numbers(c.items)];
    ClaimedGrow(s, run, claimed);
    ClaimTakesAll(s, run);
    forall i | 0 <= i < |s'.steers| && s'.steers[i].batch.Some?
      ensures s'.steers[i].number in ClaimedOf(claimed', s'.steers[i].id.run)
    {
      if s.steers[i].batch.Some? {
        assert s.steers[i].number in ClaimedOf(claimed, s.steers[i].id.run);
      } else {
        assert Waiting(s.steers[i], run);
      }
    }
    forall i, n | 0 <= i < |s'.steers| && s'.steers[i].batch.None? && !HandedOff(s'.steers[i]) && n in ClaimedOf(claimed', s'.steers[i].id.run)
      ensures n < s'.steers[i].number
    {
      assert s'.steers[i] == s.steers[i] && s.steers[i].id.run != run;
      assert n in ClaimedOf(claimed, s.steers[i].id.run);
    }
  }

  lemma ClaimKeepsRest(s: Store, run: RunKey, batch: BatchId, now: real, tickets: map<SteerId, Ticket>, history: set<(RowId, BatchId)>)
    requires RetiredBySeal(s) && TicketsKept(s, tickets) && Evidenced(s, history)
    ensures var s' := ClaimBatch(s, run, batch, now).0; RetiredBySeal(s') && TicketsKept(s', tickets) && Evidenced(s', history)
  {
    SameRowsKeepTickets(s, ClaimBatch(s, run, batch, now).0, tickets);
  }

  lemma ClaimKeepsInv(w: World, run: RunKey, batch: BatchId, now: real)
    requires Inv(w)
    ensures Inv(Apply(w, Claim(run, batch, now)))
  {
    if ClaimBatch(w.store, run, batch, now).1.Claimed? {
      ClaimKeepsValid(w.store, run, batch, now);
      ClaimKeepsTurn(w.store, run, batch, now, w.claimed);
      ClaimKeepsRest(w.store, run, batch, now, w.tickets, w.history);
    }
  }

  lemma ForgetKeepsInv(w: World, gone: set<RunKey>)
    requires Inv(w)
    ensures Inv(w.(store := Forget(w.store, gone)))
  {
    var s, s' := w.store, Forget(w.store, gone);
    ForgetKeepsValid(s, gone);
    ForgetKeepsTickets(s, gone, w.tickets);
    forall i | 0 <= i < |s'.steers|
      ensures exists a :: 0 <= a < |s.steers| && s.steers[a] == s'.steers[i]
    {
      var a := KeptOne(s.steers, gone, i);
    }
  }

  lemma {:induction false} KeptHas(steers: seq<Steer>, gone: set<RunKey>, i: nat) returns (a: nat)
    requires i < |steers| && steers[i].id.run !in gone
    ensures a < |Kept(steers, gone)| && Kept(steers, gone)[a] == steers[i]
  {
    var front := steers[..|steers| - 1];
    if i < |front| {
      a := KeptHas(front, gone, i);
    } else {
      a := |Kept(front, gone)|;
    }
  }

  lemma ForgetKeepsTickets(s: Store, gone: set<RunKey>, tickets: map<SteerId, Ticket>)
    requires TicketsKept(s, tickets)
    ensures TicketsKept(Forget(s, gone), tickets)
  {
    var s' := Forget(s, gone);
    PurgedMembers(s.steers, gone);
    forall i | 0 <= i < |s'.steers|
      ensures s'.steers[i].id in tickets && tickets[s'.steers[i].id] == Ticket(s'.steers[i].number, s'.steers[i].text)
    {
      var a := KeptOne(s.steers, gone, i);
    }
    forall id | id in tickets && id !in s'.purged
      ensures exists i :: 0 <= i < |s'.steers| && s'.steers[i].id == id
    {
      var i :| 0 <= i < |s.steers| && s.steers[i].id == id;
      var a := KeptHas(s.steers, gone, i);
      assert s'.steers[a].id == id;
    }
    forall id | id in s'.purged
      ensures id in tickets
    {
      if id !in s.purged {
        var i :| 0 <= i < |s.steers| && s.steers[i].id == id;
      }
    }
  }

  lemma RecoveredRowsHaveEvidence(s: Store, history: set<(RowId, BatchId)>, evidence: map<BatchId, RowId>, now: real)
    requires Batched(s) && Evidenced(s, history) && forall b | b in evidence :: (evidence[b], b) in history
    ensures Evidenced(SettleAll(s, StagedBatches(s), evidence, "restart_unconfirmed", now), history)
  {
    forall i | 0 <= i < |s.steers|
      ensures var r := SettleAll(s, StagedBatches(s), evidence, "restart_unconfirmed", now).steers[i];
              r.state == Delivered ==> r.batch.Some? && r.row.Some? && (r.row.value, r.batch.value) in history
    {
      SettledRows(s, evidence, "restart_unconfirmed", now, i);
    }
  }

  lemma SealAllKeepsInv(w: World, live: set<string>, now: real)
    requires Inv(w)
    ensures Inv(w.(store := SealAll(w.store, StaleRuns(w.store, live), "restart_stale_epoch", now)))
  {
    SealAllRetires(w.store, StaleRuns(w.store, live), "restart_stale_epoch", now);
    RetiresKeepsRest(w.store, SealAll(w.store, StaleRuns(w.store, live), "restart_stale_epoch", now), w);
  }

  lemma SettleAllKeepsInv(w: World, evidence: map<BatchId, RowId>, now: real)
    requires Inv(w) && forall b | b in evidence :: (evidence[b], b) in w.history
    ensures Inv(w.(store := SettleAll(w.store, StagedBatches(w.store), evidence, "restart_unconfirmed", now)))
  {
    SettleAllSettles(w.store, evidence, "restart_unconfirmed", now);
    RecoveredRowsHaveEvidence(w.store, w.history, evidence, now);
    SettlesKeepsRest(w.store, SettleAll(w.store, StagedBatches(w.store), evidence, "restart_unconfirmed", now), w);
  }

  lemma RestartKeepsInv(w: World, live: set<string>, evidence: map<BatchId, RowId>, now: real)
    requires Inv(w) && forall b | b in evidence :: (evidence[b], b) in w.history
    ensures Inv(w.(store := Prune(Recover(w.store, live, evidence, now), now)))
  {
    var closed := SealAll(w.store, StaleRuns(w.store, live), "restart_stale_epoch", now);
    SealAllKeepsInv(w, live, now);
    SettleAllKeepsInv(w.(store := closed), evidence, now);
    var settled := Recover(w.store, live, evidence, now);
    assert w.(store := closed).(store := settled) == w.(store := settled);
    PruneKeepsInv(w.(store := settled), now);
  }

  lemma PruneKeepsInv(w: World, now: real)
    requires Inv(w)
    ensures Inv(w.(store := Prune(w.store, now)))
  {
    ForgetKeepsInv(w, set run | run in w.store.runs && Prunable(w.store.runs, run, now - RECEIPT_TTL));
  }

  lemma SubmitKeepsInv(w: World, id: SteerId, text: string, sid: Option<string>, epoch: Option<string>, now: real)
    requires Inv(w)
    ensures Inv(Apply(w, Submit(id, text, sid, epoch, now)))
  {
    if Admit(w.store, id, text, NewRow(sid, sid, epoch), now).1.Admitted? {
      AppendKeepsRest(w, id, text, Accepted, None, NewRow(sid, sid, epoch), now);
    }
  }

  lemma HandoffKeepsInv(w: World, id: SteerId, text: string, original: Option<string>, resolved: Option<string>, epoch: Option<string>, now: real)
    requires Inv(w)
    ensures Inv(Apply(w, Handoff(id, text, original, resolved, epoch, now)))
  {
    if HandoffGate(w.store, id) == GateOpen && Find(w.store.steers, id).None? {
      AppendKeepsRest(w, id, text, OutcomeUnknown, Some(HANDOFF_ERROR), NewRow(original, resolved, epoch), now);
    }
  }

  lemma SealKeepsInv(w: World, run: RunKey, reason: string, now: real)
    requires Inv(w)
    ensures Inv(w.(store := SealRun(w.store, run, reason, now)))
  {
    SealRetires(w.store, run, reason, now);
    RetiresKeepsRest(w.store, SealRun(w.store, run, reason, now), w);
  }

  lemma ConfirmKeepsInv(w: World, row: RowId, batch: BatchId, now: real)
    requires Inv(w) && (row, batch) in w.history
    ensures Inv(w.(store := ConfirmBatch(w.store, batch, row, now)))
  {
    ConfirmSettles(w.store, batch, row, now);
    SettlesKeepsRest(w.store, ConfirmBatch(w.store, batch, row, now), w);
  }

  lemma DoubtKeepsInv(w: World, batch: BatchId, reason: string, now: real)
    requires Inv(w)
    ensures Inv(w.(store := MarkUnknown(w.store, batch, reason, now)))
  {
    MarkUnknownSettles(w.store, batch, reason, now);
    SettlesKeepsRest(w.store, MarkUnknown(w.store, batch, reason, now), w);
  }

  lemma RowStepKeepsInv(w: World, e: Event)
    requires Inv(w) && (e.Register? || e.Submit? || e.Handoff? || e.SealEvent? || e.Claim?)
    ensures Inv(Apply(w, e))
  {
    match e
    case Register(run, original, resolved, epoch) => RegisterKeepsInv(w, run, original, resolved, epoch);
    case Submit(id, text, sid, epoch, now) => SubmitKeepsInv(w, id, text, sid, epoch, now);
    case Handoff(id, text, original, resolved, epoch, now) => HandoffKeepsInv(w, id, text, original, resolved, epoch, now);
    case SealEvent(run, reason, now) => SealKeepsInv(w, run, reason, now);
    case Claim(run, batch, now) => ClaimKeepsInv(w, run, batch, now);
  }

  lemma OutcomeStepKeepsInv(w: World, e: Event)
    requires Inv(w) && (e.CommitRow? || e.Confirm? || e.Doubt? || e.Restart? || e.PruneEvent?)
    ensures Inv(Apply(w, e))
  {
    match e
    case CommitRow(row, batch) =>
    case Confirm(row, batch, now) =>
      if (row, batch) in w.history { ConfirmKeepsInv(w, row, batch, now); }
    case Doubt(batch, reason, now) => DoubtKeepsInv(w, batch, reason, now);
    case Restart(live, evidence, now) =>
      if forall b | b in evidence :: (evidence[b], b) in w.history { RestartKeepsInv(w, live, evidence, now); }
    case PruneEvent(now) => PruneKeepsInv(w, now);
  }

  lemma StepKeepsInv(w: World, e: Event)
    requires Inv(w)
    ensures Inv(Apply(w, e))
  {
    if e.Register? || e.Submit? || e.Handoff? || e.SealEvent? || e.Claim? {
      RowStepKeepsInv(w, e);
    } else {
      OutcomeStepKeepsInv(w, e);
    }
  }

  lemma RegisterKeepsInv(w: World, run: RunKey, original: Option<string>, resolved: Option<string>, epoch: Option<string>)
    requires Inv(w)
    ensures Inv(w.(store := RegisterRun(w.store, run, original, resolved, epoch)))
  {
    RegisterKeepsValid(w.store, run, original, resolved, epoch);
  }

  lemma {:induction false} RunHolds(es: seq<Event>)
    ensures Inv(Run(es))
  {
    if es != [] {
      RunHolds(es[..|es| - 1]);
      StepKeepsInv(Run(es[..|es| - 1]), es[|es| - 1]);
    }
  }

  /** In every reachable store: numbering, batches equal to their steers, no accepted steer in a sealed run, the limit. */
  lemma StoreAlwaysValid(es: seq<Event>)
    ensures Valid(Run(es).store)
  {
    RunHolds(es);
  }

  // ---------------------------------------------------------------- first in, first out

  /**
   The numbers claimed for a run, batch after batch, grow strictly; a steer with a batch is among them;
   every queued steer numbered below a claimed one has been claimed too; two batches share no steer.
   */
  lemma InjectedInOrder(es: seq<Event>)
    ensures var w := Run(es);
            && (forall run | run in w.claimed :: Increasing(w.claimed[run]))
            && (forall i, n | 0 <= i < |w.store.steers| && n in ClaimedOf(w.claimed, w.store.steers[i].id.run)
                              && w.store.steers[i].number <= n && !HandedOff(w.store.steers[i]) ::
                  w.store.steers[i].batch.Some? && w.store.steers[i].number in ClaimedOf(w.claimed, w.store.steers[i].id.run))
            && (forall b, c, id | b in w.store.batches && c in w.store.batches && id in w.store.batches[b].ordered && id in w.store.batches[c].ordered ::
                  b == c)
  {
    RunHolds(es);
    ClaimedInTurn(Run(es).store, Run(es).claimed);
    BatchesDisjoint(Run(es).store);
  }

  lemma ClaimedInTurn(s: Store, claimed: map<RunKey, seq<nat>>)
    requires InTurn(s, claimed)
    ensures forall i, n | 0 <= i < |s.steers| && n in ClaimedOf(claimed, s.steers[i].id.run) && s.steers[i].number <= n && !HandedOff(s.steers[i]) ::
              s.steers[i].batch.Some? && s.steers[i].number in ClaimedOf(claimed, s.steers[i].id.run)
  {
  }

  lemma BatchesDisjoint(s: Store)
    requires Numbered(s) && Batched(s)
    ensures forall b, c, id | b in s.batches && c in s.batches && id in s.batches[b].ordered && id in s.batches[c].ordered :: b == c
  {
    forall b, c, id | b in s.batches && c in s.batches && id in s.batches[b].ordered && id in s.batches[c].ordered
      ensures b == c
    {
      var i := CarrierOf(s.steers, b, id);
      var j := CarrierOf(s.steers, c, id);
    }
  }

  lemma {:induction false} CarrierOf(steers: seq<Steer>, batch: BatchId, id: SteerId) returns (i: nat)
    requires id in IdsIn(steers, batch)
    ensures i < |steers| && steers[i].id == id && steers[i].batch == Some(batch)
  {
    var front := steers[..|steers| - 1];
    if id in IdsIn(front, batch) {
      i := CarrierOf(front, batch, id);
    } else {
      i := |steers| - 1;
    }
  }

  // ---------------------------------------------------------------- one key, one number

  /** Whatever happened since, a key that was taken once answers with its first number, or as expired; it is never admitted again. */
  lemma KeyAnswersForever(es: seq<Event>, id: SteerId, text: string, blank: RunRow, now: real)
    requires id in Run(es).tickets
    ensures var (s, v) := Admit(Run(es).store, id, text, blank, now);
            && s == Run(es).store
            && (if id in s.purged then v == Expired
                else if text == Run(es).tickets[id].text then v.Duplicate? && v.hit.id == id && v.hit.number == Run(es).tickets[id].number
                else v.Conflict? && v.hit.id == id)
  {
    RunHolds(es);
    var s := Run(es).store;
    if id !in s.purged {
      var i :| 0 <= i < |s.steers| && s.steers[i].id == id;
      assert s.steers[i].id == id;
    }
  }

  /** Numbers taken in a run are below its next one and belong to one key each. */
  ghost predicate TicketsDistinct(runs: map<RunKey, RunRow>, tickets: map<SteerId, Ticket>) {
    && (forall id | id in tickets :: id.run in runs && tickets[id].number < runs[id.run].nextNumber)
    && (forall a, b | a in tickets && b in tickets && a != b && a.run == b.run :: tickets[a].number != tickets[b].number)
  }

  /** A key that has a ticket is pruned or still has its row, so it is not taken again. */
  lemma TicketIsTaken(s: Store, tickets: map<SteerId, Ticket>, id: SteerId)
    requires TicketsKept(s, tickets) && id in tickets
    ensures id in s.purged || Find(s.steers, id).Some?
  {
    if id !in s.purged {
      var i :| 0 <= i < |s.steers| && s.steers[i].id == id;
      assert s.steers[i].id == id;
    }
  }

  /** No step gives a key a second ticket or withdraws a tombstone. */
  lemma StepKeepsTickets(w: World, e: Event)
    requires TicketsKept(w.store, w.tickets)
    ensures w.tickets.Keys <= Apply(w, e).tickets.Keys && forall id | id in w.tickets :: Apply(w, e).tickets[id] == w.tickets[id]
    ensures w.store.purged <= Apply(w, e).store.purged
  {
    match e
    case Submit(id, text, sid, epoch, now) =>
      if id in w.tickets { TicketIsTaken(w.store, w.tickets, id); }
    case Handoff(id, text, original, resolved, epoch, now) =>
      if id in w.tickets { TicketIsTaken(w.store, w.tickets, id); }
    case _ =>
  }

  lemma RunsGrow(w: World, e: Event)
    ensures w.store.runs.Keys <= Apply(w, e).store.runs.Keys
    ensures forall run | run in w.store.runs :: w.store.runs[run].nextNumber <= Apply(w, e).store.runs[run].nextNumber
  {
  }

  /** A new ticket takes the next number of its run, which moves on. */
  lemma NewTicket(w: World, e: Event) returns (id: SteerId, text: string)
    requires Apply(w, e).tickets != w.tickets
    ensures Apply(w, e).tickets == w.tickets[id := Ticket(NextOf(w.store, id.run), text)]
    ensures id.run in Apply(w, e).store.runs && Apply(w, e).store.runs[id.run].nextNumber == NextOf(w.store, id.run) + 1
  {
    id, text := e.id, e.text;
  }

  function NextOf(s: Store, run: RunKey): nat {
    if run in s.runs then s.runs[run].nextNumber else 1
  }

  lemma DistinctGrows(runs: map<RunKey, RunRow>, runs': map<RunKey, RunRow>, tickets: map<SteerId, Ticket>)
    requires TicketsDistinct(runs, tickets) && runs.Keys <= runs'.Keys
    requires forall run | run in runs :: runs[run].nextNumber <= runs'[run].nextNumber
    ensures TicketsDistinct(runs', tickets)
  {
  }

  lemma DistinctTakes(runs: map<RunKey, RunRow>, tickets: map<SteerId, Ticket>, id: SteerId, ticket: Ticket)
    requires TicketsDistinct(runs, tickets) && id.run in runs && ticket.number < runs[id.run].nextNumber
    requires forall a | a in tickets && a.run == id.run :: tickets[a].number < ticket.number
    ensures TicketsDistinct(runs, tickets[id := ticket])
  {
  }

  lemma StepKeepsDistinct(w: World, e: Event)
    requires TicketsDistinct(w.store.runs, w.tickets)
    ensures TicketsDistinct(Apply(w, e).store.runs, Apply(w, e).tickets)
  {
    var w' := Apply(w, e);
    RunsGrow(w, e);
    DistinctGrows(w.store.runs, w'.store.runs, w.tickets);
    if w'.tickets != w.tickets {
      var id, text := NewTicket(w, e);
      DistinctTakes(w'.store.runs, w.tickets, id, Ticket(NextOf(w.store, id.run), text));
    }
  }

  /** A number of a run is given to at most one key, pruned ones included. */
  lemma {:induction false} NumbersAreNeverReused(es: seq<Event>)
    ensures TicketsDistinct(Run(es).store.runs, Run(es).tickets)
  {
    if es != [] {
      NumbersAreNeverReused(es[..|es| - 1]);
      StepKeepsDistinct(Run(es[..|es| - 1]), es[|es| - 1]);
    }
  }

  lemma {:induction false} TicketsAreForever(es: seq<Event>, more: seq<Event>, id: SteerId)
    requires id in Run(es).tickets
    ensures id in Run(es + more).tickets && Run(es + more).tickets[id] == Run(es).tickets[id]
    ensures id in Run(es).store.purged ==> id in Run(es + more).store.purged
  {
    if more == [] {
      assert es + more == es;
    } else {
      var less := more[..|more| - 1];
      TicketsAreForever(es, less, id);
      RunHolds(es + less);
      StepKeepsTickets(Run(es + less), more[|more| - 1]);
      assert (es + more)[..|es + more| - 1] == es + less;
    }
  }

  // ---------------------------------------------------------------- what a row may become

  /** Pruned, or still there: same key, number and text, the batch kept once taken, delivered and not delivered final. */
  ghost predicate Follows(x: Steer, s: Store) {
    x.id in s.purged || exists i :: 0 <= i < |s.steers| && Becomes(x, s.steers[i])
  }

  predicate Becomes(x: Steer, y: Steer) {
    && y.id == x.id && y.number == x.number && y.text == x.text
    && (x.batch.Some? ==> y.batch == x.batch)
    && (x.state == Delivered || x.state == NotDelivered || HandedOff(x) ==> y == x)
    && (x.state == OutcomeUnknown ==> y.state == OutcomeUnknown || y.state == Delivered)
  }

  lemma ForgetFollows(s: Store, gone: set<RunKey>, x: Steer)
    requires Follows(x, s)
    ensures Follows(x, Forget(s, gone))
  {
    PurgedMembers(s.steers, gone);
    if x.id !in s.purged {
      var i :| 0 <= i < |s.steers| && Becomes(x, s.steers[i]);
      if s.steers[i].id.run !in gone {
        var a := KeptHas(s.steers, gone, i);
        assert Becomes(x, Forget(s, gone).steers[a]);
      }
    }
  }

  lemma RowsFollow(s: Store, s': Store, x: Steer)
    requires Follows(x, s) && s.purged <= s'.purged && |s.steers| <= |s'.steers|
    requires forall i | 0 <= i < |s.steers| :: Becomes(s.steers[i], s'.steers[i])
    ensures Follows(x, s')
  {
    if x.id !in s.purged {
      var i :| 0 <= i < |s.steers| && Becomes(x, s.steers[i]);
      assert Becomes(x, s'.steers[i]);
    }
  }

  lemma RestartFollows(s: Store, live: set<string>, evidence: map<BatchId, RowId>, now: real, x: Steer)
    requires Valid(s) && Follows(x, s)
    ensures Follows(x, Prune(Recover(s, live, evidence, now), now))
  {
    var s' := Recover(s, live, evidence, now);
    RecoverRepairs(s, live, evidence, now);
    forall i | 0 <= i < |s.steers|
      ensures Becomes(s.steers[i], s'.steers[i])
    {
      assert Repaired(s.steers[i], s'.steers[i], Sealed(s', s.steers[i].id.run), live, evidence);
    }
    RowsFollow(s, s', x);
    ForgetFollows(s', (set run | run in s'.runs && Prunable(s'.runs, run, now - RECEIPT_TTL)), x);
  }

  /** Every other step rewrites rows in place or appends one. */
  lemma StepBecomes(w: World, e: Event)
    requires Batched(w.store) && !e.Restart? && !e.PruneEvent?
    ensures Apply(w, e).store.purged == w.store.purged && |w.store.steers| <= |Apply(w, e).store.steers|
    ensures forall i | 0 <= i < |w.store.steers| :: Becomes(w.store.steers[i], Apply(w, e).store.steers[i])
  {
  }

  lemma StepFollows(w: World, e: Event, x: Steer)
    requires Valid(w.store) && Follows(x, w.store)
    ensures Follows(x, Apply(w, e).store)
  {
    match e
    case Restart(live, evidence, now) =>
      if forall b | b in evidence :: (evidence[b], b) in w.history { RestartFollows(w.store, live, evidence, now, x); }
    case PruneEvent(now) =>
      ForgetFollows(w.store, (set run | run in w.store.runs && Prunable(w.store.runs, run, now - RECEIPT_TTL)), x);
    case _ =>
      StepBecomes(w, e);
      RowsFollow(w.store, Apply(w, e).store, x);
  }

  /** Over any further events a row keeps its batch once it has one, and its delivered or not delivered state forever, or is pruned. */
  lemma {:induction false} RowsKeepTheirFate(es: seq<Event>, more: seq<Event>, i: nat)
    requires i < |Run(es).store.steers|
    ensures Follows(Run(es).store.steers[i], Run(es + more).store)
  {
    if more == [] {
      assert es + more == es;
      assert Becomes(Run(es).store.steers[i], Run(es).store.steers[i]);
    } else {
      var less := more[..|more| - 1];
      RowsKeepTheirFate(es, less, i);
      RunHolds(es + less);
      StepFollows(Run(es + less), more[|more| - 1], Run(es).store.steers[i]);
      assert (es + more)[..|es + more| - 1] == es + less;
    }
  }

  /** A steer is delivered only if the committed history has a row that carries its batch id. */
  lemma DeliveredWasCommitted(es: seq<Event>, i: nat)
    requires i < |Run(es).store.steers| && Run(es).store.steers[i].state == Delivered
    ensures var x := Run(es).store.steers[i];
            x.batch.Some? && x.row.Some? && (x.row.value, x.batch.value) in Run(es).history
  {
    RunHolds(es);
  }
}
