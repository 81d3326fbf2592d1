/** What the steer inbox answers and writes, spelled out: every code with its cause, every row column by column. */
module SteerAnswers {
  import opened Basics
  import opened SteerStore
  import opened SteerTables
  import opened SteerProofs
  import opened SteerInbox

  // ---------------------------------------------------------------- rows and counts

  predicate HasRow(s: Store, id: SteerId) {
    exists i | 0 <= i < |s.steers| :: s.steers[i].id == id
  }

  /** The key was never used, or its run was forgotten without it. */
  predicate NewKey(s: Store, id: SteerId) {
    id !in s.purged && !HasRow(s, id)
  }

  predicate IsSealed(s: Store, run: RunKey) {
    run in s.runs && s.runs[run].closedReason != None
  }

  /** The places of the run's steers that are neither delivered nor given up. */
  function OpenPlaces(steers: seq<Steer>, run: RunKey): set<nat> {
    set i: nat | i < |steers| && steers[i].id.run == run && (steers[i].state == Accepted || steers[i].state == Staged)
  }

  lemma {:induction false} OutstandingCounts(steers: seq<Steer>, run: RunKey)
    ensures Outstanding(steers, run) == |OpenPlaces(steers, run)|
  {
    if steers == [] {
      assert OpenPlaces(steers, run) == {};
    } else {
      var front, n := steers[..|steers| - 1], |steers| - 1;
      OutstandingCounts(front, run);
      assert n !in OpenPlaces(front, run);
      assert OpenPlaces(steers, run) == OpenPlaces(front, run) + (if n in OpenPlaces(steers, run) then {n} else {});
    }
  }

  /** Rows have distinct keys, so a key finds its row and no other. */
  lemma FindIs(s: Store, id: SteerId, i: nat)
    requires Numbered(s) && i < |s.steers| && s.steers[i].id == id
    ensures Find(s.steers, id) == Some(s.steers[i])
  {
  }

  predicate AcceptedIn(s: Steer, run: RunKey) {
    s.id.run == run && s.state == Accepted
  }

  /** The accepted steers of a run, none left out and none out of order. */
  lemma {:induction false} AcceptedAre(steers: seq<Steer>, run: RunKey) returns (at: seq<nat>)
    ensures Picks(steers, (s: Steer) => AcceptedIn(s, run), AcceptedOf(steers, run), at)
  {
    at := [];
    if steers != [] {
      var front, last := steers[..|steers| - 1], steers[|steers| - 1];
      at := AcceptedAre(front, run);
      PicksOneMore(front, last, (s: Steer) => AcceptedIn(s, run), AcceptedOf(front, run), at);
      assert steers == front + [last];
      if AcceptedIn(last, run) {
        at := at + [|front|];
      }
    }
  }

  // ---------------------------------------------------------------- what a client is answered

  /** On the legacy path: is there a reason in the run itself to refuse, and which. */
  predicate LegacyRefuses(q: Request, status: Option<string>, bound: bool, kind: Kind, code: string) {
    var over := status in {Some("completed"), Some("failed"), Some("cancelled"), Some("interrupted")};
    var unbound := status == Some("queued") || !bound;
    || (kind == Stale && code == "server_epoch" && !q.epochMatches)
    || (kind == Closed && code == "run_terminal" && q.epochMatches && over)
    || (kind == Closed && code == "run_stopping" && q.epochMatches && status == Some("stopping"))
    || (kind == NotReady && code == "run_not_bound" && q.epochMatches && !over && status != Some("stopping") && unbound)
    || (kind == Closed && code == "run_state_unknown" && q.epochMatches && !over && status != Some("stopping") && !unbound
        && status !in {None, Some("running"), Some("waiting_for_approval")})
  }

  predicate LegacySteerable(q: Request, status: Option<string>, bound: bool) {
    q.epochMatches && bound && status in {None, Some("running"), Some("waiting_for_approval")}
  }

  /** On the core's path. */
  predicate AuthorityRefuses(q: Request, status: Option<string>, admission: string, stopping: bool, kind: Kind, code: string) {
    var over := status in {Some("completed"), Some("failed"), Some("cancelled"), Some("interrupted")};
    var ending := !over && (status == Some("stopping") || stopping);
    || (kind == Stale && code == "server_epoch" && !q.epochMatches)
    || (kind == Closed && code == "run_stopping" && q.epochMatches && ending)
    || (kind == Closed && code == "run_terminal" && q.epochMatches && (over || (!ending && admission == "terminal")))
    || (kind == NotReady && code == "run_queued" && q.epochMatches && !over && !ending && admission == "queued")
    || (kind == Closed && code == "run_state_unknown" && q.epochMatches && !over && !ending && admission !in {"started", "queued", "terminal"})
  }

  predicate AuthorityAdmits(q: Request, status: Option<string>, admission: string, stopping: bool) {
    && q.epochMatches && !stopping && admission == "started"
    && status !in {Some("completed"), Some("failed"), Some("cancelled"), Some("interrupted"), Some("stopping")}
  }

  /** Each path's table is complete, and no two of its rows overlap. */
  lemma OneVerdict(q: Request, status: Option<string>, bound: bool, admission: string, stopping: bool)
    ensures LegacySteerable(q, status, bound) <==> forall kind, code :: !LegacyRefuses(q, status, bound, kind, code)
    ensures AuthorityAdmits(q, status, admission, stopping) <==> forall kind, code :: !AuthorityRefuses(q, status, admission, stopping, kind, code)
    ensures forall k, c, k', c' | LegacyRefuses(q, status, bound, k, c) && LegacyRefuses(q, status, bound, k', c') :: k == k' && c == c'
    ensures forall k, c, k', c' | AuthorityRefuses(q, status, admission, stopping, k, c) && AuthorityRefuses(q, status, admission, stopping, k', c')
              :: k == k' && c == c'
  {
    assert !q.epochMatches ==> LegacyRefuses(q, status, bound, Stale, "server_epoch") && AuthorityRefuses(q, status, admission, stopping, Stale, "server_epoch");
    if q.epochMatches && !LegacySteerable(q, status, bound) {
      assert || LegacyRefuses(q, status, bound, Closed, "run_terminal") || LegacyRefuses(q, status, bound, Closed, "run_stopping")
             || LegacyRefuses(q, status, bound, NotReady, "run_not_bound") || LegacyRefuses(q, status, bound, Closed, "run_state_unknown");
    }
    if q.epochMatches && !AuthorityAdmits(q, status, admission, stopping) {
      assert || AuthorityRefuses(q, status, admission, stopping, Closed, "run_terminal") || AuthorityRefuses(q, status, admission, stopping, Closed, "run_stopping")
             || AuthorityRefuses(q, status, admission, stopping, NotReady, "run_queued") || AuthorityRefuses(q, status, admission, stopping, Closed, "run_state_unknown");
    }
  }

  /** The id a request of a known owner asks for. */
  function KeyOf(q: Request, scope: string): SteerId {
    SteerId(RunKey(scope, q.run), q.key)
  }

  /**
   A new key on the legacy path is taken exactly when the epoch matches, the agent is bound, the status is
   running, waiting for approval or absent, the run is not sealed and fewer than 32 of its steers are open.
   Every other case has its own code.
   */
  lemma LegacyAnswers(s: Store, q: Request, bound: bool, status: Option<string>, core: bool, scope: string)
    requires q.scope == Some(scope) && scope != "" && NewKey(s, KeyOf(q, scope))
    ensures var o := AdmitRequest(s, q, Legacy(bound), status, core);
            var room := |OpenPlaces(s.steers, RunKey(scope, q.run))| < 32;
            var closed := IsSealed(s, RunKey(scope, q.run));
            && !o.coreAsked
            && (o.answer.Taken? <==> LegacySteerable(q, status, bound) && !closed && room)
            && (o.answer == Refused(Closed, "run_sealed") <==> LegacySteerable(q, status, bound) && closed)
            && (o.answer == Refused(Full, "steer_queue_full") <==> LegacySteerable(q, status, bound) && !closed && !room)
            && (forall kind, code :: LegacyRefuses(q, status, bound, kind, code) ==> o == Outcome(s, Refused(kind, code), false))
  {
    LegacyVerdictIs(q, status, bound);
    OutstandingCounts(s.steers, RunKey(scope, q.run));
    assert Find(s.steers, IdOf(q)) == None;
  }

  lemma LegacyVerdictIs(q: Request, status: Option<string>, bound: bool)
    ensures var v := LegacyVerdict(LegacyStatus(status, bound), bound, q.epochMatches);
            && (v == None <==> LegacySteerable(q, status, bound))
            && (forall kind, code | LegacyRefuses(q, status, bound, kind, code) :: v == Some(Refused(kind, code)))
            && (v.Some? ==> v.value.Refused? && v.value.code != "run_sealed" && v.value.code != "steer_queue_full")
  {
  }

  lemma AuthorityVerdictIs(q: Request, status: Option<string>, admission: string, stopping: bool)
    ensures var v := AuthorityVerdict(if status == None then "" else status.value, admission, stopping, q.epochMatches);
            && (v == None <==> AuthorityAdmits(q, status, admission, stopping))
            && (forall kind, code | AuthorityRefuses(q, status, admission, stopping, kind, code) :: v == Some(Refused(kind, code)))
            && (v.Some? ==> v.value.Refused? && v.value.code != "run_sealed" && v.value.code != "run_not_accepting_steer")
  {
  }

  /**
   A new key on the core's path is taken exactly when the epoch matches, the run is neither over nor stopping,
   its admission is started, the run is not sealed and the core takes the steer. The core is asked only then.
   */
  lemma AuthorityAnswers(s: Store, q: Request, admission: string, target: Option<string>, stopping: bool, status: Option<string>, core: bool, scope: string)
    requires q.scope == Some(scope) && scope != "" && NewKey(s, KeyOf(q, scope))
    ensures var o := AdmitRequest(s, q, Authority(admission, target, stopping), status, core);
            var admits := AuthorityAdmits(q, status, admission, stopping);
            var closed := IsSealed(s, RunKey(scope, q.run));
            && (o.coreAsked <==> admits && !closed)
            && (o.answer.Taken? <==> admits && !closed && core)
            && (o.answer == Refused(Closed, "run_sealed") <==> admits && closed)
            && (o.answer == Refused(Closed, "run_not_accepting_steer") <==> admits && !closed && !core)
            && (!o.answer.Taken? ==> o.store == s)
            && (forall kind, code :: AuthorityRefuses(q, status, admission, stopping, kind, code) ==> o.answer == Refused(kind, code))
  {
    AuthorityVerdictIs(q, status, admission, stopping);
    assert Find(s.steers, IdOf(q)) == None;
  }

  /** A key with a row answers with it before any question about the run, in every state of the run. */
  lemma RepeatAnswers(s: Store, q: Request, owner: Owner, status: Option<string>, core: bool, scope: string, i: nat)
    requires q.scope == Some(scope) && scope != "" && Numbered(s) && i < |s.steers| && s.steers[i].id == KeyOf(q, scope) && !owner.Unclear?
    ensures AdmitRequest(s, q, owner, status, core)
            == Outcome(s, if s.steers[i].text == q.text then Known(s.steers[i]) else Clash, false)
  {
    FindIs(s, KeyOf(q, scope), i);
  }

  /** A key whose run was forgotten answers as gone, but only where the run itself would take a steer. */
  lemma GoneAnswers(s: Store, q: Request, bound: bool, admission: string, target: Option<string>, stopping: bool,
                    status: Option<string>, core: bool, scope: string)
    requires q.scope == Some(scope) && scope != "" && KeyOf(q, scope) in s.purged && !HasRow(s, KeyOf(q, scope))
    ensures AdmitRequest(s, q, Legacy(bound), status, core).answer == Gone <==> LegacySteerable(q, status, bound)
    ensures AdmitRequest(s, q, Authority(admission, target, stopping), status, core).answer == Gone <==> AuthorityAdmits(q, status, admission, stopping)
    ensures forall kind, code | LegacyRefuses(q, status, bound, kind, code) ::
              AdmitRequest(s, q, Legacy(bound), status, core).answer == Refused(kind, code)
    ensures forall kind, code | AuthorityRefuses(q, status, admission, stopping, kind, code) ::
              AdmitRequest(s, q, Authority(admission, target, stopping), status, core).answer == Refused(kind, code)
  {
    LegacyVerdictIs(q, status, bound);
    AuthorityVerdictIs(q, status, admission, stopping);
    assert Find(s.steers, IdOf(q)) == None;
  }

  /** Nobody can say who owns the run, or the owner has no scope: nothing is stored. */
  lemma OwnerlessAnswers(s: Store, q: Request, owner: Owner, status: Option<string>, core: bool)
    ensures AdmitRequest(s, q, Unclear, status, core) == Outcome(s, Refused(Closed, "run_state_unknown"), false)
    ensures q.scope == None ==>
              var o := AdmitRequest(s, q, owner, status, core);
              && o.store == s && !o.coreAsked && o.answer.Refused?
              && (owner.Legacy? && LegacySteerable(q, status, owner.agentBound) ==> o.answer == Refused(Closed, "run_not_bound"))
              && (owner.Authority? && AuthorityAdmits(q, status, owner.admission, owner.stopping) ==> o.answer == Refused(Closed, "run_not_bound"))
  {
  }

  /** First non-empty of two session ids; the second when the first is missing or empty. */
  predicate FirstOf(r: Option<string>, a: Option<string>, b: Option<string>) {
    if a == None || a == Some("") then r == b else r == a
  }

  /** The row a taken steer leaves on the legacy path: accepted, with the next number of its run; the run is registered. */
  lemma LegacyTakes(s: Store, q: Request, bound: bool, status: Option<string>, core: bool, scope: string)
    requires q.scope == Some(scope) && scope != "" && AdmitRequest(s, q, Legacy(bound), status, core).answer.Taken?
    ensures var o := AdmitRequest(s, q, Legacy(bound), status, core);
            var run := RunKey(scope, q.run);
            var n := if run in s.runs then s.runs[run].nextNumber else 1;
            && o.answer.steer == Steer(KeyOf(q, scope), q.text, n, Accepted, None, None, None, q.now)
            && o.store.steers == s.steers + [o.answer.steer] && o.store.batches == s.batches && o.store.purged == s.purged
            && o.store.runs == s.runs[run :=
                 if run in s.runs then
                   RunRow(s.runs[run].originalSid, if q.session == None then s.runs[run].resolvedSid else q.session,
                          if q.epoch == None then s.runs[run].epoch else q.epoch, None, s.runs[run].closedAt, n + 1)
                 else RunRow(q.session, q.session, q.epoch, None, None, 2)]
  {
  }

  /** And on the core's path: its outcome is unknown from the start, marked as handed to the core; a registered run keeps its columns. */
  lemma AuthorityTakes(s: Store, q: Request, admission: string, target: Option<string>, stopping: bool, status: Option<string>, core: bool, scope: string)
      returns (sid: Option<string>, resolved: Option<string>)
    requires q.scope == Some(scope) && scope != "" && AdmitRequest(s, q, Authority(admission, target, stopping), status, core).answer.Taken?
    ensures FirstOf(sid, q.session, target) && FirstOf(resolved, target, sid)
    ensures var o := AdmitRequest(s, q, Authority(admission, target, stopping), status, core);
            var run := RunKey(scope, q.run);
            var n := if run in s.runs then s.runs[run].nextNumber else 1;
            && o.answer.steer == Steer(KeyOf(q, scope), q.text, n, OutcomeUnknown, None, None, Some("core_handoff"), q.now)
            && o.store.steers == s.steers + [o.answer.steer] && o.store.batches == s.batches && o.store.purged == s.purged
            && o.store.runs == s.runs[run := if run in s.runs then s.runs[run].(nextNumber := n + 1) else RunRow(sid, resolved, q.epoch, None, None, 2)]
  {
    sid := Or(q.session, target);
    resolved := Or(target, sid);
  }

  // ---------------------------------------------------------------- what the tables do

  /** The admission transaction for any key: a tombstone first, then the row, then the run, then the limit of 32. */
  lemma AdmitAnswers(s: Store, id: SteerId, text: string, blank: RunRow, now: real)
    requires Numbered(s)
    ensures var (s', v) := Admit(s, id, text, blank, now);
            && (v == Expired <==> id in s.purged)
            && (v.Conflict? || v.Duplicate? <==> id !in s.purged && HasRow(s, id))
            && (forall i | 0 <= i < |s.steers| && s.steers[i].id == id && id !in s.purged ::
                  v == if s.steers[i].text == text then Duplicate(s.steers[i]) else Conflict(s.steers[i]))
            && (v == RunClosed <==> NewKey(s, id) && IsSealed(s, id.run))
            && (v == QueueFull <==> NewKey(s, id) && !IsSealed(s, id.run) && |OpenPlaces(s.steers, id.run)| >= 32)
            && (v.Admitted? <==> NewKey(s, id) && !IsSealed(s, id.run) && |OpenPlaces(s.steers, id.run)| < 32)
            && (!v.Admitted? ==> s' == s)
  {
    OutstandingCounts(s.steers, id.run);
    if HasRow(s, id) {
      var i :| 0 <= i < |s.steers| && s.steers[i].id == id;
      FindIs(s, id, i);
    }
  }

  /** The check before a handoff looks at the tombstones and the seal only. */
  lemma GateAnswers(s: Store, id: SteerId)
    ensures HandoffGate(s, id) == GateExpired <==> id in s.purged
    ensures HandoffGate(s, id) == GateClosed <==> id !in s.purged && IsSealed(s, id.run)
    ensures HandoffGate(s, id) == GateOpen <==> id !in s.purged && !IsSealed(s, id.run)
  {
  }

  /** Registering again never forgets: the first original session stays, the others are replaced by what is known now. */
  lemma RegisterIs(s: Store, run: RunKey, original: Option<string>, resolved: Option<string>, epoch: Option<string>)
    ensures var s' := RegisterRun(s, run, original, resolved, epoch);
            && s'.steers == s.steers && s'.batches == s.batches && s'.purged == s.purged
            && s'.runs.Keys == s.runs.Keys + {run} && (forall r | r in s.runs && r != run :: s'.runs[r] == s.runs[r])
            && (run !in s.runs ==> s'.runs[run] == RunRow(original, resolved, epoch, None, None, 1))
            && (run in s.runs ==>
                  var was, row := s.runs[run], s'.runs[run];
                  && row.originalSid == was.originalSid && row.nextNumber == was.nextNumber
                  && row.closedReason == was.closedReason && row.closedAt == was.closedAt
                  && (row.resolvedSid == if resolved != None then resolved else was.resolvedSid)
                  && (row.epoch == if epoch != None then epoch else was.epoch))
  {
  }

  /** A seal: the first reason and time stay; exactly the accepted steers of the run end, with the reason as their error. */
  lemma SealIs(s: Store, run: RunKey, reason: string, now: real)
    ensures var s' := SealRun(s, run, reason, now);
            && s'.batches == s.batches && s'.purged == s.purged && |s'.steers| == |s.steers|
            && s'.runs.Keys == s.runs.Keys + {run} && (forall r | r in s.runs && r != run :: s'.runs[r] == s.runs[r])
            && (run !in s.runs ==> s'.runs[run] == RunRow(None, None, None, Some(reason), Some(now), 1))
            && (run in s.runs ==>
                  && (s'.runs[run].closedReason == if s.runs[run].closedReason == None then Some(reason) else s.runs[run].closedReason)
                  && (s'.runs[run].closedAt == if s.runs[run].closedAt == None then Some(now) else s.runs[run].closedAt)
                  && s'.runs[run] == s.runs[run].(closedReason := s'.runs[run].closedReason, closedAt := s'.runs[run].closedAt))
            && (forall i | 0 <= i < |s.steers| ::
                  s'.steers[i] == if s.steers[i].id.run == run && s.steers[i].state == Accepted
                                  then s.steers[i].(state := NotDelivered, error := Some(reason), updatedAt := now) else s.steers[i])
  {
  }

  /** A claim: what it answers, and that it stages exactly the accepted steers of an open run, in the order of the table. */
  lemma ClaimIs(s: Store, run: RunKey, batch: BatchId, now: real) returns (at: seq<nat>)
    ensures (forall j, k | 0 <= j < k < |at| :: at[j] < at[k]) && (forall k | 0 <= k < |at| :: at[k] < |s.steers|)
    ensures forall i: nat | i < |s.steers| :: i in at <==> s.steers[i].id.run == run && s.steers[i].state == Accepted
    ensures var (s', c) := ClaimBatch(s, run, batch, now);
            var open := run in s.runs && s.runs[run].closedReason == None;
            && (c == Nothing <==> !open || at == [])
            && (c == BatchIdTaken <==> open && at != [] && batch in s.batches)
            && (!c.Claimed? ==> s' == s)
            && (c.Claimed? ==>
                  && |c.items| == |at| && (forall k | 0 <= k < |at| :: c.items[k] == s.steers[at[k]])
                  && s'.runs == s.runs && s'.purged == s.purged && |s'.steers| == |s.steers|
                  && batch in s'.batches && s'.batches == s.batches[batch := s'.batches[batch]]
                  && var b := s'.batches[batch];
                     && b.run == run && b.state == Staged && b.row == None && b.createdAt == now
                     && |b.ordered| == |at| && forall k | 0 <= k < |at| :: b.ordered[k] == s.steers[at[k]].id)
  {
    at := AcceptedAre(s.steers, run);
  }

  lemma ClaimStages(s: Store, run: RunKey, batch: BatchId, now: real, i: nat)
    requires i < |s.steers| && ClaimBatch(s, run, batch, now).1.Claimed?
    ensures var s' := ClaimBatch(s, run, batch, now).0;
            && i < |s'.steers|
            && s'.steers[i] == if s.steers[i].id.run == run && s.steers[i].state == Accepted
                               then s.steers[i].(state := Staged, batch := Some(batch), updatedAt := now) else s.steers[i]
  {
  }

  /** A confirmation promotes a known batch that is not delivered yet, with the row as evidence for it and each of its steers. */
  lemma ConfirmIs(s: Store, batch: BatchId, row: RowId, now: real)
    ensures var s' := ConfirmBatch(s, batch, row, now);
            if batch in s.batches && s.batches[batch].state != Delivered then
              && s'.runs == s.runs && s'.purged == s.purged && |s'.steers| == |s.steers|
              && s'.batches == s.batches[batch := s.batches[batch].(state := Delivered, row := Some(row))]
              && forall i | 0 <= i < |s.steers| ::
                   s'.steers[i] == if s.steers[i].batch == Some(batch)
                                   then s.steers[i].(state := Delivered, row := Some(row), error := None, updatedAt := now) else s.steers[i]
            else s' == s
  {
  }

  /** A doubt: the outcome is unknown, with its reason; a row that was known stays known. */
  lemma DoubtIs(s: Store, batch: BatchId, reason: string, now: real)
    ensures var s' := MarkUnknown(s, batch, reason, now);
            if batch in s.batches && s.batches[batch].state != Delivered then
              && s'.runs == s.runs && s'.purged == s.purged && |s'.steers| == |s.steers|
              && s'.batches == s.batches[batch := s.batches[batch].(state := OutcomeUnknown)]
              && forall i | 0 <= i < |s.steers| ::
                   s'.steers[i] == if s.steers[i].batch == Some(batch)
                                   then s.steers[i].(state := OutcomeUnknown, error := Some(reason), updatedAt := now) else s.steers[i]
            else s' == s
  {
  }

  /** Only a committed row with both ids confirms its batch. */
  lemma FlushedIs(s: Store, rows: seq<(Option<BatchId>, Option<RowId>)>, batch: Option<BatchId>, row: Option<RowId>, now: real)
    ensures var before := ConfirmRows(s, rows, now);
            ConfirmRows(s, rows + [(batch, row)], now)
            == if batch == None || batch == Some("") || row == None then before else ConfirmBatch(before, batch.value, row.value, now)
  {
    assert (rows + [(batch, row)])[..|rows|] == rows;
  }

  /** A run is forgotten thirty days after it was closed. */
  predicate LongClosed(s: Store, run: RunKey, now: real) {
    run in s.runs && s.runs[run].closedReason != None && s.runs[run].closedAt != None && s.runs[run].closedAt.value < now - 2592000.0
  }

  lemma {:induction false} KeptAre(steers: seq<Steer>, gone: set<RunKey>) returns (at: seq<nat>)
    ensures Picks(steers, (s: Steer) => s.id.run !in gone, Kept(steers, gone), at)
  {
    at := [];
    if steers != [] {
      var front, last := steers[..|steers| - 1], steers[|steers| - 1];
      at := KeptAre(front, gone);
      PicksOneMore(front, last, (s: Steer) => s.id.run !in gone, Kept(front, gone), at);
      assert steers == front + [last];
      if last.id.run !in gone {
        at := at + [|front|];
      }
    }
  }

  /** A prune keeps every other row in its order, and leaves a tombstone for each row it takes and no other. */
  lemma PruneIs(s: Store, now: real) returns (at: seq<nat>)
    ensures var s' := Prune(s, now);
            && s'.runs == s.runs
            && |at| == |s'.steers| && (forall j, k | 0 <= j < k < |at| :: at[j] < at[k])
            && (forall k | 0 <= k < |at| :: at[k] < |s.steers| && s'.steers[k] == s.steers[at[k]])
            && (forall i: nat | i < |s.steers| :: i in at <==> !LongClosed(s, s.steers[i].id.run, now))
            && (forall b :: b in s'.batches <==> b in s.batches && !LongClosed(s, s.batches[b].run, now))
            && (forall b | b in s'.batches :: s'.batches[b] == s.batches[b])
            && (forall id :: id in s'.purged <==> id in s.purged || (LongClosed(s, id.run, now) && HasRow(s, id)))
  {
    var gone := set run | run in s.runs && Prunable(s.runs, run, now - RECEIPT_TTL);
    assert forall run :: run in gone <==> LongClosed(s, run, now);
    at := KeptAre(s.steers, gone);
    PurgedMembers(s.steers, gone);
  }

  /** The run holds an accepted steer and nothing in this process is bound to it. */
  predicate Abandoned(s: Store, live: set<string>, run: RunKey) {
    run.run !in live && exists i | 0 <= i < |s.steers| :: s.steers[i].id.run == run && s.steers[i].state == Accepted
  }

  /** What a recovery writes into the runs: the abandoned ones are sealed as stale, and no other row changes. */
  lemma RecoverSeals(s: Store, live: set<string>, evidence: map<BatchId, RowId>, now: real)
    requires Quiet(s)
    ensures var s' := Recover(s, live, evidence, now);
            && s'.purged == s.purged
            && (forall run | run in s.runs && !Abandoned(s, live, run) :: run in s'.runs && s'.runs[run] == s.runs[run])
            && (forall run | run in s'.runs && run !in s.runs :: Abandoned(s, live, run))
            && (forall run | Abandoned(s, live, run) ::
                  && run in s'.runs && s'.runs[run].closedReason == Some("restart_stale_epoch")
                  && (run in s.runs && s.runs[run].closedAt == None ==> s'.runs[run].closedAt == Some(now)))
  {
    var gone := StaleRuns(s, live);
    assert forall run :: run in gone <==> Abandoned(s, live, run);
  }

  /** And into the batches: a staged one is delivered by the row the history shows for it, or unknown. */
  lemma RecoverSettles(s: Store, live: set<string>, evidence: map<BatchId, RowId>, now: real)
    ensures var s' := Recover(s, live, evidence, now);
            && s'.batches.Keys == s.batches.Keys
            && forall b | b in s.batches ::
                 s'.batches[b] == if s.batches[b].state != Staged then s.batches[b]
                                  else if b in evidence then s.batches[b].(state := Delivered, row := Some(evidence[b]))
                                  else s.batches[b].(state := OutcomeUnknown)
  {
  }

  /** And into the steers, with the reason in each row. */
  lemma RecoverMarks(s: Store, live: set<string>, evidence: map<BatchId, RowId>, now: real, i: nat)
    requires Valid(s) && i < |s.steers|
    ensures var s' := Recover(s, live, evidence, now);
            var was := s.steers[i];
            && |s'.steers| == |s.steers|
            && s'.steers[i] ==
               if was.state == Accepted && was.id.run.run !in live then
                 was.(state := NotDelivered, error := Some("restart_stale_epoch"), updatedAt := now)
               else if was.state == Staged && was.batch.Some? && was.batch.value in evidence then
                 was.(state := Delivered, row := Some(evidence[was.batch.value]), error := None, updatedAt := now)
               else if was.state == Staged then
                 was.(state := OutcomeUnknown, error := Some("restart_unconfirmed"), updatedAt := now)
               else was
  {
    StaleRunsAre(s, live);
  }
}
