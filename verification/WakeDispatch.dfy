/**
 Who runs a wake batch: the HTTP requests that pass the dispatch door, the evidence they stamp, the
 way they settle, and everything else that moves the ledger meanwhile. Runs are finite sequences of
 events in any order; an event that is not enabled changes nothing.
 */
module WakeDispatch {
  import opened Basics
  import opened WakeLedger
  import opened WakeLedgerProofs

  /**
   How far one admitted request got. `LaneRan` is the interval inside the live chat lane: the turn has
   executed but the request has not stamped the handoff yet.
   */
  datatype Progress = Entered | LaneRan | HandedOff | RunStamped(run: RunId) | Launched(run: RunId)

  datatype Attempt = Attempt(batch: BatchId, resolved: SessionId, progress: Progress, settling: bool)

  /** `launches` records, in order, every batch whose turn executed. */
  datatype World = World(ledger: Ledger, attempts: map<nat, Attempt>, launches: seq<BatchId>)

  const Start := World(EmptyLedger, map[], [])

  datatype Event =
    | Admission(env: AdmitEnv, resolved: SessionId, keys: seq<Key>, batch: BatchId, canonical: string, owner: Option<string>)
    | PassGate(id: nat, batch: BatchId, resolved: SessionId, input: Option<string>, now: real)
    | LaneExecutes(id: nat)
    | StampHandoff(id: nat)
    | StampRun(id: nat, run: RunId)
    | LaunchTask(id: nat)
    | BeginSettle(id: nat)
    | FinishSettle(id: nat, runEnded: Option<bool>, now: real)
    | RequestEnds(id: nat)
    | Crash
    | ClientReport(batch: BatchId, resolved: SessionId, claim: Claimed, runId: Option<RunId>, now: real)
    | ClientRelease(batch: BatchId, resolved: SessionId, now: real)
    | Reconcile(batch: BatchId, seen: Seen, intents: map<Key, Intent>, now: real)

  /** What a failed request may conclude: nothing launched, or a run id to report, or neither. */
  predicate Evidence(p: Progress) {
    p.HandedOff? || p.RunStamped? || p.Launched?
  }

  predicate Executed(p: Progress) {
    p.LaneRan? || p.HandedOff? || p.Launched?
  }

  /** The second half of a settlement. `runEnded` is what this process knows about the stamped run. */
  function Settle(l: Ledger, a: Attempt, runEnded: Option<bool>, now: real): Ledger {
    if !Evidence(a.progress) then DispatchFailed(l, a.batch, now)
    else if (a.progress.RunStamped? || a.progress.Launched?) && runEnded.Some? then
      if runEnded.value then ReportState(l, a.batch, a.resolved, ClaimTerminal, None, now).0
      else ReportState(l, a.batch, a.resolved, ClaimAccepted, Some(a.progress.run), now).0
    else ReportState(l, a.batch, a.resolved, ClaimUncertain, None, now).0
  }

  function Move(w: World, id: nat, progress: Progress): World
    requires id in w.attempts
  {
    w.(attempts := w.attempts[id := w.attempts[id].(progress := progress)])
  }

  predicate At(w: World, id: nat, progress: Progress) {
    id in w.attempts && !w.attempts[id].settling && w.attempts[id].progress == progress
  }

  function Apply(w: World, e: Event): World {
    match e
    case Admission(env, resolved, keys, batch, canonical, owner) =>
      if Distinct(keys) then w.(ledger := AdmitKeys(w.ledger, env, resolved, keys, batch, canonical, owner).0) else w
    case PassGate(id, batch, resolved, input, now) =>
      if id in w.attempts then w
      else
        var (l, answer) := Gate(w.ledger, batch, resolved, input, now);
        if answer.Some? then w.(ledger := l)
        else w.(ledger := l, attempts := w.attempts[id := Attempt(batch, resolved, Entered, false)])
    case LaneExecutes(id) =>
      if At(w, id, Entered) then Move(w, id, LaneRan).(launches := w.launches + [w.attempts[id].batch]) else w
    case StampHandoff(id) =>
      if At(w, id, LaneRan) then Move(w, id, HandedOff) else w
    case StampRun(id, run) =>
      if At(w, id, Entered) then Move(w, id, RunStamped(run)) else w
    case LaunchTask(id) =>
      if id in w.attempts && !w.attempts[id].settling && w.attempts[id].progress.RunStamped? then
        Move(w, id, Launched(w.attempts[id].progress.run)).(launches := w.launches + [w.attempts[id].batch])
      else w
    case BeginSettle(id) =>
      if id in w.attempts && !w.attempts[id].settling then
        var a := w.attempts[id];
        if a.batch in w.ledger.batches && w.ledger.batches[a.batch].session == a.resolved
           && w.ledger.batches[a.batch].state == Dispatching
        then w.(attempts := w.attempts[id := a.(settling := true)])
        else w.(attempts := w.attempts - {id})
      else w
    case FinishSettle(id, runEnded, now) =>
      if id in w.attempts && w.attempts[id].settling then
        w.(ledger := Settle(w.ledger, w.attempts[id], runEnded, now), attempts := w.attempts - {id})
      else w
    case RequestEnds(id) => w.(attempts := w.attempts - {id})
    case Crash => w.(attempts := map[])
    case ClientReport(batch, resolved, claim, runId, now) =>
      w.(ledger := ReportState(w.ledger, batch, resolved, claim, runId, now).0)
    case ClientRelease(batch, resolved, now) =>
      w.(ledger := Release(w.ledger, batch, resolved, now).0)
    case Reconcile(batch, seen, intents, now) =>
      w.(ledger := SettleHistorical(w.ledger, batch, seen, intents, now).0)
  }

  function Run(es: seq<Event>): (w: World) {
    if es == [] then Start else Apply(Run(es[..|es| - 1]), es[|es| - 1])
  }

  // ---------------------------------------------------------------- the claims

  /** A batch that may still be dispatched, or whose claims were returned, has never executed. */
  ghost predicate NeverLaunchedWhileOpen(w: World) {
    forall b | b in w.ledger.batches && (w.ledger.batches[b].state == Reserved || w.ledger.batches[b].state == Released) ::
      b !in w.launches
  }

  /**
   The one unsafe move of the code: a request fails after the live lane executed its turn and before
   the handoff was stamped, and the settlement finds the batch still dispatching. It is decided by
   the guard of the branch that returns the batch to reserved.
   */
  ghost predicate UnstampedRevert(w: World, e: Event) {
    && e.FinishSettle? && e.id in w.attempts && w.attempts[e.id].settling
    && w.attempts[e.id].progress == LaneRan
    && w.attempts[e.id].batch in w.ledger.batches
    && w.ledger.batches[w.attempts[e.id].batch].state == Dispatching
    && w.ledger.batches[w.attempts[e.id].batch].runId.None?
  }

  function Occurrences<T(==)>(s: seq<T>, x: T): nat {
    if s == [] then 0 else Occurrences(s[..|s| - 1], x) + (if s[|s| - 1] == x then 1 else 0)
  }

  /** How many executed turns carried this report. */
  function KeyLaunches(w: World, k: Key): nat {
    KeyLaunchesIn(w.ledger.batches, w.launches, k)
  }

  function KeyLaunchesIn(batches: map<BatchId, Batch>, launches: seq<BatchId>, k: Key): nat {
    if launches == [] then 0
    else
      var b := launches[|launches| - 1];
      KeyLaunchesIn(batches, launches[..|launches| - 1], k) + (if b in batches && k in batches[b].keys then 1 else 0)
  }

  // ---------------------------------------------------------------- the invariant

  ghost predicate LedgerInv(l: Ledger) {
    Sound(l) && WithinQuota(l)
  }

  /** Requests hold distinct batches past the door, and know whether their batch executed. */
  ghost predicate DispatchInv(batches: map<BatchId, Batch>, attempts: map<nat, Attempt>, launches: seq<BatchId>) {
    && (forall i | i in attempts :: Held(batches, attempts[i].batch))
    && (forall i, j | i in attempts && j in attempts && i != j :: attempts[i].batch != attempts[j].batch)
    && (forall b | b in launches :: Held(batches, b))
    && (forall i | i in attempts :: attempts[i].batch in launches <==> Executed(attempts[i].progress))
    && (forall b :: Occurrences(launches, b) <= 1)
  }

  /** The batch is past the door: neither open for dispatch nor released. */
  predicate Held(batches: map<BatchId, Batch>, b: BatchId) {
    b in batches && batches[b].state != Reserved && batches[b].state != Released
  }

  ghost predicate Inv(w: World) {
    LedgerInv(w.ledger) && DispatchInv(w.ledger.batches, w.attempts, w.launches)
  }

  // The ledger half holds after every step, the unsafe one included.

  lemma AdmitLedgerInv(l: Ledger, env: AdmitEnv, resolved: SessionId, keys: seq<Key>, batch: BatchId, canonical: string, owner: Option<string>)
    requires LedgerInv(l) && Distinct(keys)
    ensures LedgerInv(AdmitKeys(l, env, resolved, keys, batch, canonical, owner).0)
  {
    AdmitSound(l, env, resolved, keys, batch, canonical, owner);
    AdmitWithinQuota(l, env, resolved, keys, batch, canonical, owner);
  }

  lemma GateLedgerInv(l: Ledger, batch: BatchId, resolved: SessionId, input: Option<string>, now: real)
    requires LedgerInv(l)
    ensures LedgerInv(Gate(l, batch, resolved, input, now).0)
  {
    GateSound(l, batch, resolved, input, now);
    NoNewBatchesWithinQuota(l, Gate(l, batch, resolved, input, now).0);
  }

  lemma ReportLedgerInv(l: Ledger, batch: BatchId, resolved: SessionId, claim: Claimed, runId: Option<RunId>, now: real)
    requires LedgerInv(l)
    ensures LedgerInv(ReportState(l, batch, resolved, claim, runId, now).0)
  {
    ReportSound(l, batch, resolved, claim, runId, now);
    NoNewBatchesWithinQuota(l, ReportState(l, batch, resolved, claim, runId, now).0);
  }

  lemma DispatchFailedLedgerInv(l: Ledger, batch: BatchId, now: real)
    requires LedgerInv(l)
    ensures LedgerInv(DispatchFailed(l, batch, now))
  {
    DispatchFailedSound(l, batch, now);
    NoNewBatchesWithinQuota(l, DispatchFailed(l, batch, now));
  }

  lemma SettleLedgerInv(l: Ledger, a: Attempt, runEnded: Option<bool>, now: real)
    requires LedgerInv(l)
    ensures LedgerInv(Settle(l, a, runEnded, now))
  {
    DispatchFailedLedgerInv(l, a.batch, now);
    ReportLedgerInv(l, a.batch, a.resolved, ClaimTerminal, None, now);
    ReportLedgerInv(l, a.batch, a.resolved, ClaimUncertain, None, now);
    if a.progress.RunStamped? || a.progress.Launched? {
      ReportLedgerInv(l, a.batch, a.resolved, ClaimAccepted, Some(a.progress.run), now);
    }
  }

  lemma ReleaseLedgerInv(l: Ledger, batch: BatchId, resolved: SessionId, now: real)
    requires LedgerInv(l)
    ensures LedgerInv(Release(l, batch, resolved, now).0)
  {
    ReleaseReturnsItsClaims(l, batch, resolved, now);
    NoNewBatchesWithinQuota(l, Release(l, batch, resolved, now).0);
  }

  lemma HistoricalLedgerInv(l: Ledger, batch: BatchId, seen: Seen, intents: map<Key, Intent>, now: real)
    requires LedgerInv(l)
    ensures LedgerInv(SettleHistorical(l, batch, seen, intents, now).0)
  {
    SettleSound(l, batch, seen, intents, now);
    NoNewBatchesWithinQuota(l, SettleHistorical(l, batch, seen, intents, now).0);
  }

  lemma StepKeepsLedgerInv(w: World, e: Event)
    requires LedgerInv(w.ledger)
    ensures LedgerInv(Apply(w, e).ledger)
  {
    match e
    case Admission(env, resolved, keys, batch, canonical, owner) =>
      if Distinct(keys) { AdmitLedgerInv(w.ledger, env, resolved, keys, batch, canonical, owner); }
    case PassGate(id, batch, resolved, input, now) => GateLedgerInv(w.ledger, batch, resolved, input, now);
    case FinishSettle(id, runEnded, now) =>
      if id in w.attempts && w.attempts[id].settling { SettleLedgerInv(w.ledger, w.attempts[id], runEnded, now); }
    case ClientReport(batch, resolved, claim, runId, now) => ReportLedgerInv(w.ledger, batch, resolved, claim, runId, now);
    case ClientRelease(batch, resolved, now) => ReleaseLedgerInv(w.ledger, batch, resolved, now);
    case Reconcile(batch, seen, intents, now) => HistoricalLedgerInv(w.ledger, batch, seen, intents, now);
    case _ =>
  }

  /** The quota binds at every time and over every run, clocks that run backwards included. */
  lemma {:induction false} QuotaHoldsForever(es: seq<Event>)
    ensures LedgerInv(Run(es).ledger)
  {
    if es == [] {
      StartHolds();
    } else {
      QuotaHoldsForever(es[..|es| - 1]);
      StepKeepsLedgerInv(Run(es[..|es| - 1]), es[|es| - 1]);
    }
  }

  /** No batch past the door comes back: so with every ledger operation but a failed dispatch. */
  ghost predicate OnlyForward(l: Ledger, l': Ledger) {
    forall b | Held(l.batches, b) :: Held(l'.batches, b)
  }

  lemma {:induction false} OccurrencesMember<T>(s: seq<T>, x: T)
    ensures x in s <==> Occurrences(s, x) > 0
  {
    if s != [] {
      OccurrencesMember(s[..|s| - 1], x);
      assert s == s[..|s| - 1] + [s[|s| - 1]];
    }
  }

  lemma OccurrencesAppend<T>(s: seq<T>, y: T)
    ensures forall x :: Occurrences(s + [y], x) == Occurrences(s, x) + (if x == y then 1 else 0)
  {
    assert (s + [y])[..|s|] == s;
  }

  lemma LaunchKeepsInv(batches: map<BatchId, Batch>, attempts: map<nat, Attempt>, launches: seq<BatchId>, id: nat, progress: Progress)
    requires DispatchInv(batches, attempts, launches)
    requires id in attempts && !Executed(attempts[id].progress) && Executed(progress)
    ensures DispatchInv(batches, attempts[id := attempts[id].(progress := progress)], launches + [attempts[id].batch])
  {
    var b := attempts[id].batch;
    OccurrencesAppend(launches, b);
    OccurrencesMember(launches, b);
    forall c
      ensures Occurrences(launches + [b], c) <= 1
    {
      assert Occurrences(launches, c) <= 1;
    }
  }

  lemma MoveKeepsInv(batches: map<BatchId, Batch>, attempts: map<nat, Attempt>, launches: seq<BatchId>, id: nat, moved: Attempt)
    requires DispatchInv(batches, attempts, launches) && id in attempts
    requires moved.batch == attempts[id].batch && Executed(moved.progress) == Executed(attempts[id].progress)
    ensures DispatchInv(batches, attempts[id := moved], launches)
  {
  }

  lemma AdmitForward(l: Ledger, env: AdmitEnv, resolved: SessionId, keys: seq<Key>, batch: BatchId, canonical: string, owner: Option<string>)
    ensures OnlyForward(l, AdmitKeys(l, env, resolved, keys, batch, canonical, owner).0)
  {
  }

  lemma ReportForward(l: Ledger, batch: BatchId, resolved: SessionId, claim: Claimed, runId: Option<RunId>, now: real)
    ensures OnlyForward(l, ReportState(l, batch, resolved, claim, runId, now).0)
  {
  }

  lemma ReleaseForward(l: Ledger, batch: BatchId, resolved: SessionId, now: real)
    ensures OnlyForward(l, Release(l, batch, resolved, now).0)
  {
  }

  lemma SettleForward(l: Ledger, batch: BatchId, seen: Seen, intents: map<Key, Intent>, now: real)
    ensures OnlyForward(l, SettleHistorical(l, batch, seen, intents, now).0)
  {
  }

  /** The door admits a request only to a batch nobody holds and nobody ran. */
  lemma GateKeepsInv(w: World, id: nat, batch: BatchId, resolved: SessionId, input: Option<string>, now: real)
    requires DispatchInv(w.ledger.batches, w.attempts, w.launches) && id !in w.attempts
    ensures var w' := Apply(w, PassGate(id, batch, resolved, input, now)); DispatchInv(w'.ledger.batches, w'.attempts, w'.launches)
  {
    if Gate(w.ledger, batch, resolved, input, now).1.None? {
      assert !Held(w.ledger.batches, batch);
    }
  }

  /** A failed dispatch that had executed nothing may return its batch to reserved. */
  lemma RevertKeepsInv(l: Ledger, attempts: map<nat, Attempt>, launches: seq<BatchId>, id: nat, now: real)
    requires DispatchInv(l.batches, attempts, launches) && id in attempts && !Executed(attempts[id].progress)
    ensures DispatchInv(DispatchFailed(l, attempts[id].batch, now).batches, attempts - {id}, launches)
  {
  }

  lemma SettleKeepsInv(w: World, id: nat, runEnded: Option<bool>, now: real)
    requires DispatchInv(w.ledger.batches, w.attempts, w.launches) && id in w.attempts && w.attempts[id].settling
    requires !UnstampedRevert(w, FinishSettle(id, runEnded, now))
    ensures DispatchInv(Settle(w.ledger, w.attempts[id], runEnded, now).batches, w.attempts - {id}, w.launches)
  {
    var a := w.attempts[id];
    if !Evidence(a.progress) && a.progress != LaneRan {
      RevertKeepsInv(w.ledger, w.attempts, w.launches, id, now);
    } else {
      ReportForward(w.ledger, a.batch, a.resolved, ClaimTerminal, None, now);
      ReportForward(w.ledger, a.batch, a.resolved, ClaimUncertain, None, now);
      if a.progress.RunStamped? || a.progress.Launched? {
        ReportForward(w.ledger, a.batch, a.resolved, ClaimAccepted, Some(a.progress.run), now);
      }
      assert OnlyForward(w.ledger, Settle(w.ledger, a, runEnded, now));
    }
  }

  lemma StepKeepsDispatchInv(w: World, e: Event)
    requires DispatchInv(w.ledger.batches, w.attempts, w.launches) && !UnstampedRevert(w, e)
    ensures var w' := Apply(w, e); DispatchInv(w'.ledger.batches, w'.attempts, w'.launches)
  {
    var (batches, attempts, launches) := (w.ledger.batches, w.attempts, w.launches);
    match e
    case Admission(env, resolved, keys, batch, canonical, owner) =>
      AdmitForward(w.ledger, env, resolved, keys, batch, canonical, owner);
    case PassGate(id, batch, resolved, input, now) =>
      if id !in attempts { GateKeepsInv(w, id, batch, resolved, input, now); }
    case LaneExecutes(id) => if At(w, id, Entered) { LaunchKeepsInv(batches, attempts, launches, id, LaneRan); }
    case StampHandoff(id) =>
      if At(w, id, LaneRan) { MoveKeepsInv(batches, attempts, launches, id, attempts[id].(progress := HandedOff)); }
    case StampRun(id, run) =>
      if At(w, id, Entered) { MoveKeepsInv(batches, attempts, launches, id, attempts[id].(progress := RunStamped(run))); }
    case LaunchTask(id) =>
      if id in attempts && !attempts[id].settling && attempts[id].progress.RunStamped? {
        LaunchKeepsInv(batches, attempts, launches, id, Launched(attempts[id].progress.run));
      }
    case BeginSettle(id) =>
      if id in attempts { MoveKeepsInv(batches, attempts, launches, id, attempts[id].(settling := true)); }
    case FinishSettle(id, runEnded, now) =>
      if id in attempts && attempts[id].settling { SettleKeepsInv(w, id, runEnded, now); }
    case RequestEnds(id) =>
    case Crash =>
    case ClientReport(batch, resolved, claim, runId, now) => ReportForward(w.ledger, batch, resolved, claim, runId, now);
    case ClientRelease(batch, resolved, now) => ReleaseForward(w.ledger, batch, resolved, now);
    case Reconcile(batch, seen, intents, now) => SettleForward(w.ledger, batch, seen, intents, now);
  }

  lemma StepKeepsInv(w: World, e: Event)
    requires Inv(w) && !UnstampedRevert(w, e)
    ensures Inv(Apply(w, e))
  {
    StepKeepsLedgerInv(w, e);
    StepKeepsDispatchInv(w, e);
  }

  // ---------------------------------------------------------------- whole runs

  /** No step of the run is the unsafe one. */
  ghost predicate NoUnstampedRevert(es: seq<Event>) {
    es != [] ==>
      var front := es[..|es| - 1];
      NoUnstampedRevert(front) && !UnstampedRevert(Run(front), es[|es| - 1])
  }

  /** At every point of the run. */
  ghost predicate AlwaysNeverLaunchedWhileOpen(es: seq<Event>) {
    NeverLaunchedWhileOpen(Run(es)) && (es != [] ==> AlwaysNeverLaunchedWhileOpen(es[..|es| - 1]))
  }

  lemma StartHolds()
    ensures Inv(Start)
  {
    forall session: Option<SessionId>, t: real
      ensures |Window(EmptyLedger, session, t)| <= Limit(session)
    {
      assert Window(EmptyLedger, session, t) == {};
    }
  }

  lemma {:induction false} RunKeepsInv(es: seq<Event>)
    requires NoUnstampedRevert(es)
    ensures Inv(Run(es))
  {
    if es == [] {
      StartHolds();
    } else {
      RunKeepsInv(es[..|es| - 1]);
      StepKeepsInv(Run(es[..|es| - 1]), es[|es| - 1]);
    }
  }

  lemma UnstampedRevertReopens(w: World, e: Event)
    requires Inv(w) && UnstampedRevert(w, e)
    ensures !NeverLaunchedWhileOpen(Apply(w, e))
  {
    var b := w.attempts[e.id].batch;
    assert b in w.launches;
    assert Apply(w, e).ledger.batches[b].state == Reserved;
  }

  /**
   Over every interleaving: a batch that is open or released has never executed, at any point of the
   run, exactly when no request loses the stamp of a turn that the live lane already executed.
   */
  lemma {:induction false} OpenBatchesNeverLaunched(es: seq<Event>)
    ensures AlwaysNeverLaunchedWhileOpen(es) <==> NoUnstampedRevert(es)
  {
    if es != [] {
      var front, last := es[..|es| - 1], es[|es| - 1];
      OpenBatchesNeverLaunched(front);
      if NoUnstampedRevert(front) {
        RunKeepsInv(front);
        if UnstampedRevert(Run(front), last) {
          UnstampedRevertReopens(Run(front), last);
        } else {
          StepKeepsInv(Run(front), last);
        }
      }
    }
  }

  lemma {:induction false} KeyLaunchesAtMostOnce(w: World, launches: seq<BatchId>, k: Key)
    requires Sound(w.ledger)
    requires forall b | b in launches :: b in w.ledger.batches && w.ledger.batches[b].state != Released
    requires forall b :: Occurrences(launches, b) <= 1
    ensures KeyLaunchesIn(w.ledger.batches, launches, k) <= 1
    ensures KeyLaunchesIn(w.ledger.batches, launches, k) == 1 ==>
      k in w.ledger.consumption && w.ledger.consumption[k].batch.Some? && w.ledger.consumption[k].batch.value in launches
  {
    if launches != [] {
      var front, b := launches[..|launches| - 1], launches[|launches| - 1];
      assert launches == front + [b];
      OccurrencesAppend(front, b);
      forall c
        ensures Occurrences(front, c) <= 1
      {
        assert Occurrences(launches, c) <= 1;
      }
      KeyLaunchesAtMostOnce(w, front, k);
      OccurrencesMember(front, b);
      assert Occurrences(launches, b) <= 1;
    }
  }

  /**
   At most one executed turn ever carries a given report, whatever admissions, dispatches, failures,
   crashes, client reports, releases and reconciliations happen around it.
   */
  lemma EachReportRunsAtMostOnce(es: seq<Event>, k: Key)
    requires NoUnstampedRevert(es)
    ensures KeyLaunches(Run(es), k) <= 1
    ensures forall b :: Occurrences(Run(es).launches, b) <= 1
    ensures forall b, c | b in Run(es).ledger.batches && c in Run(es).ledger.batches && b != c
                          && Run(es).ledger.batches[b].state != Released && Run(es).ledger.batches[c].state != Released ::
              Run(es).ledger.batches[b].keys !! Run(es).ledger.batches[c].keys
  {
    RunKeepsInv(es);
    var w := Run(es);
    KeyLaunchesAtMostOnce(w, w.launches, k);
    forall b, c | b in w.ledger.batches && c in w.ledger.batches && b != c
                  && w.ledger.batches[b].state != Released && w.ledger.batches[c].state != Released
      ensures w.ledger.batches[b].keys !! w.ledger.batches[c].keys
    {
      LiveBatchesDisjoint(w.ledger, b, c);
    }
  }

  /** The door never opens for a batch whose turn already executed. */
  lemma DoorStaysShutAfterLaunch(es: seq<Event>, batch: BatchId, resolved: SessionId, input: Option<string>, now: real)
    requires NoUnstampedRevert(es) && batch in Run(es).launches
    ensures Gate(Run(es).ledger, batch, resolved, input, now).1.Some?
  {
    RunKeepsInv(es);
  }

  // ---------------------------------------------------------------- the gap

  /** Two dispatches of one reserved batch; the first loses the stamp of the turn it executed. */
  function LostStamp(batch: BatchId, resolved: SessionId, canonical: string): seq<Event> {
    [PassGate(0, batch, resolved, Some(canonical), 0.0), LaneExecutes(0), BeginSettle(0), FinishSettle(0, None, 0.0),
     PassGate(1, batch, resolved, Some(canonical), 0.0), LaneExecutes(1)]
  }

  function RunFrom(w: World, es: seq<Event>): World
    decreases |es|
  {
    if es == [] then w else RunFrom(Apply(w, es[0]), es[1..])
  }

  lemma {:induction false} RunSplits(es: seq<Event>, rest: seq<Event>)
    ensures Run(es + rest) == RunFrom(Run(es), rest)
    decreases |rest|
  {
    if rest == [] {
      assert es + rest == es;
    } else {
      var longer := es + [rest[0]];
      assert longer[..|longer| - 1] == es;
      assert es + rest == longer + rest[1..];
      RunSplits(longer, rest[1..]);
    }
  }

  lemma LostStampRunsTwice(w: World, batch: BatchId)
    requires w.attempts == map[] && batch in w.ledger.batches
    requires w.ledger.batches[batch].state == Reserved && w.ledger.batches[batch].runId.None?
    ensures var row := w.ledger.batches[batch];
            var after := RunFrom(w, LostStamp(batch, row.session, row.canonicalInput));
            && after.launches == w.launches + [batch, batch]
            && batch in after.ledger.batches && after.ledger.batches[batch].keys == row.keys
  {
    var row := w.ledger.batches[batch];
    var es := LostStamp(batch, row.session, row.canonicalInput);
    var w1 := Apply(w, es[0]);
    assert w1.attempts == map[0 := Attempt(batch, row.session, Entered, false)];
    var w2 := Apply(w1, es[1]);
    var w3 := Apply(w2, es[2]);
    assert w3.attempts == map[0 := Attempt(batch, row.session, LaneRan, true)];
    var w4 := Apply(w3, es[3]);
    assert w4.attempts == map[] && w4.ledger.batches[batch].state == Reserved;
    var w5 := Apply(w4, es[4]);
    var w6 := Apply(w5, es[5]);
    assert w6.launches == w.launches + [batch, batch];
    assert es[1..][1..][1..][1..][1..][1..] == [];
    assert RunFrom(w, es) == RunFrom(w1, es[1..]) == RunFrom(w2, es[1..][1..]) == RunFrom(w3, es[1..][1..][1..])
        == RunFrom(w4, es[1..][1..][1..][1..]) == RunFrom(w5, es[1..][1..][1..][1..][1..]) == w6;
  }

  function OneReport(k: Key): AdmitEnv {
    AdmitEnv(Some(SessionRow(false, false, "app", false, "")), false, map[k := Report(1, 1.0, true, false, Source("", ""))], map[], 10.0)
  }

  lemma ScanOneReport(k: Key)
    ensures ScanKeys(map[], OneReport(k), "session", map[], [k]) == Scan(map[], [Claim(k, 1)], [], [])
    ensures ClaimKeys([Claim(k, 1)]) == {k}
  {
    assert [k][..0] == [];
    assert ScanKeys(map[], OneReport(k), "session", map[], []) == Scan(map[], [], [], []);
    assert [Claim(k, 1)][..0] == [];
  }

  lemma AdmitOneReport(k: Key)
    ensures AdmitKeys(EmptyLedger, OneReport(k), "session", [k], "wb", "read", None).0.batches
         == map["wb" := Batch("session", Reserved, None, None, "read", {k}, 10.0, 10.0, None, None)]
  {
    assert QuotaLeft(map[], "session", 10.0) by {
      assert Counted(map[], Some("session"), 10.0 - QUOTA_WINDOW) == {} && Counted(map[], None, 10.0 - QUOTA_WINDOW) == {};
    }
    ScanOneReport(k);
  }

  /** One report, admitted once, read by two turns. */
  lemma LostStampExample(k: Key) returns (es: seq<Event>)
    ensures KeyLaunches(Run(es), k) == 2 && !NoUnstampedRevert(es)
  {
    var admission := Admission(OneReport(k), "session", [k], "wb", "read", None);
    AdmitOneReport(k);
    assert [admission][..|[admission]| - 1] == [] && Run([]) == Start;
    var w := Run([admission]);
    assert w == Apply(Start, admission);
    LostStampRunsTwice(w, "wb");
    var rest := LostStamp("wb", "session", "read");
    es := [admission] + rest;
    RunSplits([admission], rest);
    TwoLaunches(Run(es), "wb", k);
    if NoUnstampedRevert(es) {
      EachReportRunsAtMostOnce(es, k);
    }
  }

  lemma TwoLaunches(w: World, b: BatchId, k: Key)
    requires w.launches == [b, b] && b in w.ledger.batches && k in w.ledger.batches[b].keys
    ensures KeyLaunches(w, k) == 2
  {
    assert [b, b][..1] == [b] && [b][..0] == [];
    assert KeyLaunchesIn(w.ledger.batches, [b], k) == 1;
  }

  // ---------------------------------------------------------------- the life of a batch

  predicate Ended(s: BatchState) {
    s == Terminal || s == UncertainConsumed || s == Released
  }

  /** What a batch may become: its claims are fixed, its run is named once, an end is final, an accepted run only ends. */
  predicate Becomes(b: Batch, c: Batch) {
    && c.session == b.session && c.keys == b.keys && c.canonicalInput == b.canonicalInput
    && c.createdAt == b.createdAt && c.owner == b.owner
    && (b.runId.Some? ==> c.runId == b.runId)
    && (Ended(b.state) ==> c == b)
    && (b.state == Accepted ==> c.state == Accepted || c.state == Terminal || c.state == UncertainConsumed)
  }

  ghost predicate LedgerLives(l: Ledger, l': Ledger) {
    forall b | b in l.batches :: b in l'.batches && Becomes(l.batches[b], l'.batches[b])
  }

  lemma AdmitLives(l: Ledger, env: AdmitEnv, resolved: SessionId, keys: seq<Key>, batch: BatchId, canonical: string, owner: Option<string>)
    ensures LedgerLives(l, AdmitKeys(l, env, resolved, keys, batch, canonical, owner).0)
  {
  }

  lemma ReportLives(l: Ledger, batch: BatchId, resolved: SessionId, claim: Claimed, runId: Option<RunId>, now: real)
    requires Sound(l)
    ensures LedgerLives(l, ReportState(l, batch, resolved, claim, runId, now).0)
  {
  }

  lemma SettleLives(l: Ledger, a: Attempt, runEnded: Option<bool>, now: real)
    requires Sound(l)
    ensures LedgerLives(l, Settle(l, a, runEnded, now))
  {
    ReportLives(l, a.batch, a.resolved, ClaimTerminal, None, now);
    ReportLives(l, a.batch, a.resolved, ClaimUncertain, None, now);
    if a.progress.RunStamped? || a.progress.Launched? {
      ReportLives(l, a.batch, a.resolved, ClaimAccepted, Some(a.progress.run), now);
    }
  }

  lemma GateLives(l: Ledger, batch: BatchId, resolved: SessionId, input: Option<string>, now: real)
    ensures LedgerLives(l, Gate(l, batch, resolved, input, now).0)
  {
  }

  lemma ReleaseLives(l: Ledger, batch: BatchId, resolved: SessionId, now: real)
    ensures LedgerLives(l, Release(l, batch, resolved, now).0)
  {
  }

  lemma HistoricalLives(l: Ledger, batch: BatchId, seen: Seen, intents: map<Key, Intent>, now: real)
    ensures LedgerLives(l, SettleHistorical(l, batch, seen, intents, now).0)
  {
  }

  lemma StepLives(w: World, e: Event)
    requires Sound(w.ledger)
    ensures LedgerLives(w.ledger, Apply(w, e).ledger)
  {
    match e
    case Admission(env, resolved, keys, batch, canonical, owner) => AdmitLives(w.ledger, env, resolved, keys, batch, canonical, owner);
    case PassGate(id, batch, resolved, input, now) => GateLives(w.ledger, batch, resolved, input, now);
    case FinishSettle(id, runEnded, now) =>
      if id in w.attempts { SettleLives(w.ledger, w.attempts[id], runEnded, now); }
    case ClientReport(batch, resolved, claim, runId, now) => ReportLives(w.ledger, batch, resolved, claim, runId, now);
    case ClientRelease(batch, resolved, now) => ReleaseLives(w.ledger, batch, resolved, now);
    case Reconcile(batch, seen, intents, now) => HistoricalLives(w.ledger, batch, seen, intents, now);
    case _ =>
  }

  /** Over any further events a batch keeps its claims, its run and its end. */
  lemma {:induction false} BatchesKeepTheirFate(es: seq<Event>, more: seq<Event>)
    ensures LedgerLives(Run(es).ledger, Run(es + more).ledger)
  {
    if more == [] {
      assert es + more == es;
    } else {
      var less := more[..|more| - 1];
      BatchesKeepTheirFate(es, less);
      QuotaHoldsForever(es + less);
      StepLives(Run(es + less), more[|more| - 1]);
      assert (es + more)[..|es + more| - 1] == es + less;
    }
  }
}
