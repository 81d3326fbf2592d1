/** One HTTP request that carries a wake batch: the evidence it stamps on its way, and how it settles when it fails. */
module WakeRequest {
  import opened Basics
  import opened WakeLedger
  import opened WakeLedgerStore
  import opened WakeDispatch

  datatype Stamps = Stamps(handoff: bool, runId: Option<RunId>, launched: bool)

  /** What a request has stamped when it got so far; the live lane stamps only after its turn is over. */
  function StampsAt(p: Progress): Stamps {
    match p
    case Entered => Stamps(false, None, false)
    case LaneRan => Stamps(false, None, false)
    case HandedOff => Stamps(true, None, false)
    case RunStamped(run) => Stamps(false, Some(run), false)
    case Launched(run) => Stamps(false, Some(run), true)
  }

  /** The live chat lane: it declines, takes the turn, or raises, before or after the turn ran. */
  datatype Lane = Declines | Takes | Raises(ran: bool)

  /** What the inner handler meets on its way: limits, a bad request, the lane, failures around the run id. */
  datatype Course = Course(limited: bool, rejected: bool, lane: Lane, failsBefore: bool, run: RunId, failsBetween: bool)

  function Reached(c: Course): Progress {
    if c.limited || c.rejected then Entered
    else match c.lane
      case Raises(ran) => if ran then LaneRan else Entered
      case Takes => HandedOff
      case Declines => if c.failsBefore then Entered else if c.failsBetween then RunStamped(c.run) else Launched(c.run)
  }

  /** Every point a request can reach is reached on some course. */
  lemma EveryPointIsReached(p: Progress) returns (c: Course)
    ensures Reached(c) == p
  {
    c := match p
      case Entered => Course(true, false, Declines, false, "", false)
      case LaneRan => Course(false, false, Raises(true), false, "", false)
      case HandedOff => Course(false, false, Takes, false, "", false)
      case RunStamped(run) => Course(false, false, Declines, false, run, true)
      case Launched(run) => Course(false, false, Declines, false, run, false);
  }

  /** How the inner handler ends. */
  datatype Ending = Answered(status: nat) | Raised

  predicate Failed(e: Ending) {
    e.Raised? || e.status >= 400
  }

  /** A settlement acts only on a batch that is still dispatching for this session. */
  predicate StillDispatching(l: Ledger, batch: BatchId, resolved: SessionId) {
    batch in l.batches && l.batches[batch].session == resolved && l.batches[batch].state == Dispatching
  }

  function Settled(l: Ledger, batch: BatchId, resolved: SessionId, p: Progress, runEnded: Option<bool>, now: real): Ledger {
    if StillDispatching(l, batch, resolved) then WakeDispatch.Settle(l, Attempt(batch, resolved, p, true), runEnded, now) else l
  }

  function Served(l: Ledger, batch: BatchId, resolved: SessionId, input: Option<string>, p: Progress, ending: Ending,
                  runEnded: Option<bool>, now: real, later: real): (Ledger, Option<GateError>)
  {
    var (l', refused) := Gate(l, batch, resolved, input, now);
    (if refused.None? && Failed(ending) then Settled(l', batch, resolved, p, runEnded, later) else l', refused)
  }

  class Launch {
    var handoff: bool
    var runId: Option<RunId>
    var launched: bool

    constructor ()
      ensures View() == StampsAt(Entered)
    {
      handoff, runId, launched := false, None, false;
    }

    function View(): Stamps
      reads this
    {
      Stamps(handoff, runId, launched)
    }

    /**
     The inner handler. A turn that is stamped as handed off or launched did execute; one that executed is
     unstamped exactly when the live lane raised after it ran; a run id is stamped before its task exists, and
     never beside a handoff.
     */
    method Handle(c: Course) returns (executed: bool)
      requires View() == StampsAt(Entered)
      modifies this
      ensures View() == StampsAt(Reached(c)) && (executed <==> Executed(Reached(c)))
      ensures executed <==> !c.limited && !c.rejected
                            && (c.lane == Takes || c.lane == Raises(true) || (c.lane == Declines && !c.failsBefore && !c.failsBetween))
      ensures handoff <==> !c.limited && !c.rejected && c.lane == Takes
      ensures runId == if !c.limited && !c.rejected && c.lane == Declines && !c.failsBefore then Some(c.run) else None
      ensures launched <==> !c.limited && !c.rejected && c.lane == Declines && !c.failsBefore && !c.failsBetween
      ensures handoff || launched ==> executed
      ensures executed && !handoff && !launched <==> !c.limited && !c.rejected && c.lane == Raises(true)
      ensures launched ==> runId.Some?
      ensures runId.Some? ==> !handoff && runId == Some(c.run)
    {
      executed := false;
      if c.limited || c.rejected {
        return;
      }
      if c.lane.Raises? {
        return c.lane.ran;
      }
      if c.lane.Takes? {
        executed := true;
        handoff := true;
        return;
      }
      if c.failsBefore {
        return;
      }
      runId := Some(c.run);
      if c.failsBetween {
        return;
      }
      executed := true;
      launched := true;
    }
  }

  /** Nothing stamped proves nothing launched; a known run is reported, anything else is consumed without a second try. */
  method Settle(store: Store, batch: BatchId, resolved: SessionId, evidence: Launch, runEnded: Option<bool>, now: real, ghost p: Progress)
    requires evidence.View() == StampsAt(p)
    modifies store
    ensures store.View() == Settled(old(store.View()), batch, resolved, p, runEnded, now)
  {
    if batch !in store.batches || store.batches[batch].session != resolved || store.batches[batch].state != Dispatching {
      return;
    }
    var proven := evidence.launched || evidence.handoff || evidence.runId.Some?;
    if !proven {
      store.FailDispatch(batch, now);
      return;
    }
    if evidence.runId.Some? && runEnded.Some? {
      if runEnded.value {
        var r := store.Report(batch, resolved, ClaimTerminal, None, now);
      } else {
        var r := store.Report(batch, resolved, ClaimAccepted, evidence.runId, now);
      }
      return;
    }
    var r := store.Report(batch, resolved, ClaimUncertain, None, now);
  }

  /** The wrapper around the stream route: the door first, then the handler, and a settlement when it fails. */
  method Stream(store: Store, batch: BatchId, resolved: SessionId, input: Option<string>, course: Course, ending: Ending,
                runEnded: Option<bool>, now: real, later: real) returns (refused: Option<GateError>)
    modifies store
    ensures (store.View(), refused) == Served(old(store.View()), batch, resolved, input, Reached(course), ending, runEnded, now, later)
  {
    refused := store.GateDispatch(batch, resolved, input, now);
    if refused.Some? {
      return;
    }
    var launch := new Launch();
    var executed := launch.Handle(course);
    if Failed(ending) {
      Settle(store, batch, resolved, launch, runEnded, later, Reached(course));
    }
  }

  // ---------------------------------------------------------------- a request is a sequence of events

  function Steps(id: nat, p: Progress): seq<Event> {
    match p
    case Entered => []
    case LaneRan => [LaneExecutes(id)]
    case HandedOff => [LaneExecutes(id), StampHandoff(id)]
    case RunStamped(run) => [StampRun(id, run)]
    case Launched(run) => [StampRun(id, run), LaunchTask(id)]
  }

  function Closing(id: nat, ending: Ending, runEnded: Option<bool>, later: real): seq<Event> {
    if Failed(ending) then [BeginSettle(id), FinishSettle(id, runEnded, later)] else [RequestEnds(id)]
  }

  /** The handler's steps move the one attempt and record the execution, if there was one. */
  lemma StepsReach(w: World, id: nat, p: Progress)
    requires id in w.attempts && w.attempts[id].progress == Entered && !w.attempts[id].settling
    ensures var a := w.attempts[id];
            RunFrom(w, Steps(id, p)) == World(w.ledger, w.attempts[id := a.(progress := p)],
                                              if Executed(p) then w.launches + [a.batch] else w.launches)
  {
    match p
    case Entered => assert w.attempts[id := w.attempts[id].(progress := p)] == w.attempts;
    case LaneRan => RunOne(w, LaneExecutes(id));
    case HandedOff => RunTwo(w, LaneExecutes(id), StampHandoff(id));
    case RunStamped(run) => RunOne(w, StampRun(id, run));
    case Launched(run) => RunTwo(w, StampRun(id, run), LaunchTask(id));
  }

  lemma RunOne(w: World, e: Event)
    ensures RunFrom(w, [e]) == Apply(w, e)
  {
    assert [e][1..] == [];
  }

  lemma RunTwo(w: World, e: Event, f: Event)
    ensures RunFrom(w, [e, f]) == Apply(Apply(w, e), f)
  {
    assert [e, f][1..] == [f];
    RunOne(Apply(w, e), f);
  }

  lemma {:induction false} RunJoin(w: World, a: seq<Event>, b: seq<Event>)
    ensures RunFrom(w, a + b) == RunFrom(RunFrom(w, a), b)
    decreases |a|
  {
    if a == [] {
      assert a + b == b;
    } else {
      assert (a + b)[1..] == a[1..] + b;
      RunJoin(Apply(w, a[0]), a[1..], b);
    }
  }

  /** The settlement of a failed request, or its plain end, as events. */
  lemma ClosingSettles(w: World, id: nat, ending: Ending, runEnded: Option<bool>, later: real)
    requires id in w.attempts && !w.attempts[id].settling
    ensures var a := w.attempts[id];
            RunFrom(w, Closing(id, ending, runEnded, later))
            == World(if Failed(ending) then Settled(w.ledger, a.batch, a.resolved, a.progress, runEnded, later) else w.ledger,
                     w.attempts - {id}, w.launches)
  {
    var a := w.attempts[id];
    if Failed(ending) {
      RunTwo(w, BeginSettle(id), FinishSettle(id, runEnded, later));
      if StillDispatching(w.ledger, a.batch, a.resolved) {
        assert w.attempts[id := a.(settling := true)] - {id} == w.attempts - {id};
      }
    } else {
      RunOne(w, RequestEnds(id));
    }
  }

  /**
   A whole request that nothing interrupts is a sequence of the events whole runs are made of: the ledger
   it leaves is the one the wrapper leaves, and it executes its batch exactly when it got past the door
   and as far as a turn.
   */
  lemma RequestIsEvents(w: World, id: nat, batch: BatchId, resolved: SessionId, input: Option<string>, p: Progress, ending: Ending,
                        runEnded: Option<bool>, now: real, later: real)
    requires id !in w.attempts
    ensures var (l, refused) := Served(w.ledger, batch, resolved, input, p, ending, runEnded, now, later);
            var events := [PassGate(id, batch, resolved, input, now)]
                          + (if refused.Some? then [] else Steps(id, p) + Closing(id, ending, runEnded, later));
            RunFrom(w, events) == World(l, w.attempts, if refused.None? && Executed(p) then w.launches + [batch] else w.launches)
  {
    var gate := PassGate(id, batch, resolved, input, now);
    var (l1, refused) := Gate(w.ledger, batch, resolved, input, now);
    RunOne(w, gate);
    var w1 := Apply(w, gate);
    if refused.Some? {
      assert [gate] + [] == [gate];
    } else {
      StepsReach(w1, id, p);
      var w2 := RunFrom(w1, Steps(id, p));
      ClosingSettles(w2, id, ending, runEnded, later);
      RunJoin(w1, Steps(id, p), Closing(id, ending, runEnded, later));
      RunJoin(w, [gate], Steps(id, p) + Closing(id, ending, runEnded, later));
      assert w2.attempts - {id} == w.attempts;
    }
  }
}
