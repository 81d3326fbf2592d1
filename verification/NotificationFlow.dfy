/** One notification delivery, step by step: each step is its own transaction, and a crash may come between any two. */
module NotificationFlow {
  import opened Basics
  import opened NotificationLedger

  /** `channel` and `publishes` are settled before the call; `newId` is the id a new row would get. */
  datatype Request = Request(event: EventId, payload: string, phase: string, channel: string, publishes: bool, newId: DeliveryId)

  datatype Step =
    | Recording | CheckingRead | CheckingState | CheckingChannels | Claiming
    | Publishing(id: DeliveryId) | Noting(id: DeliveryId, outcome: string)
    | Finished(verdict: string)

  function SlotOf(q: Request): Slot {
    Slot(q.event, q.phase, q.channel)
  }

  predicate Silent(kind: string) {
    kind == "cancelled" || kind == "interrupted" || kind == "steer_ready"
  }

  function NameOf(s: State): string {
    match s
    case Pending => "pending"
    case Claimed => "claimed"
    case Reported(outcome) => outcome
  }

  /** The browser and ntfy run beside each other; every other pair of channels excludes one another. */
  predicate Elsewhere(row: Delivery, q: Request) {
    row.slot.event == q.event && row.slot.channel != "none" && row.slot.channel != q.channel
    && {row.slot.channel, q.channel} != {"browser", "ntfy"}
  }

  predicate RoutedElsewhere(l: Ledger, q: Request) {
    exists d :: d in l.deliveries && Elsewhere(l.deliveries[d], q)
  }

  function QueueVerdict(a: QueueAnswer): string {
    match a
    case Queued(_) => "queued"
    case Already(state, _) => "already_" + NameOf(state)
    case QueueIdTaken => "error"
  }

  /** What the output proved: a local accept, a refusal, or nothing (no output at all, or it raised). */
  function OutcomeOf(q: Request, accepted: Option<bool>): string {
    if !q.publishes || accepted.None? then "unknown" else if accepted.value then "enqueued" else "failed"
  }

  function ServerReport(id: DeliveryId, outcome: string, channel: string): Report {
    Report(id, outcome, Some(channel), None, None, None, None)
  }

  /** The next transaction of a delivery. */
  function StepCall(l: Ledger, q: Request, step: Step, accepted: Option<bool>): (Ledger, Step) {
    match step
    case Recording => (RecordEvent(l, q.event, q.payload), if Silent(q.event.kind) then Finished("recorded") else CheckingRead)
    case CheckingRead => (l, if ReadersOf(l, q.event) != {} then Finished("suppressed_read") else CheckingState)
    case CheckingState =>
      var row := RowAt(l, SlotOf(q));
      (l, if row.Some? && row.value.state != Pending then Finished("already_" + NameOf(row.value.state)) else CheckingChannels)
    case CheckingChannels => (l, if RoutedElsewhere(l, q) then Finished("already_claimed_other_channel") else Claiming)
    case Claiming =>
      if q.channel == "browser" && !q.publishes then
        var (l', a) := Queue(l, SlotOf(q), q.newId);
        (l', Finished(QueueVerdict(a)))
      else
        var (l', a) := Claim(l, SlotOf(q), q.newId, "server", None);
        (l', match a case Won(id) => Publishing(id) case Lost(_) => Finished("already_claimed") case ClaimIdTaken => Finished("error"))
    case Publishing(id) => (l, Noting(id, OutcomeOf(q, accepted)))
    case Noting(id, outcome) => (Note(l, ServerReport(id, outcome, q.channel)).0, Finished(outcome))
    case Finished(_) => (l, step)
  }

  function StepsLeft(step: Step): nat {
    match step
    case Recording => 7
    case CheckingRead => 6
    case CheckingState => 5
    case CheckingChannels => 4
    case Claiming => 3
    case Publishing(_) => 2
    case Noting(_, _) => 1
    case Finished(_) => 0
  }

  /** A call that nothing interrupts. */
  function WholeCall(l: Ledger, q: Request, step: Step, accepted: Option<bool>): (Ledger, string, bool)
    decreases StepsLeft(step)
  {
    if step.Finished? then (l, step.verdict, false)
    else
      var (l', next) := StepCall(l, q, step, accepted);
      var (l'', verdict, published) := WholeCall(l', q, next, accepted);
      (l'', verdict, published || (step.Publishing? && q.publishes))
  }

  /** Why a recorded event is not sent, if it is not. */
  function Preflight(l: Ledger, q: Request): Option<string> {
    var row := RowAt(l, SlotOf(q));
    if Silent(q.event.kind) then Some("recorded")
    else if ReadersOf(l, q.event) != {} then Some("suppressed_read")
    else if row.Some? && row.value.state != Pending then Some("already_" + NameOf(row.value.state))
    else if RoutedElsewhere(l, q) then Some("already_claimed_other_channel")
    else None
  }

  lemma WholeCallChecksFirst(l: Ledger, q: Request, accepted: Option<bool>)
    ensures var l' := RecordEvent(l, q.event, q.payload);
            WholeCall(l, q, Recording, accepted)
            == if Preflight(l', q).Some? then (l', Preflight(l', q).value, false) else WholeCall(l', q, Claiming, accepted)
  {
    var l' := RecordEvent(l, q.event, q.payload);
    if !Silent(q.event.kind) {
      assert WholeCall(l, q, Recording, accepted) == WholeCall(l', q, CheckingRead, accepted);
      if ReadersOf(l', q.event) == {} {
        assert WholeCall(l', q, CheckingRead, accepted) == WholeCall(l', q, CheckingState, accepted);
      }
    }
  }

  /** From the claim on, the output is called once and its outcome noted. */
  lemma SendsOnce(l: Ledger, q: Request, id: DeliveryId, accepted: Option<bool>)
    ensures WholeCall(l, q, Publishing(id), accepted)
         == (Note(l, ServerReport(id, OutcomeOf(q, accepted), q.channel)).0, OutcomeOf(q, accepted), q.publishes)
  {
    var report := ServerReport(id, OutcomeOf(q, accepted), q.channel);
    assert WholeCall(l, q, Noting(id, OutcomeOf(q, accepted)), accepted) == (Note(l, report).0, OutcomeOf(q, accepted), false);
  }
}
