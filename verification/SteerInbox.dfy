/** What the steer inbox answers a client, and how it puts claimed steers into the transcript at a tool boundary. */
module SteerInbox {
  import opened Basics
  import opened SteerStore
  import opened SteerTables
  import opened SteerProofs
  import SteerRun

  // ---------------------------------------------------------------- admission

  datatype Kind = Stale | Closed | NotReady | Full
  datatype Answer = Refused(kind: Kind, code: string) | Clash | Known(steer: Steer) | Gone | Taken(steer: Steer)

  /** Who owns the run: nobody can say, the legacy executor, or the core's session authority with its admission row. */
  datatype Owner = Unclear | Legacy(agentBound: bool) | Authority(admission: string, target: Option<string>, stopping: bool)

  datatype Request = Request(scope: Option<string>, run: string, key: string, text: string, session: Option<string>,
                             epochMatches: bool, epoch: Option<string>, now: real)

  predicate Terminal(status: string) {
    status == "completed" || status == "failed" || status == "cancelled" || status == "interrupted"
  }

  predicate Steerable(status: string) {
    status == "running" || status == "waiting_for_approval"
  }

  /** None admits; the legacy executor's run must be bound and steerable. */
  function LegacyVerdict(status: string, agentBound: bool, epochMatches: bool): Option<Answer> {
    if !epochMatches then Some(Refused(Stale, "server_epoch"))
    else if Terminal(status) then Some(Refused(Closed, "run_terminal"))
    else if status == "stopping" then Some(Refused(Closed, "run_stopping"))
    else if status == "queued" || !agentBound then Some(Refused(NotReady, "run_not_bound"))
    else if Steerable(status) then None
    else Some(Refused(Closed, "run_state_unknown"))
  }

  /** Only a started admission of the core admits. */
  function AuthorityVerdict(status: string, admission: string, stopping: bool, epochMatches: bool): Option<Answer> {
    if !epochMatches then Some(Refused(Stale, "server_epoch"))
    else if Terminal(status) then Some(Refused(Closed, "run_terminal"))
    else if status == "stopping" || stopping then Some(Refused(Closed, "run_stopping"))
    else if admission == "started" then None
    else if admission == "queued" then Some(Refused(NotReady, "run_queued"))
    else if admission == "terminal" then Some(Refused(Closed, "run_terminal"))
    else Some(Refused(Closed, "run_state_unknown"))
  }

  function Or(a: Option<string>, b: Option<string>): Option<string> {
    if Truthy(a) then a else b
  }

  function TextOf(x: Option<string>): string {
    if x.Some? then x.value else ""
  }

  /** A bound agent without any status entry counts as running. */
  function LegacyStatus(status: Option<string>, agentBound: bool): string {
    if status.None? && agentBound then "running" else TextOf(status)
  }

  function IdOf(q: Request): SteerId {
    SteerId(RunKey(TextOf(q.scope), q.run), q.key)
  }

  /** The receipt of a key this owner already used, before any question about the run. */
  function Repeat(s: Store, q: Request): Option<Answer> {
    if !Truthy(q.scope) then None
    else
      var hit := Find(s.steers, IdOf(q));
      if hit.None? then None else if hit.value.text != q.text then Some(Clash) else Some(Known(hit.value))
  }

  datatype Outcome = Outcome(store: Store, answer: Answer, coreAsked: bool)

  /** `coreTakes` is what the core's native steer answers when it is asked. */
  function AdmitRequest(s: Store, q: Request, owner: Owner, status: Option<string>, coreTakes: bool): Outcome {
    match owner
    case Unclear => Outcome(s, Refused(Closed, "run_state_unknown"), false)
    case Authority(admission, target, stopping) =>
      var verdict := AuthorityVerdict(TextOf(status), admission, stopping, q.epochMatches);
      var repeat := Repeat(s, q);
      if repeat.Some? then Outcome(s, repeat.value, false)
      else if verdict.Some? then Outcome(s, verdict.value, false)
      else if q.scope.None? then Outcome(s, Refused(Closed, "run_not_bound"), false)
      else
        var gate := HandoffGate(s, IdOf(q));
        if gate == GateExpired then Outcome(s, Gone, false)
        else if gate == GateClosed then Outcome(s, Refused(Closed, "run_sealed"), false)
        else if !coreTakes then Outcome(s, Refused(Closed, "run_not_accepting_steer"), true)
        else
          var sid := Or(q.session, target);
          var (s', steer) := RecordHandoff(s, IdOf(q), q.text, NewRow(sid, Or(target, sid), q.epoch), q.now);
          Outcome(s', Taken(steer), true)
    case Legacy(agentBound) =>
      var verdict := LegacyVerdict(LegacyStatus(status, agentBound), agentBound, q.epochMatches);
      var repeat := Repeat(s, q);
      if repeat.Some? then Outcome(s, repeat.value, false)
      else if verdict.Some? then Outcome(s, verdict.value, false)
      else if q.scope.None? then Outcome(s, Refused(Closed, "run_not_bound"), false)
      else
        var registered := RegisterRun(s, IdOf(q).run, q.session, q.session, q.epoch);
        var (s', v) := Admit(registered, IdOf(q), q.text, NewRow(q.session, q.session, q.epoch), q.now);
        Outcome(s', AnswerOf(v), false)
  }

  function AnswerOf(v: Verdict): Answer {
    match v
    case Expired => Gone
    case Conflict(_) => Clash
    case Duplicate(hit) => Known(hit)
    case RunClosed => Refused(Closed, "run_sealed")
    case QueueFull => Refused(Full, "steer_queue_full")
    case Admitted(steer) => Taken(steer)
  }

  /** The admission endpoint over the live tables; the caller holds the run guard. */
  method AdmitNow(t: Tables, q: Request, owner: Owner, status: Option<string>, coreTakes: bool) returns (answer: Answer, coreAsked: bool)
    modifies t
    ensures Outcome(t.View(), answer, coreAsked) == AdmitRequest(old(t.View()), q, owner, status, coreTakes)
  {
    coreAsked := false;
    if owner.Unclear? {
      return Refused(Closed, "run_state_unknown"), false;
    }
    var verdict :=
      if owner.Authority? then AuthorityVerdict(TextOf(status), owner.admission, owner.stopping, q.epochMatches)
      else LegacyVerdict(LegacyStatus(status, owner.agentBound), owner.agentBound, q.epochMatches);
    if Truthy(q.scope) {
      var hit := t.FindKey(IdOf(q));
      if hit.Some? {
        return if hit.value.text != q.text then Clash else Known(hit.value), false;
      }
    }
    if verdict.Some? {
      return verdict.value, false;
    }
    if q.scope.None? {
      return Refused(Closed, "run_not_bound"), false;
    }
    if owner.Legacy? {
      t.Register(IdOf(q).run, q.session, q.session, q.epoch);
      var v := t.Submit(IdOf(q), q.text, NewRow(q.session, q.session, q.epoch), q.now);
      return AnswerOf(v), false;
    }
    var gate := t.Gate(IdOf(q));
    if gate == GateExpired {
      return Gone, false;
    }
    if gate == GateClosed {
      return Refused(Closed, "run_sealed"), false;
    }
    if !coreTakes {
      return Refused(Closed, "run_not_accepting_steer"), true;
    }
    var sid := Or(q.session, owner.target);
    var steer := t.Record(IdOf(q), q.text, NewRow(sid, Or(owner.target, sid), q.epoch), q.now);
    return Taken(steer), true;
  }

  /**
   A key that was taken before is never taken again and never reaches the core again, whatever the run
   is doing by now: while its row is kept it answers with that row or as a clash, and once it is pruned
   it answers as gone exactly when the run itself would still admit, and with the run's refusal otherwise.
   */
  lemma TakenKeyIsNeverNew(s: Store, q: Request, owner: Owner, status: Option<string>, coreTakes: bool)
    requires Valid(s) && Truthy(q.scope) && (IdOf(q) in s.purged || Find(s.steers, IdOf(q)).Some?)
    ensures var o := AdmitRequest(s, q, owner, status, coreTakes);
            && o.store.steers == s.steers && o.store.purged == s.purged && !o.coreAsked && !o.answer.Taken?
            && (Find(s.steers, IdOf(q)).Some? && !owner.Unclear? ==>
                  o.answer == if q.text == Find(s.steers, IdOf(q)).value.text then Known(Find(s.steers, IdOf(q)).value) else Clash)
            && (IdOf(q) in s.purged ==> (o.answer == Gone <==> Admits(q, owner, status)) && (o.answer.Refused? || o.answer == Gone))
  {
    if IdOf(q) in s.purged {
      assert Find(s.steers, IdOf(q)).None?;
    }
  }

  predicate Admits(q: Request, owner: Owner, status: Option<string>) {
    match owner
    case Unclear => false
    case Authority(admission, _, stopping) => AuthorityVerdict(TextOf(status), admission, stopping, q.epochMatches).None?
    case Legacy(bound) => LegacyVerdict(LegacyStatus(status, bound), bound, q.epochMatches).None?
  }

  /** A steer is taken only for an owner, in a run that admits and is not sealed, under a key that was never used. */
  lemma TakenOnlyInAnOpenRun(s: Store, q: Request, owner: Owner, status: Option<string>, coreTakes: bool)
    requires Valid(s) && Truthy(q.scope) && AdmitRequest(s, q, owner, status, coreTakes).answer.Taken?
    ensures Admits(q, owner, status) && !Sealed(s, IdOf(q).run) && IdOf(q) !in s.purged && Find(s.steers, IdOf(q)).None?
    ensures var o := AdmitRequest(s, q, owner, status, coreTakes);
            && o.store.steers == s.steers + [o.answer.steer] && o.answer.steer.id == IdOf(q) && o.answer.steer.text == q.text
            && o.answer.steer.state == (if owner.Legacy? then Accepted else OutcomeUnknown)
            && (owner.Authority? <==> o.coreAsked)
  {
    if owner.Legacy? {
      assert RegisterRun(s, IdOf(q).run, q.session, q.session, q.epoch).steers == s.steers;
    }
  }

  /** An admission request is one of the steps whole runs are made of, so everything proved about runs holds across it. */
  lemma RequestIsRunSteps(es: seq<SteerRun.Event>, q: Request, owner: Owner, status: Option<string>, coreTakes: bool) returns (more: seq<SteerRun.Event>)
    ensures SteerRun.Run(es + more).store == AdmitRequest(SteerRun.Run(es).store, q, owner, status, coreTakes).store
  {
    var w := SteerRun.Run(es);
    more := StepsOf(w.store, q, owner, status, coreTakes);
    StepsAdmit(w, q, owner, status, coreTakes);
    RunExec(es, more);
  }

  /** The ledger events a request amounts to. */
  function StepsOf(s: Store, q: Request, owner: Owner, status: Option<string>, coreTakes: bool): seq<SteerRun.Event> {
    if owner.Unclear? || Repeat(s, q).Some? || !Admits(q, owner, status) || q.scope.None? then []
    else if owner.Legacy? then
      [SteerRun.Register(IdOf(q).run, q.session, q.session, q.epoch), SteerRun.Submit(IdOf(q), q.text, q.session, q.epoch, q.now)]
    else if HandoffGate(s, IdOf(q)) == GateOpen && coreTakes then
      var sid := Or(q.session, owner.target);
      [SteerRun.Handoff(IdOf(q), q.text, sid, Or(owner.target, sid), q.epoch, q.now)]
    else []
  }

  function Exec(w: SteerRun.World, es: seq<SteerRun.Event>): SteerRun.World {
    if es == [] then w else SteerRun.Apply(Exec(w, es[..|es| - 1]), es[|es| - 1])
  }

  lemma {:induction false} RunExec(es: seq<SteerRun.Event>, more: seq<SteerRun.Event>)
    ensures SteerRun.Run(es + more) == Exec(SteerRun.Run(es), more)
  {
    if more == [] {
      assert es + more == es;
    } else {
      assert (es + more)[..|es + more| - 1] == es + more[..|more| - 1];
      RunExec(es, more[..|more| - 1]);
    }
  }

  lemma StepsAdmit(w: SteerRun.World, q: Request, owner: Owner, status: Option<string>, coreTakes: bool)
    ensures Exec(w, StepsOf(w.store, q, owner, status, coreTakes)).store == AdmitRequest(w.store, q, owner, status, coreTakes).store
  {
    var steps := StepsOf(w.store, q, owner, status, coreTakes);
    if |steps| == 1 {
      ExecOne(w, steps[0]);
    } else if |steps| == 2 {
      ExecTwo(w, steps[0], steps[1]);
      var registered := RegisterRun(w.store, IdOf(q).run, q.session, q.session, q.epoch);
      assert SteerRun.Apply(w, steps[0]) == w.(store := registered);
    }
  }

  lemma ExecOne(w: SteerRun.World, e: SteerRun.Event)
    ensures Exec(w, [e]) == SteerRun.Apply(w, e)
  {
    assert [e][..0] == [];
    assert Exec(w, []) == w;
  }

  lemma ExecTwo(w: SteerRun.World, e: SteerRun.Event, f: SteerRun.Event)
    ensures Exec(w, [e, f]) == SteerRun.Apply(SteerRun.Apply(w, e), f)
  {
    assert [e, f][..1] == [e];
    ExecOne(w, e);
  }
}
