/**
 The self-wakes of one lineage over whole runs. A wake passes the gate once, when its batch is admitted; the
 reserved batch may then be put off and is dispatched later without asking the gate again, so several wakes
 may be outstanding at a time.
 */
module ChainRun {
  import opened Basics
  import opened ChainFuse

  /** A reserved wake remembers when it passed the gate, under which cooldown, and which last wake the gate saw. */
  datatype Stage = Reserved(passed: real, cooldown: real, seen: Option<real>) | Running

  /**
   `counting` holds between the two transactions of a failure, in which the worker does nothing else. Since
   the last reset: `wakes` passed the gate, `lost` of them ended without being counted in full, and `crowd`
   is the largest number outstanding when another one passed. `started` counts all dispatches ever.
   */
  datatype World = World(row: Option<Chain>, open: map<nat, Stage>, counting: bool, wakes: nat, lost: nat, crowd: nat, started: nat)

  const Start := World(None, map[], false, 0, 0, 0, 0)

  datatype Event =
    | Ask(id: nat, off: bool, limit: nat, cooldown: real, now: real)
    | PutOff(id: nat)
    | Dispatch(id: nat, now: real)
    | Withdraw(id: nat)
    | Completed(id: nat, now: real)
    | Failed(id: nat)
    | LookAtFuse
    | Uncounted(id: nat)
    | Crash
    | HumanReset(fires: nat, lastFire: Option<real>)
    | AdminReset(fires: nat, lastFire: Option<real>)

  function RowOf(w: World): Chain {
    if w.row.Some? then w.row.value else Chain(0, None, 0, false)
  }

  predicate IsReserved(w: World, id: nat) {
    id in w.open && w.open[id].Reserved?
  }

  predicate IsRunning(w: World, id: nat) {
    id in w.open && w.open[id].Running?
  }

  function AfterReset(w: World, row: Option<Chain>): World {
    w.(row := row, wakes := 0, lost := 0, crowd := 0)
  }

  function Apply(w: World, e: Event): World {
    match e
    case Ask(id, off, limit, cooldown, now) =>
      if !w.counting && id !in w.open && Gate(w.row, off, limit, cooldown, now).Allowed? then
        w.(open := w.open[id := Reserved(now, cooldown, RowOf(w).lastFire)], wakes := w.wakes + 1,
           crowd := if |w.open| > w.crowd then |w.open| else w.crowd)
      else w
    case PutOff(id) => w
    case Dispatch(id, now) =>
      if !w.counting && IsReserved(w, id) then w.(open := w.open[id := Running], started := w.started + 1) else w
    case Withdraw(id) => if IsReserved(w, id) then w.(open := w.open - {id}, lost := w.lost + 1) else w
    case Completed(id, now) =>
      if !w.counting && IsRunning(w, id) then w.(row := Some(Note(w.row, now)), open := w.open - {id}) else w
    case Failed(id) =>
      if !w.counting && IsRunning(w, id) then w.(row := Some(CountFailure(w.row)), open := w.open - {id}, counting := true) else w
    case LookAtFuse => if w.counting then w.(row := FuseIfDue(w.row), counting := false) else w
    case Uncounted(id) => if IsRunning(w, id) then w.(open := w.open - {id}, lost := w.lost + 1) else w
    case Crash => if w.counting then w.(counting := false, lost := w.lost + 1) else w
    case HumanReset(fires, lastFire) =>
      if !w.counting && fires > 0 && lastFire.Some? && ResetApplies(w.row, fires, lastFire, false)
      then AfterReset(w, Reset(w.row, fires, lastFire, false)) else w
    case AdminReset(fires, lastFire) =>
      if ResetApplies(w.row, fires, lastFire, true) then AfterReset(w, Reset(w.row, fires, lastFire, true)) else w
  }

  function Run(es: seq<Event>): World {
    if es == [] then Start else Apply(Run(es[..|es| - 1]), es[|es| - 1])
  }

  /** No configuration ever allowed more than `most` wakes in a chain. */
  predicate LimitsWithin(es: seq<Event>, most: nat) {
    forall i | 0 <= i < |es| && es[i].Ask? :: es[i].limit <= most
  }

  // ---------------------------------------------------------------- the bound

  /** The third failure of a streak while the worker has not looked at the fuse yet. */
  function Third(w: World): nat {
    if w.counting && RowOf(w).fails >= FAULTS_TO_FUSE then 1 else 0
  }

  function Streak(w: World): nat {
    if RowOf(w).fails < 2 then RowOf(w).fails else 2
  }

  /** While the fuse holds off, every wake is outstanding, or paid for by a count of the row, or lost. */
  ghost predicate Paid(w: World) {
    !RowOf(w).fused ==> w.wakes <= 3 * RowOf(w).fires + Streak(w) + Third(w) + w.lost + |w.open|
  }

  ghost predicate Within(w: World, most: nat) {
    w.wakes <= 3 * most + w.lost + w.crowd
  }

  lemma OneLess(open: map<nat, Stage>, id: nat)
    requires id in open
    ensures |open - {id}| == |open| - 1
  {
    assert (open - {id}).Keys == open.Keys - {id};
    assert |open.Keys| == |open|;
  }

  lemma OneMoreOpen(open: map<nat, Stage>, id: nat, stage: Stage)
    ensures |open[id := stage]| == if id in open then |open| else |open| + 1
  {
    assert open[id := stage].Keys == open.Keys + {id};
    assert |open.Keys| == |open| && |open[id := stage].Keys| == |open[id := stage]|;
  }

  lemma AskPays(w: World, e: Event)
    requires Paid(w) && (e.Ask? || e.Dispatch?)
    ensures Paid(Apply(w, e))
  {
    if e.Ask? {
      OneMoreOpen(w.open, e.id, Reserved(e.now, e.cooldown, RowOf(w).lastFire));
    } else {
      OneMoreOpen(w.open, e.id, Running);
    }
  }

  lemma EndPays(w: World, e: Event)
    requires Paid(w) && (e.Withdraw? || e.Completed? || e.Failed? || e.Uncounted?)
    ensures Paid(Apply(w, e))
  {
    if e.id in w.open { OneLess(w.open, e.id); }
  }

  lemma StepPays(w: World, e: Event)
    requires Paid(w)
    ensures Paid(Apply(w, e))
  {
    if e.Ask? || e.Dispatch? {
      AskPays(w, e);
    } else if e.Withdraw? || e.Completed? || e.Failed? || e.Uncounted? {
      EndPays(w, e);
    }
  }

  lemma StepWithin(w: World, e: Event, most: nat)
    requires Paid(w) && Within(w, most) && most > 0 && (e.Ask? ==> e.limit <= most)
    ensures Within(Apply(w, e), most)
  {
  }

  lemma {:induction false} RunHolds(es: seq<Event>, most: nat)
    requires most > 0 && LimitsWithin(es, most)
    ensures Paid(Run(es)) && Within(Run(es), most)
  {
    if es != [] {
      RunHolds(es[..|es| - 1], most);
      StepPays(Run(es[..|es| - 1]), es[|es| - 1]);
      StepWithin(Run(es[..|es| - 1]), es[|es| - 1], most);
    }
  }

  /**
   Between two resets the gate lets a lineage wake itself at most three times the largest limit, plus once
   for every wake that was not counted in full, plus the largest number outstanding when another passed.
   */
  lemma WakesAreBounded(es: seq<Event>, most: nat)
    requires most > 0 && LimitsWithin(es, most)
    ensures Run(es).wakes <= 3 * most + Run(es).lost + Run(es).crowd
  {
    RunHolds(es, most);
  }

  // ---------------------------------------------------------------- the bound is met

  lemma Grow(es: seq<Event>, e: Event, most: nat) returns (longer: seq<Event>)
    requires LimitsWithin(es, most) && (e.Ask? ==> e.limit <= most)
    ensures Run(longer) == Apply(Run(es), e) && LimitsWithin(longer, most)
  {
    longer := es + [e];
    assert longer[..|es|] == es;
  }

  /** Nothing outstanding, so many wakes completed and so many failed since. */
  function Quiet(fires: nat, fails: nat, started: nat): World {
    World(if fires + fails == 0 then None else Some(Chain(fires, if fires == 0 then None else Some(0.0), fails, false)),
          map[], false, started, 0, 0, started)
  }

  lemma FourSteps(es: seq<Event>, a: Event, b: Event, c: Event, d: Event, most: nat) returns (longer: seq<Event>)
    requires LimitsWithin(es, most) && (a.Ask? ==> a.limit <= most) && !b.Ask? && !c.Ask? && !d.Ask?
    ensures Run(longer) == Apply(Apply(Apply(Apply(Run(es), a), b), c), d) && LimitsWithin(longer, most)
  {
    longer := Grow(es, a, most);
    longer := Grow(longer, b, most);
    longer := Grow(longer, c, most);
    longer := Grow(longer, d, most);
  }

  function Asking(limit: nat): Event {
    Ask(0, false, limit, 0.0, 0.0)
  }

  lemma FailSteps(fires: nat, fails: nat, started: nat, most: nat)
    requires fires < most && fails < 2
    ensures Apply(Apply(Apply(Apply(Quiet(fires, fails, started), Asking(most)), Dispatch(0, 0.0)), Failed(0)), LookAtFuse)
         == Quiet(fires, fails + 1, started + 1)
  {
    var w0 := Quiet(fires, fails, started);
    var passed := Reserved(0.0, 0.0, RowOf(w0).lastFire);
    var w1 := w0.(open := map[0 := passed], wakes := started + 1);
    assert Apply(w0, Asking(most)) == w1;
    var w2 := w1.(open := map[0 := Running], started := started + 1);
    assert Apply(w1, Dispatch(0, 0.0)) == w2;
    assert map[0 := Running] - {0} == map[];
  }

  lemma CompleteSteps(fires: nat, fails: nat, started: nat, most: nat)
    requires fires < most
    ensures Apply(Apply(Apply(Quiet(fires, fails, started), Asking(most)), Dispatch(0, 0.0)), Completed(0, 0.0))
         == Quiet(fires + 1, 0, started + 1)
  {
    var w0 := Quiet(fires, fails, started);
    var passed := Reserved(0.0, 0.0, RowOf(w0).lastFire);
    var w1 := w0.(open := map[0 := passed], wakes := started + 1);
    assert Apply(w0, Asking(most)) == w1;
    var w2 := w1.(open := map[0 := Running], started := started + 1);
    assert Apply(w1, Dispatch(0, 0.0)) == w2;
    assert map[0 := Running] - {0} == map[];
  }

  /** One wake after the other: passed, dispatched, and failed for the first or second time. */
  lemma OneFails(es: seq<Event>, fires: nat, fails: nat, started: nat, most: nat) returns (longer: seq<Event>)
    requires Run(es) == Quiet(fires, fails, started) && fires < most && fails < 2 && LimitsWithin(es, most)
    ensures Run(longer) == Quiet(fires, fails + 1, started + 1) && LimitsWithin(longer, most)
  {
    FailSteps(fires, fails, started, most);
    longer := FourSteps(es, Asking(most), Dispatch(0, 0.0), Failed(0), LookAtFuse, most);
  }

  lemma OneCompletes(es: seq<Event>, fires: nat, fails: nat, started: nat, most: nat) returns (longer: seq<Event>)
    requires Run(es) == Quiet(fires, fails, started) && fires < most && LimitsWithin(es, most)
    ensures Run(longer) == Quiet(fires + 1, 0, started + 1) && LimitsWithin(longer, most)
  {
    CompleteSteps(fires, fails, started, most);
    longer := FourSteps(es, Asking(most), Dispatch(0, 0.0), Completed(0, 0.0), PutOff(0), most);
  }

  lemma TwoFail(es: seq<Event>, fires: nat, started: nat, most: nat) returns (longer: seq<Event>)
    requires Run(es) == Quiet(fires, 0, started) && fires < most && LimitsWithin(es, most)
    ensures Run(longer) == Quiet(fires, 2, started + 2) && LimitsWithin(longer, most)
  {
    longer := OneFails(es, fires, 0, started, most);
    longer := OneFails(longer, fires, 1, started + 1, most);
  }

  lemma OneRound(es: seq<Event>, fires: nat, started: nat, most: nat) returns (longer: seq<Event>)
    requires Run(es) == Quiet(fires, 0, started) && fires < most && LimitsWithin(es, most)
    ensures Run(longer) == Quiet(fires + 1, 0, started + 3) && LimitsWithin(longer, most)
  {
    var failed := TwoFail(es, fires, started, most);
    longer := OneCompletes(failed, fires, 2, started + 2, most);
  }

  /** Three wakes for every one that completes. */
  lemma {:induction false} Rounds(fires: nat, most: nat) returns (es: seq<Event>)
    requires fires <= most
    ensures Run(es) == Quiet(fires, 0, 3 * fires) && LimitsWithin(es, most)
  {
    if fires == 0 {
      es := [];
    } else {
      var front := Rounds(fires - 1, most);
      es := OneRound(front, fires - 1, 3 * (fires - 1), most);
    }
  }

  /** So many more wakes pass while none of them has run. */
  lemma {:induction false} ManyPass(es: seq<Event>, n: nat, most: nat) returns (longer: seq<Event>)
    requires LimitsWithin(es, most) && Run(es).open == map[] && !Run(es).counting && Run(es).crowd == 0
    requires Gate(Run(es).row, false, most, 0.0, 0.0).Allowed?
    ensures LimitsWithin(longer, most) && Run(longer).row == Run(es).row && Run(longer).lost == Run(es).lost
    ensures Run(longer).wakes == Run(es).wakes + n && !Run(longer).counting
    ensures |Run(longer).open| == n && Run(longer).crowd == (if n == 0 then 0 else n - 1)
    ensures forall id | id in Run(longer).open :: id < n
  {
    if n == 0 {
      longer := es;
    } else {
      longer := ManyPass(es, n - 1, most);
      var w := Run(longer);
      longer := Grow(longer, Ask(n - 1, false, most, 0.0, 0.0), most);
      assert Run(longer).open.Keys == w.open.Keys + {n - 1};
      assert |Run(longer).open| == |Run(longer).open.Keys|;
    }
  }

  /** For every limit and every crowd there is a run without loss that meets the bound. */
  lemma BoundIsMet(most: nat, crowd: nat) returns (es: seq<Event>)
    requires most > 0
    ensures LimitsWithin(es, most) && Run(es).lost == 0 && Run(es).crowd == crowd && Run(es).wakes == 3 * most + crowd
  {
    es := Rounds(most - 1, most);
    es := TwoFail(es, most - 1, 3 * (most - 1), most);
    es := ManyPass(es, crowd + 1, most);
  }

  /**
   Without loss, three wakes for each allowed by the limit is the bound of all runs of a given crowd exactly
   when that crowd is nobody: no wake passes the gate while another one of the lineage is outstanding.
   */
  lemma ThreeEachExactlyAlone(most: nat, crowd: nat)
    requires most > 0
    ensures (forall es | LimitsWithin(es, most) && Run(es).lost == 0 && Run(es).crowd == crowd :: Run(es).wakes <= 3 * most) <==> crowd == 0
  {
    if crowd == 0 {
      forall es | LimitsWithin(es, most) && Run(es).lost == 0 && Run(es).crowd == crowd
        ensures Run(es).wakes <= 3 * most
      {
        WakesAreBounded(es, most);
      }
    } else {
      var es := BoundIsMet(most, crowd);
    }
  }

  /** A crash between the two transactions of the third failure buys one wake more. */
  lemma CrashBuysOne() returns (es: seq<Event>)
    ensures LimitsWithin(es, 1) && Run(es).wakes == 4 && Run(es).lost == 1 && Run(es).crowd == 0
  {
    es := TwoFail([], 0, 0, 1);
    es := CrashLast(es);
    es := Grow(es, Asking(1), 1);
  }

  lemma CrashLast(es: seq<Event>) returns (longer: seq<Event>)
    requires LimitsWithin(es, 1) && Run(es) == Quiet(0, 2, 2)
    ensures LimitsWithin(longer, 1) && Run(longer) == World(Some(Chain(0, None, 3, false)), map[], false, 3, 1, 0, 3)
  {
    CrashSteps();
    longer := FourSteps(es, Asking(1), Dispatch(0, 0.0), Failed(0), Crash, 1);
  }

  lemma CrashSteps()
    ensures Apply(Apply(Apply(Apply(Quiet(0, 2, 2), Asking(1)), Dispatch(0, 0.0)), Failed(0)), Crash)
         == World(Some(Chain(0, None, 3, false)), map[], false, 3, 1, 0, 3)
  {
    var w0 := Quiet(0, 2, 2);
    var w1 := w0.(open := map[0 := Reserved(0.0, 0.0, None)], wakes := 3);
    assert Apply(w0, Asking(1)) == w1;
    assert Apply(w1, Dispatch(0, 0.0)) == w1.(open := map[0 := Running], started := 3);
    assert map[0 := Running] - {0} == map[];
  }

  // ---------------------------------------------------------------- a listener that is not there

  const Minute := 60.0

  /** Wakes from `low` up to `high` passed the gate and were put off. */
  function Waiting(low: nat, high: nat): map<nat, Stage> {
    map id: nat | low <= id < high :: Stalled(id)
  }

  function Stalled(id: nat): Stage {
    Reserved(0.0, Minute, None)
  }

  function Away(n: nat): World {
    World(None, Waiting(0, n), false, n, 0, if n == 0 then 0 else n - 1, 0)
  }

  lemma OnePutOff(n: nat)
    ensures Apply(Apply(Away(n), Ask(n, false, 1, Minute, 0.0)), PutOff(n)) == Away(n + 1)
  {
    assert Waiting(0, n)[n := Reserved(0.0, Minute, None)] == Waiting(0, n + 1);
    WaitingSize(n);
  }

  lemma PutOneMoreOff(es: seq<Event>, n: nat) returns (longer: seq<Event>)
    requires LimitsWithin(es, 1) && Run(es) == Away(n)
    ensures LimitsWithin(longer, 1) && Run(longer) == Away(n + 1)
  {
    OnePutOff(n);
    longer := Grow(es, Ask(n, false, 1, Minute, 0.0), 1);
    longer := Grow(longer, PutOff(n), 1);
  }

  lemma {:induction false} AllPutOff(n: nat) returns (es: seq<Event>)
    ensures LimitsWithin(es, 1) && Run(es) == Away(n)
  {
    if n == 0 {
      es := [];
      assert Waiting(0, 0) == map[];
    } else {
      var front := AllPutOff(n - 1);
      es := PutOneMoreOff(front, n - 1);
    }
  }

  lemma {:induction false} WaitingSize(n: nat)
    ensures |Waiting(0, n)| == n
  {
    if n > 0 {
      WaitingSize(n - 1);
      assert Waiting(0, n).Keys == Waiting(0, n - 1).Keys + {n - 1};
      assert |Waiting(0, n)| == |Waiting(0, n).Keys| && |Waiting(0, n - 1)| == |Waiting(0, n - 1).Keys|;
    }
  }

  /** The listener is back: m of the n wakes have run and completed. */
  function Back(m: nat, n: nat): World {
    World(if m == 0 then None else Some(Chain(m, Some(1.0), 0, false)), Waiting(m, n), false, n, 0, if n == 0 then 0 else n - 1, m)
  }

  lemma OneRuns(m: nat, n: nat)
    requires m < n
    ensures Apply(Apply(Back(m, n), Dispatch(m, 1.0)), Completed(m, 1.0)) == Back(m + 1, n)
  {
    assert m in Waiting(m, n);
    assert Waiting(m, n)[m := Running] - {m} == Waiting(m + 1, n);
  }

  lemma RunOneMore(es: seq<Event>, m: nat, n: nat) returns (longer: seq<Event>)
    requires m < n && LimitsWithin(es, 1) && Run(es) == Back(m, n)
    ensures LimitsWithin(longer, 1) && Run(longer) == Back(m + 1, n)
  {
    OneRuns(m, n);
    longer := Grow(es, Dispatch(m, 1.0), 1);
    longer := Grow(longer, Completed(m, 1.0), 1);
  }

  /** Some run under a limit of one gets there. */
  ghost predicate GetsBack(m: nat, n: nat) {
    exists es :: LimitsWithin(es, 1) && Run(es) == Back(m, n)
  }

  lemma FirstBack(n: nat)
    ensures GetsBack(0, n)
  {
    var es := AllPutOff(n);
    assert Away(n) == Back(0, n);
  }

  lemma NextBack(n: nat)
    ensures forall m: nat | m < n && GetsBack(m, n) :: GetsBack(m + 1, n)
  {
    forall m: nat | m < n && GetsBack(m, n)
      ensures GetsBack(m + 1, n)
    {
      var es :| LimitsWithin(es, 1) && Run(es) == Back(m, n);
      var longer := RunOneMore(es, m, n);
    }
  }

  lemma AllRun(m: nat, n: nat) returns (es: seq<Event>)
    requires m <= n
    ensures LimitsWithin(es, 1) && Run(es) == Back(m, n)
  {
    FirstBack(n);
    NextBack(n);
    Climb((k: nat) => GetsBack(k, n), m);
    es :| LimitsWithin(es, 1) && Run(es) == Back(m, n);
  }

  /**
   A limit of one, a cooldown of a minute, a listener that is away: however many wakes one likes pass the gate,
   and when the listener is back they all run and complete, each noted once, none lost, nothing crashed.
   */
  lemma OneAllowedManyRun(n: nat) returns (es: seq<Event>)
    requires n > 0
    ensures LimitsWithin(es, 1) && Run(es).wakes == n && Run(es).started == n && RowOf(Run(es)).fires == n
    ensures Run(es).lost == 0 && Run(es).open == map[] && Run(es).crowd == n - 1
  {
    es := AllRun(n, n);
    assert Waiting(n, n) == map[];
  }

  // ---------------------------------------------------------------- a fused lineage

  predicate NoAdmin(es: seq<Event>) {
    forall i | 0 <= i < |es| :: !es[i].AdminReset?
  }

  function ReservedIn(w: World): set<nat> {
    set id | id in w.open && w.open[id].Reserved?
  }

  lemma FusedStep(w: World, e: Event)
    requires RowOf(w).fused && !e.AdminReset?
    ensures RowOf(Apply(w, e)).fused && Apply(w, e).wakes == w.wakes && w.started <= Apply(w, e).started
    ensures Apply(w, e).started + |ReservedIn(Apply(w, e))| <= w.started + |ReservedIn(w)|
  {
    var w' := Apply(w, e);
    if w' != w && e.Dispatch? {
      assert ReservedIn(w') == ReservedIn(w) - {e.id};
    } else {
      assert ReservedIn(w') <= ReservedIn(w);
      SubsetSize(ReservedIn(w'), ReservedIn(w));
    }
  }

  /**
   A fused lineage stays fused until an admin resets it, human messages included, and no wake passes the gate
   any more; all that may still start are the wakes that were reserved before.
   */
  lemma {:induction false} FusedUntilReleased(es: seq<Event>, more: seq<Event>)
    requires RowOf(Run(es)).fused && NoAdmin(more)
    ensures RowOf(Run(es + more)).fused && Run(es + more).wakes == Run(es).wakes
    ensures Run(es).started <= Run(es + more).started
    ensures Run(es + more).started + |ReservedIn(Run(es + more))| <= Run(es).started + |ReservedIn(Run(es))|
  {
    if more == [] {
      assert es + more == es;
    } else {
      var less := more[..|more| - 1];
      FusedUntilReleased(es, less);
      FusedStep(Run(es + less), more[|more| - 1]);
      assert (es + more)[..|es + more| - 1] == es + less;
    }
  }

  /** It is asleep, whatever happens, exactly when none was reserved. */
  lemma AsleepExactly(es: seq<Event>)
    requires RowOf(Run(es)).fused
    ensures (forall more | NoAdmin(more) :: Run(es + more).started == Run(es).started) <==> ReservedIn(Run(es)) == {}
  {
    if ReservedIn(Run(es)) == {} {
      forall more | NoAdmin(more)
        ensures Run(es + more).started == Run(es).started
      {
        FusedUntilReleased(es, more);
      }
    } else {
      var id :| id in ReservedIn(Run(es));
      var more := [Crash, Dispatch(id, 0.0)];
      assert (es + more)[..|es| + 1] == es + [Crash] && (es + [Crash])[..|es|] == es;
      assert Run(es + more) == Apply(Apply(Run(es), Crash), Dispatch(id, 0.0));
      assert NoAdmin(more);
    }
  }

  /** That happens: four wakes pass, three fail and set the fuse, the fourth still runs. */
  lemma FuseLeavesAReservation() returns (es: seq<Event>)
    ensures RowOf(Run(es)).fused && ReservedIn(Run(es)) != {} && Run(es).lost == 0 && LimitsWithin(es, 1)
  {
    FirstFailing();
    NextFailing();
    Climb(GetsFailing, 3);
    es :| LimitsWithin(es, 1) && Run(es) == Failing(3);
    assert 3 in Waiting(3, 4);
    assert 3 in ReservedIn(Failing(3));
  }

  /** Some run under a limit of one gets so many of four wakes to fail. */
  ghost predicate GetsFailing(m: nat) {
    exists es :: LimitsWithin(es, 1) && Run(es) == Failing(m)
  }

  lemma FirstFailing()
    ensures GetsFailing(0)
  {
    var es := AllPutOff(4);
    assert Away(4) == Failing(0);
  }

  lemma NextFailing()
    ensures forall m: nat | m < 3 && GetsFailing(m) :: GetsFailing(m + 1)
  {
    forall m: nat | m < 3 && GetsFailing(m)
      ensures GetsFailing(m + 1)
    {
      var es :| LimitsWithin(es, 1) && Run(es) == Failing(m);
      var longer := FailOne(es, m);
    }
  }

  function Failing(m: nat): World {
    World(if m == 0 then None else Some(Chain(0, None, m, m == 3)), Waiting(m, 4), false, 4, 0, 3, m)
  }

  lemma FailNext(m: nat)
    requires m < 3
    ensures Apply(Apply(Apply(Failing(m), Dispatch(m, 0.0)), Failed(m)), LookAtFuse) == Failing(m + 1)
  {
    assert m in Waiting(m, 4);
    assert Waiting(m, 4)[m := Running] - {m} == Waiting(m + 1, 4);
  }

  lemma FailOne(es: seq<Event>, m: nat) returns (longer: seq<Event>)
    requires LimitsWithin(es, 1) && m < 3 && Run(es) == Failing(m)
    ensures LimitsWithin(longer, 1) && Run(longer) == Failing(m + 1)
  {
    FailNext(m);
    longer := FourSteps(es, Dispatch(m, 0.0), Failed(m), LookAtFuse, PutOff(m), 1);
  }

  // ---------------------------------------------------------------- the cooldown

  /** When the last wake that was counted as completed ended. */
  function LastCompleted(es: seq<Event>): Option<real> {
    if es == [] then None
    else
      var front, last := es[..|es| - 1], es[|es| - 1];
      if last.Completed? && !Run(front).counting && IsRunning(Run(front), last.id) then Some(last.now) else LastCompleted(front)
  }

  lemma LastFireStep(w: World, e: Event)
    ensures RowOf(Apply(w, e)).lastFire
         == if e.Completed? && !w.counting && IsRunning(w, e.id) then Some(e.now) else RowOf(w).lastFire
  {
  }

  /** No reset, human or admin, forgets when the lineage last woke itself. */
  lemma {:induction false} LastFireIsKept(es: seq<Event>)
    ensures RowOf(Run(es)).lastFire == LastCompleted(es)
  {
    if es != [] {
      LastFireIsKept(es[..|es| - 1]);
      LastFireStep(Run(es[..|es| - 1]), es[|es| - 1]);
    }
  }

  /** Between a completed wake and the next one that passes the gate lies the cooldown, resets or not. */
  lemma CooldownHolds(es: seq<Event>, id: nat, off: bool, limit: nat, cooldown: real, now: real)
    ensures Apply(Run(es), Ask(id, off, limit, cooldown, now)) != Run(es) && LastCompleted(es).Some? ==>
              now - LastCompleted(es).value >= cooldown
  {
    LastFireIsKept(es);
  }

  /** What a reserved wake was told at the gate. */
  ghost predicate PassedCool(w: World) {
    forall id | IsReserved(w, id) ::
      w.open[id].seen.Some? ==> w.open[id].passed - w.open[id].seen.value >= w.open[id].cooldown
  }

  lemma {:induction false} ReservationsPassedCool(es: seq<Event>)
    ensures PassedCool(Run(es))
  {
    if es != [] {
      ReservationsPassedCool(es[..|es| - 1]);
    }
  }

  /**
   A reserved wake that starts whenever later keeps the cooldown as long as no other one has completed since
   it passed the gate.
   */
  lemma StartKeepsCooldown(es: seq<Event>, id: nat, now: real)
    requires IsReserved(Run(es), id) && now >= Run(es).open[id].passed && LastCompleted(es) == Run(es).open[id].seen
    ensures LastCompleted(es).Some? ==> now - LastCompleted(es).value >= Run(es).open[id].cooldown
  {
    ReservationsPassedCool(es);
  }

  /** Otherwise it may not: a second reserved wake starts one second after the first has completed. */
  lemma CooldownSkipped() returns (es: seq<Event>)
    ensures IsReserved(Run(es), 1) && Run(es).open[1].cooldown == Minute && LastCompleted(es) == Some(1.0)
    ensures Apply(Run(es), Dispatch(1, 2.0)).started == Run(es).started + 1
  {
    es := AllRun(1, 2);
    LastFireIsKept(es);
    assert 1 in Waiting(1, 2);
  }

  // ---------------------------------------------------------------- what the counts mean

  /** A wake that passes the gate counts, with those already outstanding; one that ends in any other way than by its two transactions is lost. */
  lemma WakesMove(w: World, id: nat, off: bool, limit: nat, cooldown: real, now: real)
    requires !w.counting
    ensures id !in w.open && Gate(w.row, off, limit, cooldown, now).Allowed? ==>
              Apply(w, Ask(id, off, limit, cooldown, now))
              == w.(open := w.open[id := Reserved(now, cooldown, if w.row == None then None else w.row.value.lastFire)], wakes := w.wakes + 1,
                    crowd := if w.crowd < |w.open| then |w.open| else w.crowd)
    ensures IsReserved(w, id) ==>
              && Apply(w, Dispatch(id, now)) == w.(open := w.open[id := Running], started := w.started + 1)
              && Apply(w, Withdraw(id)) == w.(open := w.open - {id}, lost := w.lost + 1)
    ensures IsRunning(w, id) ==>
              && Apply(w, Completed(id, now)) == w.(row := Some(Note(w.row, now)), open := w.open - {id})
              && Apply(w, Failed(id)) == w.(row := Some(CountFailure(w.row)), open := w.open - {id}, counting := true)
              && Apply(w, Uncounted(id)) == w.(open := w.open - {id}, lost := w.lost + 1)
  {
  }

  /** A crash loses a failure only between its two transactions; a reset that applies starts all counts again. */
  lemma ResetsMove(w: World, fires: nat, lastFire: Option<real>)
    ensures Apply(w, Crash) == if w.counting then w.(counting := false, lost := w.lost + 1) else w
    ensures Apply(w, LookAtFuse) == if w.counting then w.(counting := false, row := FuseIfDue(w.row)) else w
    ensures var seen := w.row != None && w.row.value.fires == fires && w.row.value.lastFire == lastFire;
            var clear := w.(wakes := 0, lost := 0, crowd := 0, row := Some(Chain(0, lastFire, 0, false)));
            && Apply(w, AdminReset(fires, lastFire)) == (if seen then clear else w)
            && (!w.counting ==>
                  Apply(w, HumanReset(fires, lastFire)) == if seen && !w.row.value.fused && fires > 0 && lastFire != None then clear else w)
  {
  }
}
