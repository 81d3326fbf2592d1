/**
 How often a report is put off. Drain passes may overlap, so a slow pass may write an attempt count that
 others have long left behind; what bounds the retries is the number of passes, not the count.
 */
module CronBridgeRetries {
  import opened Basics
  import opened CronBridge
  import opened CronBridgeProofs
  import opened CronBridgeRun
  import CronBridgeStore

  // ---------------------------------------------------------------- one acknowledgement

  /** The acknowledged row left the spool, or counts more attempts than before and waits its delay. */
  predicate CloserToTheCap(s: Spool, a: Actor, now: real)
    requires a.phase.Acking?
  {
    var s' := AckSpool(s, a, now);
    a.key in s'.pending ==>
      && a.key in s.pending && a.phase.outcome == Retry
      && s.pending[a.key].attempts < s'.pending[a.key].attempts < DRAIN_MAX_ATTEMPTS
      && now + 60.0 <= s'.pending[a.key].nextRetry <= now + 900.0
  }

  /** The row is put off on a count that others have raised since the pass read it. */
  predicate SetBack(s: Spool, a: Actor) {
    && a.kind.Drained? && a.phase == Acking(Retry) && a.kind.attempts + 1 < DRAIN_MAX_ATTEMPTS
    && a.key in s.pending && a.kind.attempts < s.pending[a.key].attempts
  }

  lemma ProgressExactly(s: Spool, a: Actor, now: real)
    requires a.kind.Drained? && a.phase.Acking?
    ensures CloserToTheCap(s, a, now) <==> !SetBack(s, a)
  {
    BackoffInRange(a.kind.attempts + 1);
  }

  /**
   At every point of every run, an acknowledgement of a drained row takes it out of the spool or strictly
   closer to the attempt cap, if and only if the row's present count is not above the one the pass read.
   */
  lemma DrainMakesProgress(es: seq<Event>, now: real)
    ensures var w := Run(es);
            forall id | id in w.actors && w.actors[id].kind.Drained? && w.actors[id].phase.Acking? ::
              CloserToTheCap(w.spool, w.actors[id], now) <==> !SetBack(w.spool, w.actors[id])
  {
    var w := Run(es);
    forall id | id in w.actors && w.actors[id].kind.Drained? && w.actors[id].phase.Acking?
      ensures CloserToTheCap(w.spool, w.actors[id], now) <==> !SetBack(w.spool, w.actors[id])
    {
      ProgressExactly(w.spool, w.actors[id], now);
    }
  }

  lemma BackoffInRange(attempts: nat)
    requires attempts >= 1
    ensures 60.0 <= Backoff(attempts) <= DRAIN_BACKOFF_CAP
  {
    Pow2Grows(1, if attempts < 5 then attempts else 5);
  }

  /** The delay never shrinks from one retry to a later one. */
  lemma BackoffNeverShrinks(earlier: nat, later: nat)
    requires earlier <= later
    ensures Backoff(earlier) <= Backoff(later)
  {
    Pow2Grows(if earlier < 5 then earlier else 5, if later < 5 then later else 5);
  }

  lemma {:induction false} Pow2Grows(m: nat, n: nat)
    requires m <= n
    ensures Pow2(m) <= Pow2(n)
  {
    if m < n {
      Pow2Grows(m, n - 1);
    }
  }

  // ---------------------------------------------------------------- one pass after the other

  predicate Drains(a: Actor) {
    a.kind.Drained?
  }

  /** No pass has anything left to try. */
  ghost predicate NoPass(w: World) {
    && (forall p | p in w.queues :: w.queues[p] == [])
    && (forall i | i in w.actors :: !Drains(w.actors[i]))
  }

  /** Every pass begins after the others are through. */
  ghost predicate Serial(es: seq<Event>) {
    es != [] ==> Serial(es[..|es| - 1]) && (es[|es| - 1].BeginPass? ==> NoPass(Run(es[..|es| - 1])))
  }

  predicate Current(s: Spool, key: Key, attempts: nat) {
    key in s.pending ==> s.pending[key].attempts <= attempts
  }

  predicate Beside(queue: seq<Job>, key: Key) {
    forall n | 0 <= n < |queue| :: queue[n].key != key
  }

  ghost predicate QueueOk(s: Spool, queue: seq<Job>) {
    && (forall n | 0 <= n < |queue| :: Current(s, queue[n].key, queue[n].attempts))
    && (forall m, n | 0 <= m < n < |queue| :: queue[m].key != queue[n].key)
  }

  /** At most one pass is under way, it handles each row once, and no count it read is outdated. */
  ghost predicate OnePass(w: World) {
    && (forall i, j | i in w.actors && j in w.actors && Drains(w.actors[i]) && Drains(w.actors[j]) :: i == j)
    && (forall p, q | p in w.queues && q in w.queues && w.queues[p] != [] && w.queues[q] != [] :: p == q)
    && (forall i | i in w.actors && Drains(w.actors[i]) :: Current(w.spool, w.actors[i].key, w.actors[i].kind.attempts))
    && (forall i, p | i in w.actors && Drains(w.actors[i]) && p in w.queues && w.queues[p] != [] ::
          p == w.actors[i].kind.pass && Beside(w.queues[p], w.actors[i].key))
    && (forall p | p in w.queues :: QueueOk(w.spool, w.queues[p]))
  }

  lemma BeginKeepsOnePass(w: World, pass: nat, keys: seq<Key>, now: real)
    requires OnePass(w) && Linked(w.db.sessions) && NoPass(w)
    ensures OnePass(Apply(w, BeginPass(pass, keys, now)))
  {
  }

  lemma NextKeepsOnePass(w: World, pass: nat, id: nat)
    requires OnePass(w) && Linked(w.db.sessions)
    ensures OnePass(Apply(w, NextJob(pass, id)))
  {
  }

  lemma AckKeepsOnePass(w: World, id: nat, now: real)
    requires OnePass(w) && Linked(w.db.sessions)
    ensures OnePass(Apply(w, Acknowledge(id, now)))
  {
    if id in w.actors && w.actors[id].phase.Acking? { AckPending(w.spool, w.actors[id], now); }
  }

  /** No pass begins, goes on or takes up a row. */
  ghost predicate Fewer(w: World, w': World) {
    && (w'.queues == w.queues || w'.queues == map[])
    && (forall i | i in w'.actors && Drains(w'.actors[i]) ::
          i in w.actors && w'.actors[i].kind == w.actors[i].kind && w'.actors[i].key == w.actors[i].key)
  }

  /** No count changes but by leaving the spool or coming into it. */
  ghost predicate SameCounts(s: Spool, s': Spool) {
    forall k | k in s'.pending :: s'.pending[k].attempts == if k in s.pending then s.pending[k].attempts else 0
  }

  lemma PlainStep(w: World, e: Event)
    requires Linked(w.db.sessions) && !e.BeginPass? && !e.NextJob? && !e.Acknowledge?
    ensures Fewer(w, Apply(w, e)) && SameCounts(w.spool, Apply(w, e).spool)
    ensures !e.Deliver? ==> Apply(w, e).rescheduled == w.rescheduled && Apply(w, e).spool.pending.Keys <= w.spool.pending.Keys
  {
  }

  lemma FewerKeepsOnePass(w: World, w': World)
    requires OnePass(w) && Fewer(w, w') && SameCounts(w.spool, w'.spool)
    ensures OnePass(w')
  {
  }

  lemma StepKeepsOnePass(w: World, e: Event)
    requires OnePass(w) && Linked(w.db.sessions) && (e.BeginPass? ==> NoPass(w))
    ensures OnePass(Apply(w, e))
  {
    match e
    case BeginPass(pass, keys, now) => BeginKeepsOnePass(w, pass, keys, now);
    case NextJob(pass, id) => NextKeepsOnePass(w, pass, id);
    case Acknowledge(id, now) => AckKeepsOnePass(w, id, now);
    case _ =>
      PlainStep(w, e);
      FewerKeepsOnePass(w, Apply(w, e));
  }

  /** When passes do not overlap, every acknowledgement makes progress. */
  lemma {:induction false} SerialPassesAlwaysProgress(es: seq<Event>)
    requires Serial(es)
    ensures OnePass(Run(es))
    ensures forall id | id in Run(es).actors :: !SetBack(Run(es).spool, Run(es).actors[id])
  {
    if es != [] {
      SerialPassesAlwaysProgress(es[..|es| - 1]);
      StepKeepsOnePass(Run(es[..|es| - 1]), es[|es| - 1]);
    }
  }

  // ---------------------------------------------------------------- sorting passes by what they may still write

  /** The number of ways to distribute so many passes over so many counts: a binomial coefficient. */
  function Bin(m: nat, f: nat): nat
    decreases m, f
  {
    if m == 0 || f == 0 then 1 else Bin(m - 1, f) + Bin(m, f - 1)
  }

  lemma {:induction false} BinGrows(m: nat, f: nat, g: nat)
    requires f <= g
    ensures Bin(m, f) <= Bin(m, g)
    decreases g
  {
    if f < g {
      BinGrows(m, f, g - 1);
    }
  }

  lemma {:induction false} BinPositive(m: nat, f: nat)
    ensures Bin(m, f) >= 1
    decreases m, f
  {
    if m > 0 && f > 0 {
      BinPositive(m - 1, f);
    }
  }

  function Diff(m: nat, f: nat): nat {
    if f == 0 then 0 else Bin(m + 1, f - 1)
  }

  lemma DiffIs(m: nat, f: nat)
    ensures Bin(m + 1, f) == Bin(m, f) + Diff(m, f)
  {
  }

  lemma DiffGrows(m: nat, f: nat, g: nat)
    requires f <= g
    ensures Diff(m, f) <= Diff(m, g)
  {
    if f > 0 { BinGrows(m + 1, f - 1, g - 1); }
  }

  lemma DiffNext(m: nat, f: nat)
    ensures Diff(m, f + 1) >= Diff(m, f) + Bin(m, f)
  {
    if f > 0 {
      assert Bin(m + 1, f) == Bin(m, f) + Bin(m + 1, f - 1);
    }
  }

  /** `levels[y]` is the number of passes that can only write counts above y; what that is worth from y on. */
  function Used(levels: seq<nat>, y: nat): nat
    requires |levels| == DRAIN_MAX_ATTEMPTS + 1 && y <= DRAIN_MAX_ATTEMPTS + 1
    decreases DRAIN_MAX_ATTEMPTS + 1 - y
  {
    if y == DRAIN_MAX_ATTEMPTS + 1 then 0 else Diff(DRAIN_MAX_ATTEMPTS - y, levels[y]) + Used(levels, y + 1)
  }

  lemma {:induction false} UsedGrows(levels: seq<nat>, levels': seq<nat>, y: nat)
    requires |levels| == |levels'| == DRAIN_MAX_ATTEMPTS + 1 && y <= DRAIN_MAX_ATTEMPTS + 1
    requires forall z | y <= z <= DRAIN_MAX_ATTEMPTS :: levels[z] <= levels'[z]
    ensures Used(levels, y) <= Used(levels', y)
    decreases DRAIN_MAX_ATTEMPTS + 1 - y
  {
    if y <= DRAIN_MAX_ATTEMPTS {
      DiffGrows(DRAIN_MAX_ATTEMPTS - y, levels[y], levels'[y]);
      UsedGrows(levels, levels', y + 1);
    }
  }

  lemma {:induction false} UsedIsBounded(levels: seq<nat>, y: nat, f: nat)
    requires |levels| == DRAIN_MAX_ATTEMPTS + 1 && 1 <= y <= DRAIN_MAX_ATTEMPTS + 1
    requires forall z | y <= z <= DRAIN_MAX_ATTEMPTS :: levels[z] <= f
    ensures Used(levels, y) <= Bin(DRAIN_MAX_ATTEMPTS + 1 - y, f) - 1
    decreases DRAIN_MAX_ATTEMPTS + 1 - y
  {
    if y <= DRAIN_MAX_ATTEMPTS {
      UsedIsBounded(levels, y + 1, f);
      DiffGrows(DRAIN_MAX_ATTEMPTS - y, levels[y], f);
      DiffIs(DRAIN_MAX_ATTEMPTS - y, f);
    }
  }

  /** One more pass beyond h, however many of those beyond it fall back, is worth at least one. */
  lemma {:induction false} UsedSteps(levels: seq<nat>, levels': seq<nat>, y: nat, h: nat)
    requires |levels| == |levels'| == DRAIN_MAX_ATTEMPTS + 1 && 1 <= y <= h + 1 <= DRAIN_MAX_ATTEMPTS
    requires forall z | y <= z <= h :: levels[z] <= levels'[z]
    requires levels[h + 1] + 1 <= levels'[h + 1]
    requires forall z | h + 1 < z <= DRAIN_MAX_ATTEMPTS :: levels[z] <= levels[h + 1]
    ensures Used(levels, y) + 1 <= Used(levels', y)
    decreases h + 1 - y
  {
    if y == h + 1 {
      var m := DRAIN_MAX_ATTEMPTS - y;
      UsedIsBounded(levels, y + 1, levels[y]);
      DiffNext(m, levels[y]);
      DiffGrows(m, levels[y] + 1, levels'[y]);
    } else {
      DiffGrows(DRAIN_MAX_ATTEMPTS - y, levels[y], levels'[y]);
      UsedSteps(levels, levels', y + 1, h);
    }
  }

  // ---------------------------------------------------------------- the passes of a run

  /** The attempts of a report; one that left the spool cannot be read any more. */
  function CountOf(s: Spool, k: Key): nat {
    if k in s.pending then s.pending[k].attempts else DRAIN_MAX_ATTEMPTS
  }

  /** The pass has read the report at this count and not acknowledged it yet. */
  predicate Holds(w: World, p: nat, k: Key, a: nat) {
    || (exists i | i in w.actors :: HeldBy(w.actors[i], p, k, a))
    || (exists n | 0 <= n < |QueueOf(w, p)| :: QueueOf(w, p)[n].key == k && QueueOf(w, p)[n].attempts == a)
  }

  predicate HeldBy(x: Actor, p: nat, k: Key, a: nat) {
    x.kind == Drained(a, p) && x.key == k
  }

  /** Neither the present count nor anything the pass holds lies below y. */
  ghost predicate AtLeast(w: World, k: Key, p: nat, y: nat) {
    CountOf(w.spool, k) >= y && forall a: nat | Holds(w, p, k, a) :: a >= y
  }

  ghost function PassesAt(w: World, k: Key, passes: nat, y: nat): set<nat> {
    set p | 0 <= p < passes && AtLeast(w, k, p, y)
  }

  ghost function Levels(w: World, k: Key, passes: nat): seq<nat> {
    seq(DRAIN_MAX_ATTEMPTS + 1, y requires 0 <= y < DRAIN_MAX_ATTEMPTS + 1 => |PassesAt(w, k, passes, y)|)
  }

  lemma {:induction false} FewPasses(passes: nat, some: set<nat>)
    requires forall p | p in some :: p < passes
    ensures |some| <= passes
  {
    if passes > 0 {
      FewPasses(passes - 1, some - {passes - 1});
    } else {
      assert some == {};
    }
  }

  /** Every pass holds a report at one count at most. */
  ghost predicate HeldOnce(w: World) {
    && (forall i, j | i in w.actors && j in w.actors && Drains(w.actors[i]) && Drains(w.actors[j])
                      && w.actors[i].kind.pass == w.actors[j].kind.pass :: i == j)
    && (forall i, n | i in w.actors && Drains(w.actors[i]) && 0 <= n < |QueueOf(w, w.actors[i].kind.pass)| ::
          QueueOf(w, w.actors[i].kind.pass)[n].key != w.actors[i].key)
    && (forall p, m, n | p in w.queues && 0 <= m < n < |w.queues[p]| :: w.queues[p][m].key != w.queues[p][n].key)
  }

  ghost predicate PassesBelow(w: World, passes: nat) {
    && (forall i | i in w.actors && Drains(w.actors[i]) :: w.actors[i].kind.pass < passes)
    && (forall p | p in w.queues :: p < passes)
  }

  predicate PassesWithin(es: seq<Event>, passes: nat) {
    forall i | 0 <= i < |es| && es[i].BeginPass? :: es[i].pass < passes
  }

  /** What is put off so far is paid for by passes that can no longer write low counts. */
  ghost predicate Paid(w: World, passes: nat) {
    forall k: Key :: Count(w.rescheduled, k) <= Used(Levels(w, k, passes), 1)
  }

  lemma LevelsGrow(w: World, w': World, k: Key, passes: nat)
    requires forall p: nat, y: nat | p < passes && AtLeast(w, k, p, y) :: AtLeast(w', k, p, y)
    ensures Used(Levels(w, k, passes), 1) <= Used(Levels(w', k, passes), 1)
  {
    forall y | 1 <= y <= DRAIN_MAX_ATTEMPTS
      ensures Levels(w, k, passes)[y] <= Levels(w', k, passes)[y]
    {
      SubsetSize(PassesAt(w, k, passes, y), PassesAt(w', k, passes, y));
    }
    UsedGrows(Levels(w, k, passes), Levels(w', k, passes), 1);
  }

  /** Nobody holds less than before, and the count did not fall. */
  ghost predicate NothingFalls(w: World, w': World, k: Key) {
    && CountOf(w.spool, k) <= CountOf(w'.spool, k)
    && forall p: nat, a: nat | Holds(w', p, k, a) :: Holds(w, p, k, a) || a >= CountOf(w.spool, k)
  }

  lemma NothingFallsPays(w: World, w': World, k: Key, passes: nat)
    requires NothingFalls(w, w', k)
    ensures Used(Levels(w, k, passes), 1) <= Used(Levels(w', k, passes), 1)
  {
    LevelsGrow(w, w', k, passes);
  }

  /** Putting a report off moves its pass beyond the count it had read. */
  lemma PutOffPays(w: World, w': World, k: Key, p: nat, h: nat, passes: nat)
    requires p < passes && h < DRAIN_MAX_ATTEMPTS && Holds(w, p, k, h)
    requires CountOf(w'.spool, k) == h + 1 && forall a: nat :: !Holds(w', p, k, a)
    requires forall q: nat, a: nat | Holds(w', q, k, a) :: Holds(w, q, k, a)
    ensures Used(Levels(w, k, passes), 1) + 1 <= Used(Levels(w', k, passes), 1)
  {
    var before, after := Levels(w, k, passes), Levels(w', k, passes);
    forall y | 1 <= y <= h + 1
      ensures PassesAt(w, k, passes, y) <= PassesAt(w', k, passes, y)
      ensures before[y] <= after[y]
    {
      SubsetSize(PassesAt(w, k, passes, y), PassesAt(w', k, passes, y));
    }
    assert p in PassesAt(w', k, passes, h + 1) && p !in PassesAt(w, k, passes, h + 1);
    SubsetSize(PassesAt(w, k, passes, h + 1) + {p}, PassesAt(w', k, passes, h + 1));
    forall y | h + 1 < y <= DRAIN_MAX_ATTEMPTS
      ensures before[y] <= before[h + 1]
    {
      SubsetSize(PassesAt(w, k, passes, y), PassesAt(w, k, passes, h + 1));
    }
    UsedSteps(before, after, 1, h);
  }

  // ---------------------------------------------------------------- every step pays

  lemma BeginKeepsHeld(w: World, pass: nat, keys: seq<Key>, now: real)
    requires HeldOnce(w) && Linked(w.db.sessions)
    ensures HeldOnce(Apply(w, BeginPass(pass, keys, now)))
  {
    var w' := Apply(w, BeginPass(pass, keys, now));
    if w' != w {
      assert forall i | i in w.actors && Drains(w.actors[i]) :: w.actors[i].kind.pass != pass;
      assert forall p | p != pass :: QueueOf(w', p) == QueueOf(w, p);
    }
  }

  lemma NextKeepsHeld(w: World, pass: nat, id: nat)
    requires HeldOnce(w) && Linked(w.db.sessions)
    ensures HeldOnce(Apply(w, NextJob(pass, id)))
  {
    var w' := Apply(w, NextJob(pass, id));
    if w' != w {
      var queue := QueueOf(w, pass);
      assert pass in w.queues && QueueOf(w', pass) == queue[1..];
      forall n | 0 <= n < |queue[1..]|
        ensures queue[1..][n].key != queue[0].key
      {
        assert queue[1..][n] == queue[n + 1];
      }
      assert forall i | i in w.actors && Drains(w.actors[i]) :: w.actors[i].kind.pass != pass;
      assert forall p | p != pass :: QueueOf(w', p) == QueueOf(w, p);
    }
  }

  lemma FewerKeepsHeld(w: World, w': World)
    requires HeldOnce(w) && Fewer(w, w')
    ensures HeldOnce(w')
  {
    assert forall p :: QueueOf(w', p) == QueueOf(w, p) || QueueOf(w', p) == [];
  }

  lemma PlainStepKeepsHeld(w: World, e: Event)
    requires HeldOnce(w) && Linked(w.db.sessions) && !e.BeginPass? && !e.NextJob?
    ensures HeldOnce(Apply(w, e))
  {
    PlainStepFewer(w, e);
    FewerKeepsHeld(w, Apply(w, e));
  }

  lemma PlainStepFewer(w: World, e: Event)
    requires Linked(w.db.sessions) && !e.BeginPass? && !e.NextJob?
    ensures Fewer(w, Apply(w, e))
  {
  }

  lemma StepKeepsHeld(w: World, e: Event)
    requires HeldOnce(w) && Linked(w.db.sessions)
    ensures HeldOnce(Apply(w, e))
  {
    match e
    case BeginPass(pass, keys, now) => BeginKeepsHeld(w, pass, keys, now);
    case NextJob(pass, id) => NextKeepsHeld(w, pass, id);
    case _ => PlainStepKeepsHeld(w, e);
  }

  lemma StepKeepsBelow(w: World, e: Event, passes: nat)
    requires PassesBelow(w, passes) && Linked(w.db.sessions) && (e.BeginPass? ==> e.pass < passes)
    ensures PassesBelow(Apply(w, e), passes)
  {
  }

  /** Steps that put nothing off never give a pass back a lower count to write. */
  lemma BeginHoldsMore(w: World, pass: nat, keys: seq<Key>, now: real, k: Key)
    requires Linked(w.db.sessions)
    ensures NothingFalls(w, Apply(w, BeginPass(pass, keys, now)), k)
  {
    var w' := Apply(w, BeginPass(pass, keys, now));
    forall p: nat, a: nat | Holds(w', p, k, a)
      ensures Holds(w, p, k, a) || a >= CountOf(w.spool, k)
    {
      if p != pass { assert QueueOf(w', p) == QueueOf(w, p); }
      if i :| i in w'.actors && HeldBy(w'.actors[i], p, k, a) { assert HeldBy(w.actors[i], p, k, a); }
    }
  }

  lemma NextHoldsSame(w: World, pass: nat, id: nat, k: Key)
    requires Linked(w.db.sessions)
    ensures NothingFalls(w, Apply(w, NextJob(pass, id)), k)
  {
    var w' := Apply(w, NextJob(pass, id));
    forall p: nat, a: nat | Holds(w', p, k, a)
      ensures Holds(w, p, k, a)
    {
      if p != pass { assert QueueOf(w', p) == QueueOf(w, p); }
      if i :| i in w'.actors && HeldBy(w'.actors[i], p, k, a) {
        if i in w.actors && w.actors[i] == w'.actors[i] { assert HeldBy(w.actors[i], p, k, a); }
      } else if w' != w && p == pass {
        var n :| 0 <= n < |QueueOf(w', p)| && QueueOf(w', p)[n].key == k && QueueOf(w', p)[n].attempts == a;
        assert QueueOf(w, p)[n + 1].key == k;
      }
    }
  }

  /** Fewer actors, the same queues or none. */
  lemma FewerHold(w: World, w': World, k: Key)
    requires Fewer(w, w')
    ensures forall p: nat, a: nat | Holds(w', p, k, a) :: Holds(w, p, k, a)
  {
    forall p: nat, a: nat | Holds(w', p, k, a)
      ensures Holds(w, p, k, a)
    {
      assert QueueOf(w', p) == QueueOf(w, p) || QueueOf(w', p) == [];
      if i :| i in w'.actors && HeldBy(w'.actors[i], p, k, a) { assert HeldBy(w.actors[i], p, k, a); }
    }
  }

  /** A report is put off: its pass drops it and the count becomes one more than the pass had read. */
  lemma PutOffStep(w: World, id: nat, now: real, passes: nat)
    requires Linked(w.db.sessions) && HeldOnce(w) && PassesBelow(w, passes) && CountsOk(w.spool.pending, w.actors, w.queues)
    requires id in w.actors && Drains(w.actors[id]) && w.actors[id].phase == Acking(Retry) && w.actors[id].key in w.spool.pending
    ensures var k := w.actors[id].key;
            Used(Levels(w, k, passes), 1) + 1 <= Used(Levels(Apply(w, Acknowledge(id, now)), k, passes), 1)
  {
    var a, w' := w.actors[id], Apply(w, Acknowledge(id, now));
    var k, p, h := a.key, a.kind.pass, a.kind.attempts;
    assert HeldBy(w.actors[id], p, k, h);
    FewerHold(w, w', k);
    forall b: nat
      ensures !Holds(w', p, k, b)
    {
      assert forall i | i in w'.actors :: !HeldBy(w'.actors[i], p, k, b);
      assert QueueOf(w', p) == QueueOf(w, p);
    }
    PutOffPays(w, w', k, p, h, passes);
  }

  lemma AckPays(w: World, id: nat, now: real, passes: nat, k: Key)
    requires Linked(w.db.sessions) && HeldOnce(w) && PassesBelow(w, passes) && CountsOk(w.spool.pending, w.actors, w.queues)
    requires Count(w.rescheduled, k) <= Used(Levels(w, k, passes), 1)
    ensures var w' := Apply(w, Acknowledge(id, now)); Count(w'.rescheduled, k) <= Used(Levels(w', k, passes), 1)
  {
    var w' := Apply(w, Acknowledge(id, now));
    if id in w.actors && w.actors[id].phase.Acking? {
      var a := w.actors[id];
      if a.key == k && Drains(a) && a.phase.outcome == Retry && k in w.spool.pending {
        PutOffStep(w, id, now, passes);
      } else {
        FewerHold(w, w', k);
        AckPending(w.spool, a, now);
        NothingFallsPays(w, w', k, passes);
      }
    }
  }

  lemma PlainStepPays(w: World, e: Event, passes: nat, k: Key)
    requires Linked(w.db.sessions) && !e.BeginPass? && !e.NextJob? && !e.Acknowledge?
    requires CountsOk(w.spool.pending, w.actors, w.queues) && Count(w.rescheduled, k) <= Used(Levels(w, k, passes), 1)
    ensures Count(Apply(w, e).rescheduled, k) <= Used(Levels(Apply(w, e), k, passes), 1)
  {
    var w' := Apply(w, e);
    PlainStep(w, e);
    FewerHold(w, w', k);
    if CountOf(w.spool, k) <= CountOf(w'.spool, k) {
      NothingFallsPays(w, w', k, passes);
      assert Count(w'.rescheduled, k) <= Count(w.rescheduled, k);
    } else {
      assert Count(w'.rescheduled, k) == 0;
    }
  }

  lemma StepPays(w: World, e: Event, passes: nat, k: Key)
    requires Linked(w.db.sessions) && HeldOnce(w) && PassesBelow(w, passes) && CountsOk(w.spool.pending, w.actors, w.queues)
    requires Count(w.rescheduled, k) <= Used(Levels(w, k, passes), 1)
    ensures Count(Apply(w, e).rescheduled, k) <= Used(Levels(Apply(w, e), k, passes), 1)
  {
    match e
    case Acknowledge(id, now) => AckPays(w, id, now, passes, k);
    case BeginPass(pass, keys, now) =>
      BeginHoldsMore(w, pass, keys, now, k);
      NothingFallsPays(w, Apply(w, e), k, passes);
    case NextJob(pass, id) =>
      NextHoldsSame(w, pass, id, k);
      NothingFallsPays(w, Apply(w, e), k, passes);
    case _ => PlainStepPays(w, e, passes, k);
  }

  lemma {:induction false} RunPays(es: seq<Event>, passes: nat)
    requires PassesWithin(es, passes)
    ensures HeldOnce(Run(es)) && PassesBelow(Run(es), passes) && Paid(Run(es), passes)
  {
    if es != [] {
      var front, last := es[..|es| - 1], es[|es| - 1];
      RunPays(front, passes);
      StepKeepsHeld(Run(front), last);
      StepKeepsBelow(Run(front), last, passes);
      forall k: Key
        ensures Count(Run(es).rescheduled, k) <= Used(Levels(Run(es), k, passes), 1)
      {
        StepPays(Run(front), last, passes, k);
      }
    }
  }

  /**
   Between two spoolings a report is put off or given up at most as often as this number says, which depends
   on the number of passes that may overlap and on nothing else; so no report is retried for ever.
   */
  lemma RetriesAreBounded(es: seq<Event>, passes: nat, k: Key)
    requires PassesWithin(es, passes)
    ensures Count(Run(es).rescheduled, k) <= Bin(DRAIN_MAX_ATTEMPTS, passes) - 1
    ensures k in Run(es).spool.pending ==> Run(es).spool.pending[k].attempts < DRAIN_MAX_ATTEMPTS
  {
    RunPays(es, passes);
    var levels := Levels(Run(es), k, passes);
    forall y | 1 <= y <= DRAIN_MAX_ATTEMPTS
      ensures levels[y] <= passes
    {
      FewPasses(passes, PassesAt(Run(es), k, passes, y));
    }
    UsedIsBounded(levels, 1, passes);
  }

  lemma {:induction false} BinOne(m: nat)
    ensures Bin(m, 1) == m + 1
  {
    if m > 0 { BinOne(m - 1); }
  }

  lemma {:induction false} BinTwo(m: nat)
    ensures 2 * Bin(m, 2) == (m + 1) * (m + 2)
  {
    if m > 0 {
      BinTwo(m - 1);
      BinOne(m);
    }
  }

  lemma BoundOfOne(passes: nat, count: nat)
    requires passes == 1 && count <= Bin(DRAIN_MAX_ATTEMPTS, passes) - 1
    ensures count <= 24
  {
    BinOne(DRAIN_MAX_ATTEMPTS);
  }

  lemma BoundOfTwo(passes: nat, count: nat)
    requires passes == 2 && count <= Bin(DRAIN_MAX_ATTEMPTS, passes) - 1
    ensures count <= 324
  {
    BinTwo(DRAIN_MAX_ATTEMPTS);
  }

  /** One drainer puts a report off or gives it up at most 24 times. */
  lemma OneDrainer(es: seq<Event>, passes: nat, k: Key)
    requires passes == 1 && PassesWithin(es, passes)
    ensures Count(Run(es).rescheduled, k) <= 24
  {
    RetriesAreBounded(es, passes, k);
    BoundOfOne(passes, Count(Run(es).rescheduled, k));
  }

  /** The two drainers the gateway arms for a profile do so at most 324 times. */
  lemma TwoDrainers(es: seq<Event>, passes: nat, k: Key)
    requires passes == 2 && PassesWithin(es, passes)
    ensures Count(Run(es).rescheduled, k) <= 324
  {
    RetriesAreBounded(es, passes, k);
    BoundOfTwo(passes, Count(Run(es).rescheduled, k));
  }

  // ---------------------------------------------------------------- many passes, many retries

  const T := 1.0

  function Once(k: Key): Spool { Spool(map[k := Pending("report", 0, 0.0)], map[]) }
  function PutOff(k: Key): Spool { Spool(map[k := Pending("report", 1, T + Backoff(1))], map[]) }

  /** Passes from `low` up to `high` hold the report at count 0 and found SessionDB unavailable. */
  function Holding(k: Key, low: nat, high: nat): map<nat, Actor> {
    map i: nat | low <= i < high :: Actor(Drained(0, i), k, "report", Acking(Retry))
  }

  function Empty(high: nat): map<nat, seq<Job>> {
    if high == 0 then map[] else Empty(high - 1)[high - 1 := []]
  }

  function Held(k: Key, n: nat): World {
    World(Db([], []), Once(k), Holding(k, 0, n), Empty(n), {k}, map[k := 0])
  }

  function Written(k: Key, m: nat, n: nat): World {
    World(Db([], []), PutOff(k), Holding(k, m, n), Empty(n), {k}, map[k := m])
  }

  function TheJob(k: Key): Job {
    CronBridgeStore.Job(k, "report", 0)
  }

  /** Pass n has read the report, then taken it up. */
  function Read(k: Key, n: nat): World {
    Held(k, n).(queues := Empty(n)[n := [TheJob(k)]])
  }

  function TakenUp(k: Key, n: nat): World {
    Held(k, n).(queues := Empty(n + 1), actors := Holding(k, 0, n)[n := Actor(Drained(0, n), k, "report", Resolving(3))])
  }

  lemma NobodyTries(k: Key, n: nat)
    ensures !Trying(Held(k, n), n) && !Trying(Read(k, n), n)
  {
    forall i | i in Holding(k, 0, n)
      ensures Holding(k, 0, n)[i].kind.pass != n
    {
    }
  }

  lemma ReadStep(k: Key, n: nat)
    ensures Linked(Held(k, n).db.sessions) && Apply(Held(k, n), BeginPass(n, [k], T)) == Read(k, n)
  {
    NobodyTries(k, n);
    assert DuePage(Once(k), [k], T);
    assert Jobs(Once(k), [k]) == [TheJob(k)];
  }

  lemma TakeStep(k: Key, n: nat)
    ensures Linked(Read(k, n).db.sessions) && Apply(Read(k, n), NextJob(n, n)) == TakenUp(k, n)
  {
    NobodyTries(k, n);
    assert QueueOf(Read(k, n), n) == [TheJob(k)];
    assert [TheJob(k)][1..] == [];
    assert Empty(n)[n := [TheJob(k)]][n := []] == Empty(n + 1);
  }

  lemma UnavailableStep(k: Key, n: nat)
    ensures Linked(TakenUp(k, n).db.sessions) && Apply(TakenUp(k, n), Unavailable(n)) == Held(k, n + 1)
  {
    assert Apply(TakenUp(k, n), Unavailable(n)).actors == Holding(k, 0, n + 1);
  }

  lemma Step(es: seq<Event>, e: Event, passes: nat) returns (longer: seq<Event>)
    requires PassesWithin(es, passes) && (e.BeginPass? ==> e.pass < passes)
    ensures Run(longer) == Apply(Run(es), e) && PassesWithin(longer, passes)
  {
    Extend(es, e);
    longer := es + [e];
  }

  lemma OnceSteps(k: Key)
    ensures Linked(Start.db.sessions)
    ensures Apply(Start, Deliver(0, k, "report", 0.0))
         == World(Db([], []), Once(k), map[0 := Actor(Direct, k, "report", Resolving(3))], map[], {k}, map[k := 0])
    ensures Apply(World(Db([], []), Once(k), map[0 := Actor(Direct, k, "report", Resolving(3))], map[], {k}, map[k := 0]), Vanish(0)) == Held(k, 0)
  {
    assert map[0 := Actor(Direct, k, "report", Resolving(3))] - {0} == Holding(k, 0, 0);
  }

  lemma ReachOnce(k: Key, passes: nat) returns (es: seq<Event>)
    ensures Run(es) == Held(k, 0) && PassesWithin(es, passes)
  {
    OnceSteps(k);
    es := Step([], Deliver(0, k, "report", 0.0), passes);
    es := Step(es, Vanish(0), passes);
  }

  ghost predicate HeldAfter(es: seq<Event>, k: Key, n: nat, passes: nat) {
    PassesWithin(es, passes) && Run(es) == Held(k, n)
  }

  ghost predicate ReadAfter(es: seq<Event>, k: Key, n: nat, passes: nat) {
    PassesWithin(es, passes) && Run(es) == Read(k, n)
  }

  ghost predicate TakenAfter(es: seq<Event>, k: Key, n: nat, passes: nat) {
    PassesWithin(es, passes) && Run(es) == TakenUp(k, n)
  }

  lemma DoRead(es: seq<Event>, k: Key, n: nat, passes: nat) returns (longer: seq<Event>)
    requires n < passes && HeldAfter(es, k, n, passes)
    ensures ReadAfter(longer, k, n, passes)
  {
    ReadStep(k, n);
    longer := Step(es, BeginPass(n, [k], T), passes);
  }

  lemma DoTake(es: seq<Event>, k: Key, n: nat, passes: nat) returns (longer: seq<Event>)
    requires ReadAfter(es, k, n, passes)
    ensures TakenAfter(longer, k, n, passes)
  {
    TakeStep(k, n);
    longer := Step(es, NextJob(n, n), passes);
  }

  lemma DoMiss(es: seq<Event>, k: Key, n: nat, passes: nat) returns (longer: seq<Event>)
    requires TakenAfter(es, k, n, passes)
    ensures HeldAfter(longer, k, n + 1, passes)
  {
    UnavailableStep(k, n);
    longer := Step(es, Unavailable(n), passes);
  }

  lemma DoRound(es: seq<Event>, k: Key, n: nat, passes: nat) returns (longer: seq<Event>)
    requires n < passes && HeldAfter(es, k, n, passes)
    ensures HeldAfter(longer, k, n + 1, passes)
  {
    var read := DoRead(es, k, n, passes);
    var taken := DoTake(read, k, n, passes);
    longer := DoMiss(taken, k, n, passes);
  }

  ghost predicate CanHold(k: Key, n: nat, passes: nat) {
    exists es :: HeldAfter(es, k, n, passes)
  }

  lemma FirstRound(k: Key, passes: nat)
    ensures CanHold(k, 0, passes)
  {
    var es := ReachOnce(k, passes);
    assert HeldAfter(es, k, 0, passes);
  }

  lemma NextRound(k: Key, n: nat, passes: nat)
    requires n < passes && CanHold(k, n, passes)
    ensures CanHold(k, n + 1, passes)
  {
    var front :| HeldAfter(front, k, n, passes);
    var es := DoRound(front, k, n, passes);
  }

  lemma NextRounds(k: Key, n: nat)
    ensures forall m: nat | m < n && CanHold(k, m, n) :: CanHold(k, m + 1, n)
  {
    forall m: nat | m < n && CanHold(k, m, n)
      ensures CanHold(k, m + 1, n)
    {
      NextRound(k, m, n);
    }
  }

  lemma ReachHeld(k: Key, n: nat)
    ensures CanHold(k, n, n)
  {
    FirstRound(k, n);
    NextRounds(k, n);
    Climb((m: nat) => CanHold(k, m, n), n);
  }

  lemma OneMoreWritten(k: Key, m: nat, n: nat)
    requires m < n
    ensures Linked(Held(k, n).db.sessions)
    ensures m == 0 ==> Apply(Held(k, n), Acknowledge(0, T)) == Written(k, 1, n)
    ensures m > 0 ==> Apply(Written(k, m, n), Acknowledge(m, T)) == Written(k, m + 1, n) && SetBack(PutOff(k), Holding(k, m, n)[m])
  {
    assert Holding(k, m, n) - {m} == Holding(k, m + 1, n);
    assert AckSpool(Once(k), Holding(k, m, n)[m], T) == PutOff(k);
    assert AckSpool(PutOff(k), Holding(k, m, n)[m], T) == PutOff(k);
  }

  /**
   However large n is: n overlapping passes put one report off n times and its count is still 1; from the
   second acknowledgement on none makes progress. So no bound holds for every number of passes.
   */
  lemma {:induction false} ManyPassesManyRetries(k: Key, m: nat, n: nat) returns (es: seq<Event>)
    requires 0 < m <= n
    ensures PassesWithin(es, n) && Count(Run(es).rescheduled, k) == m
    ensures k in Run(es).spool.pending && Run(es).spool.pending[k].attempts == 1
    ensures m < n ==> m in Run(es).actors && SetBack(Run(es).spool, Run(es).actors[m])
    ensures Run(es) == Written(k, m, n)
  {
    if m == 1 {
      ReachHeld(k, n);
      var front :| HeldAfter(front, k, n, n);
      OneMoreWritten(k, 0, n);
      es := Step(front, Acknowledge(0, T), n);
    } else {
      es := ManyPassesManyRetries(k, m - 1, n);
      OneMoreWritten(k, m - 1, n);
      es := Step(es, Acknowledge(m - 1, T), n);
    }
    if m < n {
      OneMoreWritten(k, m, n);
    }
  }
}
