/**
 The transcript of an agent over whole runs. The flush commits exactly the rows it persists, a restart
 reloads exactly those, and only the rows' own metadata says which batch a row carries.
 */
module SteerTranscript {
  import opened Basics
  import opened SteerStore
  import opened SteerProofs
  import opened SteerBoundary
  import SteerRun

  /** `used` holds the batch ids drawn so far; a new one is fresh. */
  datatype Session = Session(world: SteerRun.World, messages: seq<Message>, used: set<BatchId>)

  const Start := Session(SteerRun.Start, [], {})

  datatype Event =
    | Ledger(e: SteerRun.Event)
    | Say(message: Message)
    | Persist(upTo: nat, ids: seq<RowId>)
    | Reload
    | ToolBoundary(run: Option<RunKey>, toolRows: int, batch: BatchId, now: real)

  /** The flush writes this row now. */
  predicate Flushes(ms: seq<Message>, upTo: nat, i: nat)
    requires i < |ms|
  {
    i < upTo && ms[i].Row? && !ms[i].persisted
  }

  function Persisted(ms: seq<Message>, upTo: nat): (r: seq<Message>)
    ensures |r| == |ms|
  {
    seq(|ms|, i requires 0 <= i < |ms| => if Flushes(ms, upTo, i) then ms[i].(persisted := true) else ms[i])
  }

  /** The committed rows that carry a batch, each with the row id it was given. */
  function Committed(ms: seq<Message>, upTo: nat, ids: seq<RowId>): set<(RowId, BatchId)>
    requires |ids| == |ms|
  {
    set i | 0 <= i < |ms| && Flushes(ms, upTo, i) && ms[i].block.Some? :: (ids[i], ms[i].block.value.batch)
  }

  /** What a restart finds in the session database. */
  function Reloaded(ms: seq<Message>): (r: seq<Message>) {
    if ms == [] then []
    else if ms[|ms| - 1].Row? && ms[|ms| - 1].persisted then Reloaded(ms[..|ms| - 1]) + [ms[|ms| - 1]]
    else Reloaded(ms[..|ms| - 1])
  }

  predicate Plain(m: Message) {
    m.Scaffold? || m.block.None?
  }

  /** Claims and commits happen only through the boundary and the flush. */
  predicate Elsewhere(e: SteerRun.Event) {
    !e.Claim? && !e.CommitRow?
  }

  function Apply(m: Marker, x: Session, e: Event): Session {
    match e
    case Ledger(le) => if Elsewhere(le) then x.(world := SteerRun.Apply(x.world, le)) else x
    case Say(message) => if Plain(message) then x.(messages := x.messages + [message]) else x
    case Persist(upTo, ids) =>
      if |ids| == |x.messages| then
        x.(messages := Persisted(x.messages, upTo),
           world := x.world.(history := x.world.history + Committed(x.messages, upTo, ids)))
      else x
    case Reload => x.(messages := Reloaded(x.messages))
    case ToolBoundary(run, toolRows, batch, now) =>
      if batch in x.used || !Injects(m, x.world.store, run, x.messages, toolRows, batch, now) then x
      else Session(SteerRun.Apply(x.world, SteerRun.Claim(run.value, batch, now)),
                   Boundary(m, x.world.store, run, x.messages, toolRows, batch, now).1, x.used + {batch})
  }

  function Run(m: Marker, es: seq<Event>): Session {
    if es == [] then Start else Apply(m, Run(m, es[..|es| - 1]), es[|es| - 1])
  }

  lemma HistoryGrows(w: SteerRun.World, more: set<(RowId, BatchId)>)
    requires SteerRun.Inv(w)
    ensures SteerRun.Inv(w.(history := w.history + more))
  {
  }

  lemma {:induction false} WorldHolds(m: Marker, es: seq<Event>)
    ensures SteerRun.Inv(Run(m, es).world)
  {
    if es != [] {
      WorldHolds(m, es[..|es| - 1]);
      WorldStep(m, Run(m, es[..|es| - 1]), es[|es| - 1]);
    }
  }

  lemma WorldStep(m: Marker, x: Session, e: Event)
    requires SteerRun.Inv(x.world)
    ensures SteerRun.Inv(Apply(m, x, e).world)
  {
    match e
    case Ledger(le) => SteerRun.StepKeepsInv(x.world, le);
    case Persist(upTo, ids) => if |ids| == |x.messages| { HistoryGrows(x.world, Committed(x.messages, upTo, ids)); }
    case ToolBoundary(run, toolRows, batch, now) =>
      if Apply(m, x, e) != x { SteerRun.ClaimKeepsInv(x.world, run.value, batch, now); }
    case _ =>
  }

  // ---------------------------------------------------------------- in order

  function ItemNumbers(items: seq<Item>): (r: seq<nat>)
    ensures |r| == |items| && forall i | 0 <= i < |r| :: r[i] == items[i].number
  {
    seq(|items|, i requires 0 <= i < |items| => items[i].number)
  }

  function ShownIn(m: Message, run: RunKey): seq<nat> {
    if m.Row? && m.block.Some? && m.block.value.run == run then ItemNumbers(m.block.value.items) else []
  }

  /** The steer numbers of a run, as the transcript shows them from top to bottom. */
  function Shown(ms: seq<Message>, run: RunKey): seq<nat> {
    if ms == [] then [] else Shown(ms[..|ms| - 1], run) + ShownIn(ms[|ms| - 1], run)
  }

  lemma ShownAppend(ms: seq<Message>, last: Message, run: RunKey)
    ensures Shown(ms + [last], run) == Shown(ms, run) + ShownIn(last, run)
  {
    assert (ms + [last])[..|ms|] == ms;
  }

  lemma {:induction false} ShownPersisted(ms: seq<Message>, upTo: nat, run: RunKey)
    ensures Shown(Persisted(ms, upTo), run) == Shown(ms, run)
  {
    if ms != [] {
      ShownPersisted(ms[..|ms| - 1], upTo, run);
      assert Persisted(ms, upTo)[..|ms| - 1] == Persisted(ms[..|ms| - 1], upTo);
    }
  }

  /** A reload drops rows, so it shows less, in the same order. */
  lemma {:induction false} ShownReloaded(ms: seq<Message>, run: RunKey)
    requires SteerRun.Increasing(Shown(ms, run))
    ensures SteerRun.Increasing(Shown(Reloaded(ms), run))
    ensures forall n | n in Shown(Reloaded(ms), run) :: n in Shown(ms, run)
  {
    if ms != [] {
      var front, last := ms[..|ms| - 1], ms[|ms| - 1];
      var before, after := Shown(front, run), ShownIn(last, run);
      SplitIncreasing(before, after);
      ShownReloaded(front, run);
      if last.Row? && last.persisted {
        ShownAppend(Reloaded(front), last, run);
        SteerRun.IncreasingJoin(Shown(Reloaded(front), run), after);
      }
    }
  }

  lemma SplitIncreasing(a: seq<nat>, b: seq<nat>)
    requires SteerRun.Increasing(a + b)
    ensures SteerRun.Increasing(a) && SteerRun.Increasing(b) && forall m, n | m in a && n in b :: m < n
  {
    assert forall i | 0 <= i < |a| :: a[i] == (a + b)[i];
    assert forall i | 0 <= i < |b| :: b[i] == (a + b)[|a| + i];
  }

  /** What is shown grows strictly, and was claimed. */
  ghost predicate InOrder(shown: seq<nat>, claimed: seq<nat>) {
    SteerRun.Increasing(shown) && forall n | n in shown :: n in claimed
  }

  lemma ClaimExtends(shown: seq<nat>, part: seq<nat>, before: seq<nat>, taken: seq<nat>)
    requires InOrder(shown, before) && part <= shown && SteerRun.Increasing(before + taken)
    ensures InOrder(part + taken, before + taken)
  {
    forall i, j | 0 <= i < j < |part + taken|
      ensures (part + taken)[i] < (part + taken)[j]
    {
      if j < |part| {
        assert part[i] == shown[i] && part[j] == shown[j];
      } else if i < |part| {
        assert part[i] == shown[i] && shown[i] in before;
        var k :| 0 <= k < |before| && before[k] == part[i];
        assert (before + taken)[k] < (before + taken)[|before| + j - |part|];
      } else {
        assert (before + taken)[|before| + i - |part|] < (before + taken)[|before| + j - |part|];
      }
    }
    forall n | n in part
      ensures n in before
    {
      var i :| 0 <= i < |part| && part[i] == n;
      assert shown[i] == n;
    }
  }

  /** What an injection shows: some front of what was shown, then the numbers it claims. */
  lemma InjectionShows(m: Marker, s: Store, key: RunKey, ms: seq<Message>, toolRows: int, batch: BatchId, now: real, run: RunKey) returns (part: seq<nat>)
    requires Injects(m, s, Some(key), ms, toolRows, batch, now)
    ensures part <= Shown(ms, run)
    ensures Shown(Boundary(m, s, Some(key), ms, toolRows, batch, now).1, run)
         == part + TakenBy(s, key, run)
  {
    var ms' := Boundary(m, s, Some(key), ms, toolRows, batch, now).1;
    var last := ms'[|ms'| - 1];
    var kept := if SpotOf(m, ms).After? then ms else ms[..|ms| - 1];
    assert ms' == kept + [last];
    ShownAppend(kept, last, run);
    part := Shown(kept, run);
    var items := AcceptedOf(s.steers, key);
    assert last.block == Some(Block(key, batch, ItemsOf(items)));
    assert ItemNumbers(ItemsOf(items)) == SteerRun.Numbers(items);
  }

  function TakenBy(s: Store, key: RunKey, run: RunKey): seq<nat> {
    if run == key then SteerRun.Numbers(AcceptedOf(s.steers, key)) else []
  }

  lemma OrderAfterClaim(s: Store, claimed: map<RunKey, seq<nat>>, key: RunKey, run: RunKey, shown: seq<nat>, part: seq<nat>)
    requires Numbered(s) && Batched(s) && SteerRun.InTurn(s, claimed) && key in s.runs
    requires InOrder(shown, SteerRun.ClaimedOf(claimed, run)) && part <= shown
    ensures InOrder(part + TakenBy(s, key, run), SteerRun.ClaimedOf(claimed, run) + TakenBy(s, key, run))
  {
    var before, taken := SteerRun.ClaimedOf(claimed, run), TakenBy(s, key, run);
    SteerRun.ClaimedGrow(s, key, claimed);
    assert SteerRun.Increasing(before + taken) by {
      if run != key { assert before + [] == before; }
    }
    ClaimExtends(shown, part, before, taken);
  }

  lemma BoundaryClaims(m: Marker, x: Session, key: RunKey, toolRows: int, batch: BatchId, now: real, run: RunKey)
    requires batch !in x.used
    requires Injects(m, x.world.store, Some(key), x.messages, toolRows, batch, now)
    ensures key in x.world.store.runs
    ensures SteerRun.ClaimedOf(Apply(m, x, ToolBoundary(Some(key), toolRows, batch, now)).world.claimed, run)
         == SteerRun.ClaimedOf(x.world.claimed, run) + TakenBy(x.world.store, key, run)
  {
  }

  lemma BoundaryKeepsOrder(m: Marker, x: Session, key: RunKey, toolRows: int, batch: BatchId, now: real, run: RunKey)
    requires Numbered(x.world.store) && Batched(x.world.store) && SteerRun.InTurn(x.world.store, x.world.claimed)
    requires batch !in x.used
    requires Injects(m, x.world.store, Some(key), x.messages, toolRows, batch, now)
    requires InOrder(Shown(x.messages, run), SteerRun.ClaimedOf(x.world.claimed, run))
    ensures var x' := Apply(m, x, ToolBoundary(Some(key), toolRows, batch, now));
            InOrder(Shown(x'.messages, run), SteerRun.ClaimedOf(x'.world.claimed, run))
  {
    var part := InjectionShows(m, x.world.store, key, x.messages, toolRows, batch, now, run);
    BoundaryClaims(m, x, key, toolRows, batch, now, run);
    OrderAfterClaim(x.world.store, x.world.claimed, key, run, Shown(x.messages, run), part);
  }

  lemma ClaimsStay(w: SteerRun.World, e: SteerRun.Event, run: RunKey)
    ensures forall n | n in SteerRun.ClaimedOf(w.claimed, run) :: n in SteerRun.ClaimedOf(SteerRun.Apply(w, e).claimed, run)
  {
  }

  lemma LedgerKeepsOrder(shown: seq<nat>, w: SteerRun.World, e: SteerRun.Event, run: RunKey)
    requires InOrder(shown, SteerRun.ClaimedOf(w.claimed, run))
    ensures InOrder(shown, SteerRun.ClaimedOf(SteerRun.Apply(w, e).claimed, run))
  {
    ClaimsStay(w, e, run);
  }

  lemma MessagesKeepOrder(m: Marker, x: Session, e: Event, run: RunKey)
    requires (e.Say? || e.Persist? || e.Reload?) && SteerRun.Increasing(Shown(x.messages, run))
    ensures Apply(m, x, e).world.claimed == x.world.claimed && SteerRun.Increasing(Shown(Apply(m, x, e).messages, run))
    ensures forall n | n in Shown(Apply(m, x, e).messages, run) :: n in Shown(x.messages, run)
  {
    if e.Say? {
      ShownAppend(x.messages, e.message, run);
      assert Plain(e.message) ==> Shown(x.messages, run) + [] == Shown(x.messages, run);
    } else if e.Persist? {
      ShownPersisted(x.messages, e.upTo, run);
    } else {
      ShownReloaded(x.messages, run);
    }
  }

  lemma StepKeepsOrder(m: Marker, x: Session, e: Event, run: RunKey)
    requires Numbered(x.world.store) && Batched(x.world.store) && SteerRun.InTurn(x.world.store, x.world.claimed)
    requires InOrder(Shown(x.messages, run), SteerRun.ClaimedOf(x.world.claimed, run))
    ensures InOrder(Shown(Apply(m, x, e).messages, run), SteerRun.ClaimedOf(Apply(m, x, e).world.claimed, run))
  {
    if e.Ledger? {
      if Elsewhere(e.e) { LedgerKeepsOrder(Shown(x.messages, run), x.world, e.e, run); }
    } else if e.ToolBoundary? {
      if e.batch !in x.used && Injects(m, x.world.store, e.run, x.messages, e.toolRows, e.batch, e.now) {
        assert e == ToolBoundary(Some(e.run.value), e.toolRows, e.batch, e.now);
        BoundaryKeepsOrder(m, x, e.run.value, e.toolRows, e.batch, e.now, run);
      }
    } else {
      MessagesKeepOrder(m, x, e, run);
    }
  }

  /**
   Over any run of the agent, restarts included, the steers of a run appear in the transcript in the strict
   order of their numbers, none twice, whichever boundaries appended a row and whichever merged into one.
   */
  lemma {:induction false} TranscriptInOrder(m: Marker, es: seq<Event>, run: RunKey)
    ensures InOrder(Shown(Run(m, es).messages, run), SteerRun.ClaimedOf(Run(m, es).world.claimed, run))
  {
    if es != [] {
      TranscriptInOrder(m, es[..|es| - 1], run);
      WorldHolds(m, es[..|es| - 1]);
      StepKeepsOrder(m, Run(m, es[..|es| - 1]), es[|es| - 1], run);
    }
  }

  // ---------------------------------------------------------------- what a row carries is true

  predicate CarriesPersisted(msg: Message, batch: BatchId) {
    CarriesAt(msg, batch) && msg.persisted
  }

  /** Every committed row that carries a batch is still in the transcript. */
  ghost predicate HistoryShown(ms: seq<Message>, history: set<(RowId, BatchId)>) {
    forall h | h in history :: exists k :: 0 <= k < |ms| && CarriesPersisted(ms[k], h.1)
  }

  predicate ItemOf(s: Steer, block: Block) {
    Item(s.id, s.number, s.text) in block.items
  }

  /** A row lists every steer of the batch it carries, and carries a batch id that was drawn. */
  ghost predicate BlocksTrue(ms: seq<Message>, steers: seq<Steer>, used: set<BatchId>) {
    forall k | 0 <= k < |ms| && ms[k].Row? && ms[k].block.Some? ::
      BlockTrue(ms[k].block.value, steers, used)
  }

  ghost predicate BlockTrue(block: Block, steers: seq<Steer>, used: set<BatchId>) {
    block.batch in used && forall i | 0 <= i < |steers| && steers[i].batch == Some(block.batch) :: ItemOf(steers[i], block)
  }

  /** Every steer of `after` that is in a batch was in it before. */
  ghost predicate OldBatches(before: seq<Steer>, after: seq<Steer>) {
    forall i | 0 <= i < |after| && after[i].batch.Some? :: exists j :: 0 <= j < |before| && SameItem(before[j], after[i])
  }

  predicate SameItem(a: Steer, b: Steer) {
    a.id == b.id && a.number == b.number && a.text == b.text && a.batch == b.batch
  }

  lemma OldBatchesKeepBlocks(ms: seq<Message>, before: seq<Steer>, after: seq<Steer>, used: set<BatchId>)
    requires BlocksTrue(ms, before, used) && OldBatches(before, after)
    ensures BlocksTrue(ms, after, used)
  {
    forall k | 0 <= k < |ms| && ms[k].Row? && ms[k].block.Some?
      ensures BlockTrue(ms[k].block.value, after, used)
    {
      assert BlockTrue(ms[k].block.value, before, used);
    }
  }

  lemma InPlaceIsOld(before: seq<Steer>, after: seq<Steer>)
    requires |before| <= |after| && forall i | 0 <= i < |before| :: SameItem(before[i], after[i])
    requires forall i | |before| <= i < |after| :: after[i].batch.None?
    ensures OldBatches(before, after)
  {
    forall i | 0 <= i < |after| && after[i].batch.Some?
      ensures exists j :: 0 <= j < |before| && SameItem(before[j], after[i])
    {
      assert SameItem(before[i], after[i]);
    }
  }

  lemma PruneIsOld(before: seq<Steer>, s: Store, gone: set<RunKey>)
    requires OldBatches(before, s.steers)
    ensures OldBatches(before, Forget(s, gone).steers)
  {
    var after := Forget(s, gone).steers;
    forall i | 0 <= i < |after| && after[i].batch.Some?
      ensures exists j :: 0 <= j < |before| && SameItem(before[j], after[i])
    {
      var a := KeptOne(s.steers, gone, i);
    }
  }

  /** Only a claim puts a steer into a batch. */
  lemma PlainStepIsOld(w: SteerRun.World, e: SteerRun.Event)
    requires Batched(w.store) && Elsewhere(e) && !e.Restart? && !e.PruneEvent?
    ensures OldBatches(w.store.steers, SteerRun.Apply(w, e).store.steers)
  {
    PlainStepInPlace(w, e);
    InPlaceIsOld(w.store.steers, SteerRun.Apply(w, e).store.steers);
  }

  lemma PlainStepInPlace(w: SteerRun.World, e: SteerRun.Event)
    requires Elsewhere(e) && !e.Restart? && !e.PruneEvent?
    ensures var before, after := w.store.steers, SteerRun.Apply(w, e).store.steers;
            && |before| <= |after| && (forall i | 0 <= i < |before| :: SameItem(before[i], after[i]))
            && (forall i | |before| <= i < |after| :: after[i].batch.None?)
  {
  }

  lemma RestartIsOld(s: Store, live: set<string>, evidence: map<BatchId, RowId>, now: real)
    requires Valid(s)
    ensures OldBatches(s.steers, Prune(Recover(s, live, evidence, now), now).steers)
  {
    var s' := Recover(s, live, evidence, now);
    RecoverRepairs(s, live, evidence, now);
    forall i | 0 <= i < |s.steers|
      ensures SameItem(s.steers[i], s'.steers[i])
    {
      assert Repaired(s.steers[i], s'.steers[i], Sealed(s', s.steers[i].id.run), live, evidence);
    }
    InPlaceIsOld(s.steers, s'.steers);
    PruneIsOld(s.steers, s', set run | run in s'.runs && Prunable(s'.runs, run, now - RECEIPT_TTL));
  }

  lemma LedgerIsOld(w: SteerRun.World, e: SteerRun.Event)
    requires Valid(w.store) && Elsewhere(e)
    ensures OldBatches(w.store.steers, SteerRun.Apply(w, e).store.steers)
  {
    match e
    case Restart(live, evidence, now) =>
      if forall b | b in evidence :: (evidence[b], b) in w.history { RestartIsOld(w.store, live, evidence, now); }
      else { InPlaceIsOld(w.store.steers, w.store.steers); }
    case PruneEvent(now) =>
      InPlaceIsOld(w.store.steers, w.store.steers);
      PruneIsOld(w.store.steers, w.store, set run | run in w.store.runs && Prunable(w.store.runs, run, now - RECEIPT_TTL));
    case _ => PlainStepIsOld(w, e);
  }

  /** After a claim the steers of the new batch are exactly the claimed ones; those of any other are the old ones. */
  lemma ClaimedItems(s: Store, run: RunKey, batch: BatchId, now: real)
    requires Batched(s) && ClaimBatch(s, run, batch, now).1.Claimed?
    ensures var s' := ClaimBatch(s, run, batch, now).0;
            && |s'.steers| == |s.steers|
            && (forall i | 0 <= i < |s.steers| && s'.steers[i].batch != Some(batch) :: s'.steers[i] == s.steers[i])
            && (forall i | 0 <= i < |s.steers| && s'.steers[i].batch == Some(batch) ::
                  ItemOf(s'.steers[i], Block(run, batch, ItemsOf(AcceptedOf(s.steers, run)))))
  {
    var items := AcceptedOf(s.steers, run);
    NewBatchHasNoSteers(s, batch);
    AcceptedMembers(s.steers, run);
    forall i | 0 <= i < |s.steers| && Waiting(s.steers[i], run)
      ensures Item(s.steers[i].id, s.steers[i].number, s.steers[i].text) in ItemsOf(items)
    {
      var k :| 0 <= k < |items| && items[k] == s.steers[i];
      assert ItemsOf(items)[k] == Item(s.steers[i].id, s.steers[i].number, s.steers[i].text);
    }
  }

  /** An injection leaves all rows but the last as they were; the last carries the new batch. */
  lemma InjectionShape(m: Marker, s: Store, run: RunKey, ms: seq<Message>, toolRows: int, batch: BatchId, now: real)
    requires Injects(m, s, Some(run), ms, toolRows, batch, now)
    ensures var ms' := Boundary(m, s, Some(run), ms, toolRows, batch, now).1;
            && |ms'| > 0 && |ms'| >= |ms| && ms'[|ms'| - 1].Row? && !ms'[|ms'| - 1].persisted
            && ms'[|ms'| - 1].block == Some(Block(run, batch, ItemsOf(AcceptedOf(s.steers, run))))
            && (forall k | 0 <= k < |ms'| - 1 :: k < |ms| && ms'[k] == ms[k])
            && (|ms'| == |ms| ==> SteerTail(ms[|ms| - 1]))
            && |ms'| <= |ms| + 1
  {
    InjectedRow(m, ms, SpotOf(m, ms), Block(run, batch, ItemsOf(AcceptedOf(s.steers, run))), Lines(AcceptedOf(s.steers, run)));
  }

  lemma BoundaryKeepsBlocks(m: Marker, x: Session, run: RunKey, toolRows: int, batch: BatchId, now: real)
    requires Batched(x.world.store) && batch !in x.used && Injects(m, x.world.store, Some(run), x.messages, toolRows, batch, now)
    requires BlocksTrue(x.messages, x.world.store.steers, x.used)
    ensures var x' := Apply(m, x, ToolBoundary(Some(run), toolRows, batch, now)); BlocksTrue(x'.messages, x'.world.store.steers, x'.used)
  {
    var x' := Apply(m, x, ToolBoundary(Some(run), toolRows, batch, now));
    InjectionShape(m, x.world.store, run, x.messages, toolRows, batch, now);
    ClaimedItems(x.world.store, run, batch, now);
    forall k | 0 <= k < |x'.messages| && x'.messages[k].Row? && x'.messages[k].block.Some?
      ensures BlockTrue(x'.messages[k].block.value, x'.world.store.steers, x'.used)
    {
      if k < |x'.messages| - 1 { assert BlockTrue(x.messages[k].block.value, x.world.store.steers, x.used); }
    }
  }

  lemma BoundaryKeepsHistory(m: Marker, x: Session, run: RunKey, toolRows: int, batch: BatchId, now: real)
    requires batch !in x.used && Injects(m, x.world.store, Some(run), x.messages, toolRows, batch, now)
    requires HistoryShown(x.messages, x.world.history)
    ensures var x' := Apply(m, x, ToolBoundary(Some(run), toolRows, batch, now)); HistoryShown(x'.messages, x'.world.history)
  {
    var x' := Apply(m, x, ToolBoundary(Some(run), toolRows, batch, now));
    InjectionShape(m, x.world.store, run, x.messages, toolRows, batch, now);
    forall h | h in x'.world.history
      ensures exists k :: 0 <= k < |x'.messages| && CarriesPersisted(x'.messages[k], h.1)
    {
      var k :| 0 <= k < |x.messages| && CarriesPersisted(x.messages[k], h.1);
      assert x'.messages[k] == x.messages[k];
    }
  }

  lemma PersistKeepsTruth(x: Session, upTo: nat, ids: seq<RowId>)
    requires |ids| == |x.messages|
    requires BlocksTrue(x.messages, x.world.store.steers, x.used) && HistoryShown(x.messages, x.world.history)
    ensures BlocksTrue(Persisted(x.messages, upTo), x.world.store.steers, x.used)
    ensures HistoryShown(Persisted(x.messages, upTo), x.world.history + Committed(x.messages, upTo, ids))
  {
    var ms, ms' := x.messages, Persisted(x.messages, upTo);
    forall k | 0 <= k < |ms'| && ms'[k].Row? && ms'[k].block.Some?
      ensures BlockTrue(ms'[k].block.value, x.world.store.steers, x.used)
    {
      assert BlockTrue(ms[k].block.value, x.world.store.steers, x.used);
    }
    forall h | h in x.world.history + Committed(ms, upTo, ids)
      ensures exists k :: 0 <= k < |ms'| && CarriesPersisted(ms'[k], h.1)
    {
      if h in x.world.history {
        var k :| 0 <= k < |ms| && CarriesPersisted(ms[k], h.1);
        assert CarriesPersisted(ms'[k], h.1);
      } else {
        var k :| 0 <= k < |ms| && Flushes(ms, upTo, k) && ms[k].block.Some? && h == (ids[k], ms[k].block.value.batch);
        assert CarriesPersisted(ms'[k], h.1);
      }
    }
  }

  lemma {:induction false} ReloadedRows(ms: seq<Message>)
    ensures forall r | r in Reloaded(ms) :: r in ms
    ensures forall k | 0 <= k < |ms| && ms[k].Row? && ms[k].persisted :: ms[k] in Reloaded(ms)
  {
    if ms != [] {
      ReloadedRows(ms[..|ms| - 1]);
      assert ms == ms[..|ms| - 1] + [ms[|ms| - 1]];
    }
  }

  lemma ReloadKeepsTruth(ms: seq<Message>, steers: seq<Steer>, used: set<BatchId>, history: set<(RowId, BatchId)>)
    requires BlocksTrue(ms, steers, used) && HistoryShown(ms, history)
    ensures BlocksTrue(Reloaded(ms), steers, used) && HistoryShown(Reloaded(ms), history)
  {
    ReloadedRows(ms);
    var ms' := Reloaded(ms);
    forall k | 0 <= k < |ms'| && ms'[k].Row? && ms'[k].block.Some?
      ensures BlockTrue(ms'[k].block.value, steers, used)
    {
      assert ms'[k] in ms;
    }
    forall h | h in history
      ensures exists k :: 0 <= k < |ms'| && CarriesPersisted(ms'[k], h.1)
    {
      var k :| 0 <= k < |ms| && CarriesPersisted(ms[k], h.1);
      assert ms[k] in ms';
    }
  }

  lemma SayKeepsTruth(ms: seq<Message>, message: Message, steers: seq<Steer>, used: set<BatchId>, history: set<(RowId, BatchId)>)
    requires BlocksTrue(ms, steers, used) && HistoryShown(ms, history) && Plain(message)
    ensures BlocksTrue(ms + [message], steers, used) && HistoryShown(ms + [message], history)
  {
    var ms' := ms + [message];
    forall h | h in history
      ensures exists k :: 0 <= k < |ms'| && CarriesPersisted(ms'[k], h.1)
    {
      var k :| 0 <= k < |ms| && CarriesPersisted(ms[k], h.1);
      assert ms'[k] == ms[k];
    }
  }

  lemma StepKeepsTruth(m: Marker, x: Session, e: Event)
    requires SteerRun.Inv(x.world) && BlocksTrue(x.messages, x.world.store.steers, x.used) && HistoryShown(x.messages, x.world.history)
    ensures var x' := Apply(m, x, e);
            BlocksTrue(x'.messages, x'.world.store.steers, x'.used) && HistoryShown(x'.messages, x'.world.history)
  {
    match e
    case Ledger(le) =>
      if Elsewhere(le) {
        LedgerIsOld(x.world, le);
        OldBatchesKeepBlocks(x.messages, x.world.store.steers, SteerRun.Apply(x.world, le).store.steers, x.used);
        LedgerLeavesHistory(x.world, le);
      }
    case Say(message) => if Plain(message) { SayKeepsTruth(x.messages, message, x.world.store.steers, x.used, x.world.history); }
    case Persist(upTo, ids) => if |ids| == |x.messages| { PersistKeepsTruth(x, upTo, ids); }
    case Reload => ReloadKeepsTruth(x.messages, x.world.store.steers, x.used, x.world.history);
    case ToolBoundary(run, toolRows, batch, now) =>
      if batch !in x.used && Injects(m, x.world.store, run, x.messages, toolRows, batch, now) {
        assert run == Some(run.value);
        BoundaryKeepsBlocks(m, x, run.value, toolRows, batch, now);
        BoundaryKeepsHistory(m, x, run.value, toolRows, batch, now);
      }
  }

  lemma LedgerLeavesHistory(w: SteerRun.World, e: SteerRun.Event)
    requires Elsewhere(e)
    ensures SteerRun.Apply(w, e).history == w.history
  {
  }

  lemma {:induction false} RowsAreTrue(m: Marker, es: seq<Event>)
    ensures var x := Run(m, es); BlocksTrue(x.messages, x.world.store.steers, x.used) && HistoryShown(x.messages, x.world.history)
  {
    if es != [] {
      RowsAreTrue(m, es[..|es| - 1]);
      WorldHolds(m, es[..|es| - 1]);
      StepKeepsTruth(m, Run(m, es[..|es| - 1]), es[|es| - 1]);
    }
  }

  /** The row lists the steer under its batch, and it was persisted. */
  predicate ShowsDelivery(msg: Message, s: Steer) {
    s.batch.Some? && CarriesPersisted(msg, s.batch.value) && ItemOf(s, msg.block.value)
  }

  /**
   Over any run of the agent: a steer is delivered only if the transcript holds a persisted row that carries
   the steer's own batch and lists the steer, with its number and its text, among its items.
   */
  lemma DeliveredIsInTheTranscript(m: Marker, es: seq<Event>, i: nat)
    requires i < |Run(m, es).world.store.steers| && Run(m, es).world.store.steers[i].state == Delivered
    ensures exists k :: 0 <= k < |Run(m, es).messages| && ShowsDelivery(Run(m, es).messages[k], Run(m, es).world.store.steers[i])
  {
    var x := Run(m, es);
    var s := x.world.store.steers[i];
    WorldHolds(m, es);
    RowsAreTrue(m, es);
    assert (s.row.value, s.batch.value) in x.world.history;
    var k :| 0 <= k < |x.messages| && CarriesPersisted(x.messages[k], s.batch.value);
    assert BlockTrue(x.messages[k].block.value, x.world.store.steers, x.used);
    assert ShowsDelivery(x.messages[k], s);
  }

  // ---------------------------------------------------------------- a forgotten batch

  /** No row carries the batch, and none that did was committed. */
  ghost predicate Forgotten(x: Session, batch: BatchId) {
    batch in x.used && !Carries(x.messages, batch) && forall h | h in x.world.history :: h.1 != batch
  }

  lemma StepStaysForgotten(m: Marker, x: Session, e: Event, batch: BatchId)
    requires Forgotten(x, batch)
    ensures Forgotten(Apply(m, x, e), batch)
  {
    var x' := Apply(m, x, e);
    forall k | 0 <= k < |x'.messages|
      ensures !CarriesAt(x'.messages[k], batch)
    {
      match e
      case Reload =>
        ReloadedRows(x.messages);
        assert x'.messages[k] in x.messages;
      case ToolBoundary(run, toolRows, b, now) =>
        if x' != x {
          assert run == Some(run.value);
          InjectionShape(m, x.world.store, run.value, x.messages, toolRows, b, now);
        }
      case _ =>
        if k < |x.messages| { assert !CarriesAt(x.messages[k], batch); }
    }
    forall h | h in x'.world.history
      ensures h.1 != batch
    {
      if h !in x.world.history { NewHistoryIsCarried(m, x, e, h); }
    }
  }

  /** Only the flush adds to the history, and only what a row carries. */
  lemma NewHistoryIsCarried(m: Marker, x: Session, e: Event, h: (RowId, BatchId))
    requires h in Apply(m, x, e).world.history && h !in x.world.history
    ensures Carries(x.messages, h.1)
  {
    if e.Persist? {
      var k :| 0 <= k < |x.messages| && Flushes(x.messages, e.upTo, k) && x.messages[k].block.Some?
               && h == (e.ids[k], x.messages[k].block.value.batch);
      assert CarriesAt(x.messages[k], h.1);
    } else if e.Ledger? {
      if Elsewhere(e.e) { LedgerLeavesHistory(x.world, e.e); }
    }
  }

  lemma {:induction false} ForgottenForEver(m: Marker, es: seq<Event>, more: seq<Event>, batch: BatchId)
    requires Forgotten(Run(m, es), batch)
    ensures Forgotten(Run(m, es + more), batch)
  {
    if more == [] {
      assert es + more == es;
    } else {
      ForgottenForEver(m, es, more[..|more| - 1], batch);
      StepStaysForgotten(m, Run(m, es + more[..|more| - 1]), more[|more| - 1], batch);
      assert (es + more)[..|es + more| - 1] == es + more[..|more| - 1];
    }
  }

  /** A forgotten batch and its steers are never delivered, whatever happens afterwards. */
  lemma ForgottenNeverDelivered(m: Marker, es: seq<Event>, more: seq<Event>, batch: BatchId)
    requires Forgotten(Run(m, es), batch)
    ensures var s := Run(m, es + more).world.store;
            && (forall i | 0 <= i < |s.steers| && s.steers[i].batch == Some(batch) :: s.steers[i].state != Delivered)
            && (batch in s.batches ==> s.batches[batch].state != Delivered)
  {
    var x := Run(m, es + more);
    ForgottenForEver(m, es, more, batch);
    WorldHolds(m, es + more);
    var s := x.world.store;
    forall i | 0 <= i < |s.steers| && s.steers[i].batch == Some(batch)
      ensures s.steers[i].state != Delivered
    {
    }
    if batch in s.batches {
      var i := CarrierOf(s, batch);
    }
  }

  lemma CarrierOf(s: Store, batch: BatchId) returns (i: nat)
    requires Batched(s) && batch in s.batches
    ensures i < |s.steers| && s.steers[i].batch == Some(batch) && s.steers[i].state == s.batches[batch].state
  {
    var id := s.batches[batch].ordered[0];
    i := SteerRun.CarrierOf(s.steers, batch, id);
  }

  /** A boundary forgets a batch that the transcript carries exactly when it merges into its only carrier. */
  lemma BoundaryForgetsExactly(m: Marker, es: seq<Event>, run: Option<RunKey>, toolRows: int, batch: BatchId, now: real, lost: BatchId)
    requires Carries(Run(m, es).messages, lost) && batch !in Run(m, es).used
    ensures var x := Run(m, es);
            Forgotten(Apply(m, x, ToolBoundary(run, toolRows, batch, now)), lost)
            <==> Overwrites(m, x.world.store, run, x.messages, toolRows, batch, now) && x.messages[|x.messages| - 1].block.value.batch == lost
  {
    var x := Run(m, es);
    RowsAreTrue(m, es);
    if run.Some? && Injects(m, x.world.store, run, x.messages, toolRows, batch, now) {
      assert run == Some(run.value);
      InjectionShape(m, x.world.store, run.value, x.messages, toolRows, batch, now);
      if Merges(m, x, run.value, toolRows, batch, now, lost) {
        LostIsForgotten(m, x, run.value, toolRows, batch, now, lost);
      } else {
        OthersStay(m, x, run.value, toolRows, batch, now, lost);
      }
    }
  }

  predicate Merges(m: Marker, x: Session, run: RunKey, toolRows: int, batch: BatchId, now: real, lost: BatchId) {
    Overwrites(m, x.world.store, Some(run), x.messages, toolRows, batch, now) && x.messages[|x.messages| - 1].block.value.batch == lost
  }

  lemma OthersStay(m: Marker, x: Session, run: RunKey, toolRows: int, batch: BatchId, now: real, lost: BatchId)
    requires BlocksTrue(x.messages, x.world.store.steers, x.used) && batch !in x.used && Carries(x.messages, lost)
    requires Injects(m, x.world.store, Some(run), x.messages, toolRows, batch, now) && !Merges(m, x, run, toolRows, batch, now, lost)
    ensures Carries(Apply(m, x, ToolBoundary(Some(run), toolRows, batch, now)).messages, lost)
  {
    var ms, ms' := x.messages, Apply(m, x, ToolBoundary(Some(run), toolRows, batch, now)).messages;
    InjectionShape(m, x.world.store, run, ms, toolRows, batch, now);
    if !Overwrites(m, x.world.store, Some(run), ms, toolRows, batch, now) {
      CarriedBatchesStay(m, x.world.store, Some(run), ms, toolRows, batch, now);
    } else {
      var k :| 0 <= k < |ms| && CarriesAt(ms[k], lost);
      assert k < |ms| - 1;
      assert CarriesAt(ms'[k], lost);
    }
  }

  lemma LostIsForgotten(m: Marker, x: Session, run: RunKey, toolRows: int, batch: BatchId, now: real, lost: BatchId)
    requires BlocksTrue(x.messages, x.world.store.steers, x.used) && HistoryShown(x.messages, x.world.history) && batch !in x.used
    requires Overwrites(m, x.world.store, Some(run), x.messages, toolRows, batch, now) && x.messages[|x.messages| - 1].block.value.batch == lost
    ensures Forgotten(Apply(m, x, ToolBoundary(Some(run), toolRows, batch, now)), lost)
  {
    var ms, x' := x.messages, Apply(m, x, ToolBoundary(Some(run), toolRows, batch, now));
    InjectionShape(m, x.world.store, run, ms, toolRows, batch, now);
    assert BlockTrue(ms[|ms| - 1].block.value, x.world.store.steers, x.used);
    forall k | 0 <= k < |ms| - 1
      ensures !CarriesAt(ms[k], lost)
    {
      assert !CarriesAt(ms[..|ms| - 1][k], lost);
    }
    forall h | h in x.world.history
      ensures h.1 != lost
    {
      var k :| 0 <= k < |ms| && CarriesPersisted(ms[k], h.1);
    }
  }

  // ---------------------------------------------------------------- a run that forgets a batch

  const Sign := Marker("<", ">")
  const R := RunKey("owner", "run")
  const Open := RunRow(None, None, None, None, None, 1)
  const First := Steer(SteerId(R, "k1"), "a", 1, Accepted, None, None, None, 0.0)
  const Second := Steer(SteerId(R, "k2"), "b", 2, Accepted, None, None, None, 0.0)
  const Staged1 := First.(state := Staged, batch := Some("b1"))
  const Calls := Row("assistant", "", [Some("c")], None, None, None, false, "")
  const Result := Row("tool", "", [], Some("c"), None, None, false, "")
  const Carrier := NewUserRow(Sign, Block(R, "b1", [Item(First.id, 1, "a")]), Lines([First]))

  const Submit1 := SteerRun.Submit(First.id, "a", None, None, 0.0)
  const Submit2 := SteerRun.Submit(Second.id, "b", None, None, 0.0)

  const W0 := SteerRun.World(Store(map[R := Open], [], map[], {}), map[], map[], {})
  const W1 := SteerRun.World(Store(map[R := Open.(nextNumber := 2)], [First], map[], {}), map[First.id := SteerRun.Ticket(1, "a")], map[], {})
  const B1 := Batch(R, [First.id], Staged, None, 0.0)
  const W2 := SteerRun.World(Store(map[R := Open.(nextNumber := 2)], [Staged1], map["b1" := B1], {}),
                             map[First.id := SteerRun.Ticket(1, "a")], map[R := [1]], {})
  const W3 := SteerRun.World(Store(map[R := Open.(nextNumber := 3)], [Staged1, Second], map["b1" := B1], {}),
                             map[First.id := SteerRun.Ticket(1, "a"), Second.id := SteerRun.Ticket(2, "b")], map[R := [1]], {})

  lemma FirstSubmitted()
    ensures SteerRun.Apply(SteerRun.Start, SteerRun.Register(R, None, None, None)) == W0
    ensures SteerRun.Apply(W0, Submit1) == W1
  {
    assert Find([], First.id) == None;
    assert Outstanding([], R) == 0;
  }

  lemma FirstClaimed()
    ensures AcceptedOf([First], R) == [First] && SteerRun.Apply(W1, SteerRun.Claim(R, "b1", 0.0)) == W2
    ensures ClaimBatch(W1.store, R, "b1", 0.0).1 == Claimed([First])
  {
    assert [First][..0] == [];
    assert AcceptedOf([], R) == [];
    assert Stage([First], R, "b1", 0.0) == [Staged1];
    assert IdsOf([First]) == [First.id] && SteerRun.Numbers([First]) == [1];
    assert SteerRun.ClaimedOf(map[], R) + [1] == [1];
  }

  lemma SecondSubmitted()
    ensures SteerRun.Apply(W2, Submit2) == W3
  {
    assert [Staged1][..0] == [];
    assert Find([], Second.id) == None && Find([Staged1], Second.id) == None;
    assert Outstanding([], R) == 0 && Outstanding([Staged1], R) == 1;
  }

  lemma BatchIsComplete()
    ensures BatchComplete([Calls, Result]) && SpotOf(Sign, [Calls, Result]) == After
  {
    var ms := [Calls, Result];
    assert Some("c") in ms[0].calls;
    assert IsTool(ms[1]) && ms[1].answers == Some("c");
    assert Answered(ms, 0, "c");
    assert CompleteFrom(ms, 0);
  }

  lemma FirstInjected()
    ensures Apply(Sign, Session(W1, [Calls, Result], {}), ToolBoundary(Some(R), 1, "b1", 0.0)) == Session(W2, [Calls, Result, Carrier], {"b1"})
  {
    BatchIsComplete();
    FirstClaimed();
    assert ItemsOf([First]) == [Item(First.id, 1, "a")];
    assert [Calls, Result] + [Carrier] == [Calls, Result, Carrier];
  }

  /** The tail is an unpersisted steer row that carries a batch of its own, and another steer waits. */
  lemma SecondOverwrites()
    ensures Overwrites(Sign, W3.store, Some(R), [Calls, Result, Carrier], 1, "b2", 0.0)
  {
    var ms := [Calls, Result, Carrier];
    MarkRoundTrip(Sign, Lines([First]));
    assert ms[..2] == [Calls, Result];
    var steers := W3.store.steers;
    assert steers[|steers| - 1] == Second && steers[..|steers| - 1] == [Staged1];
    assert AcceptedOf(steers, R) == AcceptedOf([Staged1], R) + [Second];
    assert !Carries(ms[..2], "b1");
  }

  lemma Extend(m: Marker, es: seq<Event>, e: Event) returns (longer: seq<Event>)
    ensures Run(m, longer) == Apply(m, Run(m, es), e)
  {
    longer := es + [e];
    assert longer[..|es|] == es;
  }

  lemma ReachSubmitted() returns (es: seq<Event>)
    ensures Run(Sign, es) == Session(W1, [Calls, Result], {})
  {
    FirstSubmitted();
    es := Extend(Sign, [], Ledger(SteerRun.Register(R, None, None, None)));
    es := Extend(Sign, es, Ledger(Submit1));
    assert Run(Sign, es) == Session(W1, [], {});
    es := Extend(Sign, es, Say(Calls));
    es := Extend(Sign, es, Say(Result));
    assert [] + [Calls] + [Result] == [Calls, Result];
  }

  /** A run in which two boundaries follow each other, and the batch of the first is never delivered afterwards. */
  lemma ForgettingRun() returns (es: seq<Event>)
    ensures Forgotten(Run(Sign, es), "b1") && "b1" in Run(Sign, es).world.store.batches
    ensures forall more: seq<Event> | "b1" in Run(Sign, es + more).world.store.batches ::
              Run(Sign, es + more).world.store.batches["b1"].state != Delivered
  {
    es := ReachSubmitted();
    FirstInjected();
    es := Extend(Sign, es, ToolBoundary(Some(R), 1, "b1", 0.0));
    SecondSubmitted();
    es := Extend(Sign, es, Ledger(Submit2));
    es := MergeSecond(es);
    forall more: seq<Event> | "b1" in Run(Sign, es + more).world.store.batches
      ensures Run(Sign, es + more).world.store.batches["b1"].state != Delivered
    {
      ForgottenNeverDelivered(Sign, es, more, "b1");
    }
  }

  lemma MergeSecond(es: seq<Event>) returns (longer: seq<Event>)
    requires Run(Sign, es) == Session(W3, [Calls, Result, Carrier], {"b1"})
    ensures Forgotten(Run(Sign, longer), "b1") && "b1" in Run(Sign, longer).world.store.batches
  {
    SecondOverwrites();
    assert CarriesAt([Calls, Result, Carrier][2], "b1");
    BoundaryForgetsExactly(Sign, es, Some(R), 1, "b2", 0.0, "b1");
    longer := Extend(Sign, es, ToolBoundary(Some(R), 1, "b2", 0.0));
  }
}
