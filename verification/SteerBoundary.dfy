/** Putting claimed steers into the message list once a tool batch is complete. */
module SteerBoundary {
  import opened Basics
  import opened SteerStore
  import opened SteerTables
  import opened SteerProofs
  import SteerRun

  /** The items of an injected row, as its metadata lists them. */
  datatype Item = Item(id: SteerId, number: nat, text: string)
  datatype Block = Block(run: RunKey, batch: BatchId, items: seq<Item>)

  /** A message row; a tool call without an id is None. `other` stands for everything the injection never looks at. */
  datatype Message =
    | Scaffold(other: string)
    | Row(role: string, content: string, calls: seq<Option<string>>, answers: Option<string>, display: Option<string>,
          block: Option<Block>, persisted: bool, other: string)

  const STEER_DISPLAY: Option<string> := Some("steer")

  /** The core's marker around a steer's text. */
  datatype Marker = Marker(opener: string, closer: string)

  // ---------------------------------------------------------------- is the tool batch complete

  predicate CallsTools(m: Message) {
    m.Row? && m.role == "assistant" && m.calls != []
  }

  predicate IsTool(m: Message) {
    m.Row? && m.role == "tool"
  }

  predicate Answered(ms: seq<Message>, a: nat, id: string) {
    exists k :: a < k < |ms| && IsTool(ms[k]) && ms[k].answers == Some(id)
  }

  /** Behind some assistant that called tools there are only tool results, and they answer every call that has an id. */
  predicate BatchComplete(ms: seq<Message>) {
    exists a | 0 <= a < |ms| - 1 :: CompleteFrom(ms, a)
  }

  predicate CompleteFrom(ms: seq<Message>, a: nat) {
    && a + 1 < |ms| && CallsTools(ms[a])
    && (forall k | a < k < |ms| :: IsTool(ms[k]))
    && (exists c :: c in ms[a].calls && c.Some? && c.value != "")
    && (forall c | c in ms[a].calls && c.Some? && c.value != "" :: Answered(ms, a, c.value))
  }

  /** Finds the newest assistant that called tools by walking backwards, then compares ids. */
  method ToolsComplete(ms: seq<Message>) returns (complete: bool)
    ensures complete <==> BatchComplete(ms)
  {
    var last := |ms|;
    while last > 0 && !CallsTools(ms[last - 1])
      invariant 0 <= last <= |ms|
      invariant forall k | last <= k < |ms| :: !CallsTools(ms[k])
    {
      last := last - 1;
    }
    if last == 0 {
      return false;
    }
    var a := last - 1;
    assert forall b | 0 <= b < |ms| - 1 && CompleteFrom(ms, b) :: b == a;
    if last == |ms| {
      return false;
    }
    var have: set<string> := {};
    for k := last to |ms|
      invariant forall j | last <= j < k :: IsTool(ms[j])
      invariant forall id :: id in have <==> exists j :: a < j < k && ms[j].Row? && ms[j].answers == Some(id)
    {
      if !IsTool(ms[k]) {
        return false;
      }
      if ms[k].answers.Some? {
        have := have + {ms[k].answers.value};
      }
    }
    var wanted: set<string> := {};
    for j := 0 to |ms[a].calls|
      invariant forall id :: id in wanted <==> id != "" && Some(id) in ms[a].calls[..j]
    {
      var call := ms[a].calls[j];
      if call.Some? && call.value != "" {
        wanted := wanted + {call.value};
      }
    }
    assert ms[a].calls[..|ms[a].calls|] == ms[a].calls;
    complete := wanted != {} && wanted <= have;
    assert complete <==> CompleteFrom(ms, a);
    assert BatchComplete(ms) ==> CompleteFrom(ms, a);
  }

  // ---------------------------------------------------------------- the text of a row

  function Decimal(n: nat): (r: string) {
    if n < 10 then [DIGITS[n]] else Decimal(n / 10) + [DIGITS[n % 10]]
  }

  const DIGITS := "0123456789"

  function Line(s: Steer): string {
    "#" + Decimal(s.number) + ": " + s.text
  }

  function Lines(items: seq<Steer>): string {
    if items == [] then ""
    else if |items| == 1 then Line(items[0])
    else Lines(items[..|items| - 1]) + "\n" + Line(items[|items| - 1])
  }

  function Marked(m: Marker, text: string): string {
    m.opener + text + m.closer
  }

  /** The text between the markers; when they overlap in a short content there is none. */
  function NativeInner(m: Marker, content: string): Option<string> {
    if !(m.opener <= content) || !EndsWith(content, m.closer) then None
    else if |content| < |m.opener| + |m.closer| then Some("")
    else Some(content[|m.opener|..|content| - |m.closer|])
  }

  function ItemsOf(items: seq<Steer>): (r: seq<Item>)
    ensures |r| == |items| && forall i | 0 <= i < |r| :: r[i] == Item(items[i].id, items[i].number, items[i].text)
  {
    seq(|items|, i requires 0 <= i < |items| => Item(items[i].id, items[i].number, items[i].text))
  }

  function NewUserRow(m: Marker, block: Block, text: string): Message {
    Row("user", Marked(m, text), [], None, STEER_DISPLAY, Some(block), false, "")
  }

  // ---------------------------------------------------------------- the boundary

  datatype Spot = Nowhere | After | Into(inner: string)

  predicate SteerTail(m: Message) {
    m.Row? && m.role == "user" && m.display == STEER_DISPLAY && !m.persisted
  }

  /** Where a steer may go: behind a complete tool batch, or into a steer row that is not persisted yet. */
  function SpotOf(m: Marker, ms: seq<Message>): Spot {
    if ms == [] then Nowhere
    else
      var tail := ms[|ms| - 1];
      if IsTool(tail) then (if BatchComplete(ms) then After else Nowhere)
      else if SteerTail(tail) then
        var inner := NativeInner(m, tail.content);
        if inner.None? then Nowhere else Into(inner.value)
      else Nowhere
  }

  function Injected(m: Marker, ms: seq<Message>, spot: Spot, block: Block, text: string): seq<Message>
    requires spot.Into? ==> ms != [] && ms[|ms| - 1].Row?
  {
    match spot
    case Nowhere => ms
    case After => ms + [NewUserRow(m, block, text)]
    case Into(inner) => ms[..|ms| - 1] + [ms[|ms| - 1].(content := Marked(m, inner + "\n" + text), block := Some(block))]
  }

  /** One finished tool batch: the store and the messages afterwards. */
  function Boundary(m: Marker, s: Store, run: Option<RunKey>, ms: seq<Message>, toolRows: int, batch: BatchId, now: real): (Store, seq<Message>) {
    if run.None? || toolRows <= 0 then (s, ms)
    else
      var spot := SpotOf(m, ms);
      var (s', c) := ClaimBatch(s, run.value, batch, now);
      if spot.Nowhere? || !c.Claimed? then (s, ms)
      else (s', Injected(m, ms, spot, Block(run.value, batch, ItemsOf(c.items)), Lines(c.items)))
  }

  class Transcript {
    var messages: seq<Message>

    constructor (ms: seq<Message>)
      ensures messages == ms
    {
      messages := ms;
    }

    /** `run` is None when the agent is not bound to a run of a known owner, or the feature is off. */
    method OnToolBoundary(t: Tables, m: Marker, run: Option<RunKey>, toolRows: int, batch: BatchId, now: real)
      modifies this, t
      ensures (t.View(), messages) == Boundary(m, old(t.View()), run, old(messages), toolRows, batch, now)
    {
      if run.None? || run.value !in t.runs || t.runs[run.value].closedReason.Some? {
        return;
      }
      if toolRows <= 0 || messages == [] {
        return;
      }
      var tail := messages[|messages| - 1];
      var merged: Option<string> := None;
      if IsTool(tail) {
        var complete := ToolsComplete(messages);
        if !complete {
          return;
        }
      } else if SteerTail(tail) {
        merged := NativeInner(m, tail.content);
        if merged.None? {
          return;
        }
      } else {
        return;
      }
      var claim := t.ClaimAll(run.value, batch, now);
      if !claim.Claimed? {
        return;
      }
      var text := "";
      for i := 0 to |claim.items|
        invariant text == Lines(claim.items[..i])
        invariant t.View() == ClaimBatch(old(t.View()), run.value, batch, now).0 && messages == old(messages)
      {
        assert claim.items[..i + 1][..i] == claim.items[..i];
        text := if i == 0 then Line(claim.items[i]) else text + "\n" + Line(claim.items[i]);
      }
      assert claim.items[..|claim.items|] == claim.items;
      Write(m, merged, Block(run.value, batch, ItemsOf(claim.items)), text);
    }

    /** Merges into the last row, or appends a new one. */
    method Write(m: Marker, merged: Option<string>, block: Block, text: string)
      requires merged.Some? ==> messages != [] && messages[|messages| - 1].Row?
      modifies this
      ensures messages == Injected(m, old(messages), if merged.Some? then Into(merged.value) else After, block, text)
    {
      if merged.Some? {
        var tail := messages[|messages| - 1];
        messages := messages[|messages| - 1 := tail.(content := Marked(m, merged.value + "\n" + text), block := Some(block))];
        assert messages == Injected(m, old(messages), Into(merged.value), block, text);
      } else {
        messages := messages + [NewUserRow(m, block, text)];
      }
    }
  }

  // ---------------------------------------------------------------- what the boundary promises

  lemma MarkRoundTrip(m: Marker, text: string)
    ensures NativeInner(m, Marked(m, text)) == Some(text)
  {
    assert Marked(m, text)[|m.opener|..|Marked(m, text)| - |m.closer|] == text;
    assert Marked(m, text)[|Marked(m, text)| - |m.closer|..] == m.closer;
  }

  /** Reading the inner text and marking it again gives the content back, as long as the markers do not overlap. */
  lemma InnerRoundTrip(m: Marker, content: string)
    requires NativeInner(m, content).Some?
    ensures Marked(m, NativeInner(m, content).value) == content <==> |m.opener| + |m.closer| <= |content|
  {
    if |m.opener| + |m.closer| <= |content| {
      assert content == content[..|m.opener|] + content[|m.opener|..|content| - |m.closer|] + content[|content| - |m.closer|..];
    }
  }

  function Value(digits: string): nat
    requires forall i | 0 <= i < |digits| :: '0' <= digits[i] <= '9'
  {
    if digits == "" then 0 else Value(digits[..|digits| - 1]) * 10 + (digits[|digits| - 1] as int - '0' as int)
  }

  /** The number in front of a line can be read back. */
  lemma {:induction false} DecimalRoundTrip(n: nat)
    ensures (forall i | 0 <= i < |Decimal(n)| :: '0' <= Decimal(n)[i] <= '9') && Value(Decimal(n)) == n
  {
    DigitAt(n % 10);
    if n >= 10 {
      DecimalRoundTrip(n / 10);
      assert Decimal(n)[..|Decimal(n)| - 1] == Decimal(n / 10);
    } else {
      assert Value(Decimal(n)[..0]) == 0;
    }
  }

  lemma DigitAt(d: nat)
    requires d < 10
    ensures '0' <= DIGITS[d] <= '9' && DIGITS[d] as int - '0' as int == d
  {
    assert d == 0 || d == 1 || d == 2 || d == 3 || d == 4 || d == 5 || d == 6 || d == 7 || d == 8 || d == 9;
  }

  predicate Injects(m: Marker, s: Store, run: Option<RunKey>, ms: seq<Message>, toolRows: int, batch: BatchId, now: real) {
    run.Some? && toolRows > 0 && !SpotOf(m, ms).Nowhere? && ClaimBatch(s, run.value, batch, now).1.Claimed?
  }

  /** The row at the end of `ms'` lists exactly the steers of the batch, oldest first, in its metadata and in its text. */
  ghost predicate Lists(m: Marker, row: Message, s: Store, s': Store, run: RunKey, batch: BatchId) {
    var items := AcceptedOf(s.steers, run);
    && items != [] && SteerRun.Increasing(SteerRun.Numbers(items))
    && row.Row? && row.role == "user" && !row.persisted
    && row.block == Some(Block(run, batch, ItemsOf(items)))
    && batch in s'.batches && s'.batches[batch].state == Staged && s'.batches[batch].ordered == IdsOf(items) == IdsIn(s'.steers, batch)
    && AcceptedOf(s'.steers, run) == []
    && EndsWith(row.content, Lines(items) + m.closer)
  }

  lemma NoneWaiting(steers: seq<Steer>, run: RunKey)
    requires forall i | 0 <= i < |steers| :: !Waiting(steers[i], run)
    ensures AcceptedOf(steers, run) == []
  {
    if steers != [] {
      NoneWaiting(steers[..|steers| - 1], run);
    }
  }

  lemma ClaimLeavesNone(s: Store, run: RunKey, batch: BatchId, now: real)
    requires Batched(s) && ClaimBatch(s, run, batch, now).1.Claimed?
    ensures var s' := ClaimBatch(s, run, batch, now).0;
            AcceptedOf(s'.steers, run) == [] && s'.batches[batch].ordered == IdsIn(s'.steers, batch)
  {
    NoneWaiting(ClaimBatch(s, run, batch, now).0.steers, run);
    NewBatchHasNoSteers(s, batch);
    StagedIds(s.steers, run, batch, now);
  }

  lemma SuffixEnds(front: string, tail: string)
    ensures EndsWith(front + tail, tail)
  {
  }

  /** What the last row looks like after an injection. */
  lemma InjectedRow(m: Marker, ms: seq<Message>, spot: Spot, block: Block, text: string)
    requires spot == SpotOf(m, ms) && !spot.Nowhere?
    ensures var ms' := Injected(m, ms, spot, block, text);
            ms' != [] && ms'[|ms'| - 1].Row? && ms'[|ms'| - 1].role == "user" && !ms'[|ms'| - 1].persisted
            && ms'[|ms'| - 1].block == Some(block) && EndsWith(ms'[|ms'| - 1].content, text + m.closer)
  {
    if spot.Into? {
      SuffixEnds(m.opener + spot.inner + "\n", text + m.closer);
      assert Marked(m, spot.inner + "\n" + text) == (m.opener + spot.inner + "\n") + (text + m.closer);
    } else {
      SuffixEnds(m.opener, text + m.closer);
      assert Marked(m, text) == m.opener + (text + m.closer);
    }
  }

  lemma InjectionLists(m: Marker, s: Store, run: RunKey, ms: seq<Message>, toolRows: int, batch: BatchId, now: real)
    requires Numbered(s) && Batched(s) && Injects(m, s, Some(run), ms, toolRows, batch, now)
    ensures var (s', ms') := Boundary(m, s, Some(run), ms, toolRows, batch, now);
            ms' != [] && Lists(m, ms'[|ms'| - 1], s, s', run, batch)
  {
    var items := AcceptedOf(s.steers, run);
    SteerRun.ClaimInOrder(s.steers, run);
    ClaimLeavesNone(s, run, batch, now);
    InjectedRow(m, ms, SpotOf(m, ms), Block(run, batch, ItemsOf(items)), Lines(items));
  }

  /**
   On any transcript a tool boundary changes nothing; or it appends exactly one user row, behind a tool
   batch in which every call with an id has its result; or it rewrites the last row only, an unpersisted
   steer row whose own text stays in front. What it writes lists exactly the steers it claims.
   */
  lemma BoundaryWritesOneRow(m: Marker, s: Store, run: Option<RunKey>, ms: seq<Message>, toolRows: int, batch: BatchId, now: real)
    requires Numbered(s) && Batched(s)
    ensures var (s', ms') := Boundary(m, s, run, ms, toolRows, batch, now);
            if !Injects(m, s, run, ms, toolRows, batch, now) then s' == s && ms' == ms
            else
              && Lists(m, ms'[|ms'| - 1], s, s', run.value, batch)
              && (if IsTool(ms[|ms| - 1]) then BatchComplete(ms) && |ms'| == |ms| + 1 && ms'[..|ms|] == ms
                  else && SteerTail(ms[|ms| - 1]) && |ms'| == |ms| && ms'[..|ms| - 1] == ms[..|ms| - 1]
                       && NativeInner(m, ms'[|ms| - 1].content)
                          == Some(NativeInner(m, ms[|ms| - 1].content).value + "\n" + Lines(AcceptedOf(s.steers, run.value))))
  {
    if Injects(m, s, run, ms, toolRows, batch, now) {
      assert run == Some(run.value);
      InjectionLists(m, s, run.value, ms, toolRows, batch, now);
      if SpotOf(m, ms).Into? {
        MarkRoundTrip(m, SpotOf(m, ms).inner + "\n" + Lines(AcceptedOf(s.steers, run.value)));
      }
    }
  }

  // ---------------------------------------------------------------- a merged row forgets the batch it carried

  predicate Carries(ms: seq<Message>, batch: BatchId) {
    exists i | 0 <= i < |ms| :: CarriesAt(ms[i], batch)
  }

  predicate CarriesAt(m: Message, batch: BatchId) {
    m.Row? && m.block.Some? && m.block.value.batch == batch
  }

  /** The injection merges into a row that is the only carrier of another batch. */
  predicate Overwrites(m: Marker, s: Store, run: Option<RunKey>, ms: seq<Message>, toolRows: int, batch: BatchId, now: real) {
    && Injects(m, s, run, ms, toolRows, batch, now) && SpotOf(m, ms).Into?
    && ms[|ms| - 1].block.Some? && ms[|ms| - 1].block.value.batch != batch
    && !Carries(ms[..|ms| - 1], ms[|ms| - 1].block.value.batch)
  }

  /** Every batch the transcript carried is still carried, exactly unless the merge hits a row that already carried one. */
  lemma CarriedBatchesStay(m: Marker, s: Store, run: Option<RunKey>, ms: seq<Message>, toolRows: int, batch: BatchId, now: real)
    ensures (forall b | Carries(ms, b) :: Carries(Boundary(m, s, run, ms, toolRows, batch, now).1, b))
            <==> !Overwrites(m, s, run, ms, toolRows, batch, now)
  {
    var ms' := Boundary(m, s, run, ms, toolRows, batch, now).1;
    if Overwrites(m, s, run, ms, toolRows, batch, now) {
      var lost := ms[|ms| - 1].block.value.batch;
      assert CarriesAt(ms[|ms| - 1], lost);
      forall i | 0 <= i < |ms'|
        ensures !CarriesAt(ms'[i], lost)
      {
        if i < |ms| - 1 { assert ms[..|ms| - 1][i] == ms'[i]; }
      }
      assert Carries(ms, lost) && !Carries(ms', lost);
    } else {
      forall b | Carries(ms, b)
        ensures Carries(ms', b)
      {
        var i :| 0 <= i < |ms| && CarriesAt(ms[i], b);
        if i < |ms| - 1 || |ms'| > |ms| || ms' == ms {
          assert CarriesAt(ms'[i], b);
        } else if b == batch {
          assert CarriesAt(ms'[i], b);
        } else {
          var k :| 0 <= k < |ms| - 1 && CarriesAt(ms[..|ms| - 1][k], b);
          assert CarriesAt(ms'[k], b);
        }
      }
    }
  }
}
