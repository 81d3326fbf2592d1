/** What the model reads at the end of a transcript after a tool boundary, spelled out character by character. */
module SteerText {
  import opened Basics
  import opened SteerStore
  import opened SteerTables
  import opened SteerProofs
  import opened SteerBoundary

  // ---------------------------------------------------------------- lines of text

  predicate AreDigits(s: string) {
    s != "" && forall i | 0 <= i < |s| :: '0' <= s[i] <= '9'
  }

  /** A piece shows a steer: a hash, its number in decimal without leading zeros, a colon, and its whole text. */
  predicate Shows(piece: string, digits: string, s: Steer) {
    && AreDigits(digits) && Value(digits) == s.number && (digits[0] == '0' ==> digits == "0")
    && piece == "#" + digits + ": " + s.text
  }

  ghost predicate ShownBy(piece: string, s: Steer) {
    exists digits :: Shows(piece, digits, s)
  }

  /** One piece for each steer, in their order. */
  ghost predicate ShowAll(pieces: seq<string>, items: seq<Steer>) {
    |pieces| == |items| && forall k | 0 <= k < |items| :: ShownBy(pieces[k], items[k])
  }

  function Join(pieces: seq<string>): string {
    if pieces == [] then "" else if |pieces| == 1 then pieces[0] else pieces[0] + ['\n'] + Join(pieces[1..])
  }

  /** The text between line breaks: the reader's side of Join. */
  function Split(text: string): (r: seq<string>)
    ensures r != []
  {
    if text == "" then [""]
    else
      var rest := Split(text[1..]);
      if text[0] == '\n' then [""] + rest else [[text[0]] + rest[0]] + rest[1..]
  }

  lemma {:induction false} JoinSnoc(pieces: seq<string>, last: string)
    ensures Join(pieces + [last]) == if pieces == [] then last else Join(pieces) + "\n" + last
  {
    if |pieces| == 1 {
      assert (pieces + [last])[1..] == [last];
    } else if |pieces| > 1 {
      assert (pieces + [last])[1..] == pieces[1..] + [last];
      JoinSnoc(pieces[1..], last);
      calc {
        Join(pieces + [last]);
        pieces[0] + ['\n'] + (Join(pieces[1..]) + "\n" + last);
        pieces[0] + ['\n'] + Join(pieces[1..]) + "\n" + last;
      }
    } else {
      assert pieces + [last] == [last];
    }
  }

  lemma {:induction false} DecimalHasNoLeadingZero(n: nat)
    ensures Decimal(n) != "" && (Decimal(n)[0] == '0' ==> n == 0 && Decimal(n) == "0")
  {
    if n >= 10 {
      DecimalHasNoLeadingZero(n / 10);
    } else {
      DigitAt(n);
    }
  }

  lemma LineShows(s: Steer)
    ensures Shows(Line(s), Decimal(s.number), s)
  {
    DecimalRoundTrip(s.number);
    DecimalHasNoLeadingZero(s.number);
  }

  /** The text of a batch: one piece for each steer, joined by line breaks. */
  lemma {:induction false} LinesShowAll(items: seq<Steer>) returns (pieces: seq<string>)
    ensures ShowAll(pieces, items) && Lines(items) == Join(pieces)
  {
    if items == [] {
      pieces := [];
    } else {
      var last := items[|items| - 1];
      var front := LinesShowAll(items[..|items| - 1]);
      pieces := front + [Line(last)];
      JoinSnoc(front, Line(last));
      forall k | 0 <= k < |items|
        ensures ShownBy(pieces[k], items[k])
      {
        if k == |items| - 1 {
          LineShows(last);
        } else {
          assert items[..|items| - 1][k] == items[k] && front[k] == pieces[k];
        }
      }
    }
  }

  predicate OneLine(s: string) {
    forall i | 0 <= i < |s| :: s[i] != '\n'
  }

  lemma {:induction false} SplitLine(line: string)
    requires OneLine(line)
    ensures Split(line) == [line]
  {
    if line != "" {
      SplitLine(line[1..]);
      assert line == [line[0]] + line[1..];
    }
  }

  lemma {:induction false} SplitFirst(line: string, rest: string)
    requires OneLine(line)
    ensures Split(line + "\n" + rest) == [line] + Split(rest)
  {
    var text := line + "\n" + rest;
    if line == "" {
      assert text[1..] == rest;
    } else {
      assert text[1..] == line[1..] + "\n" + rest;
      SplitFirst(line[1..], rest);
      assert line == [line[0]] + line[1..];
    }
  }

  lemma {:induction false} SplitJoin(pieces: seq<string>)
    requires pieces != [] && forall k | 0 <= k < |pieces| :: OneLine(pieces[k])
    ensures Split(Join(pieces)) == pieces
  {
    if |pieces| == 1 {
      SplitLine(pieces[0]);
    } else {
      SplitJoin(pieces[1..]);
      SplitFirst(pieces[0], Join(pieces[1..]));
      assert pieces == [pieces[0]] + pieces[1..];
    }
  }

  lemma ColonPlace(line: string, digits: string, text: string)
    requires AreDigits(digits) && line == "#" + digits + ": " + text
    ensures |digits| + 3 <= |line| && line[|digits| + 1] == ':' && line[1..|digits| + 1] == digits && line[|digits| + 3..] == text
    ensures forall k | 1 <= k <= |digits| :: line[k] != ':'
  {
    assert forall k | 1 <= k <= |digits| :: line[k] == digits[k - 1];
  }

  lemma LineTellsApart(line: string, p: string, q: string, a: Steer, b: Steer)
    requires Shows(line, p, a) && Shows(line, q, b)
    ensures a.number == b.number && a.text == b.text
  {
    ColonPlace(line, p, a.text);
    ColonPlace(line, q, b.text);
  }

  /** The text of a batch of steers without line breaks of their own. */
  predicate Prints(text: string, items: seq<Steer>) {
    text == Lines(items) && items != [] && forall k | 0 <= k < |items| :: OneLine(items[k].text)
  }

  /** The lines of such a text are its pieces. */
  lemma SplitShowsAll(text: string, items: seq<Steer>)
    requires Prints(text, items)
    ensures ShowAll(Split(text), items)
  {
    var pieces := LinesShowAll(items);
    PiecesAreLines(pieces, items);
    SplitJoin(pieces);
  }

  /** No two batches read alike: the text fixes how many steers there are, their numbers and their words. */
  lemma TextTellsSteersApart(text: string, a: seq<Steer>, b: seq<Steer>)
    requires Prints(text, a) && Prints(text, b)
    ensures |a| == |b| && forall k | 0 <= k < |a| :: a[k].number == b[k].number && a[k].text == b[k].text
  {
    SplitShowsAll(text, a);
    SplitShowsAll(text, b);
    ShowTheSame(Split(text), a, b);
  }

  lemma ShowTheSame(pieces: seq<string>, a: seq<Steer>, b: seq<Steer>)
    requires ShowAll(pieces, a) && ShowAll(pieces, b)
    ensures |a| == |b| && forall k | 0 <= k < |a| :: a[k].number == b[k].number && a[k].text == b[k].text
  {
    forall k | 0 <= k < |a|
      ensures a[k].number == b[k].number && a[k].text == b[k].text
    {
      assert ShownBy(pieces[k], a[k]) && ShownBy(pieces[k], b[k]);
      var p :| Shows(pieces[k], p, a[k]);
      var q :| Shows(pieces[k], q, b[k]);
      LineTellsApart(pieces[k], p, q, a[k], b[k]);
    }
  }

  lemma PiecesAreLines(pieces: seq<string>, items: seq<Steer>)
    requires ShowAll(pieces, items) && forall k | 0 <= k < |items| :: OneLine(items[k].text)
    ensures forall k | 0 <= k < |pieces| :: OneLine(pieces[k])
  {
    forall k | 0 <= k < |pieces|
      ensures OneLine(pieces[k])
    {
      assert ShownBy(pieces[k], items[k]);
      var digits :| Shows(pieces[k], digits, items[k]);
    }
  }

  // ---------------------------------------------------------------- when a boundary injects, and what

  /** The last message may take a steer: a tool result that completes its batch, or a steer row in markers that is not persisted yet. */
  predicate TakesSteer(m: Marker, ms: seq<Message>) {
    && ms != []
    && var tail := ms[|ms| - 1];
       tail.Row?
       && if tail.role == "tool" then exists a | 0 <= a < |ms| - 1 :: CompleteFrom(ms, a)
          else tail.role == "user" && tail.display == Some("steer") && !tail.persisted
               && m.opener <= tail.content && |m.closer| <= |tail.content| && tail.content[|tail.content| - |m.closer|..] == m.closer
  }

  predicate HasWaiting(s: Store, run: RunKey) {
    exists i | 0 <= i < |s.steers| :: s.steers[i].id.run == run && s.steers[i].state == Accepted
  }

  lemma {:induction false} SomeWaiting(steers: seq<Steer>, run: RunKey)
    ensures AcceptedOf(steers, run) != [] <==> exists i | 0 <= i < |steers| :: steers[i].id.run == run && steers[i].state == Accepted
  {
    if steers != [] {
      var front := steers[..|steers| - 1];
      SomeWaiting(front, run);
      assert forall i | 0 <= i < |front| :: front[i] == steers[i];
    }
  }

  /** A boundary does something exactly for a bound, registered, open run with an accepted steer, after tool rows, at a tail that may take it. */
  lemma InjectsExactly(m: Marker, s: Store, run: Option<RunKey>, ms: seq<Message>, toolRows: int, batch: BatchId, now: real)
    ensures Boundary(m, s, run, ms, toolRows, batch, now) != (s, ms) <==>
              && run.Some? && run.value in s.runs && s.runs[run.value].closedReason == None
              && toolRows > 0 && TakesSteer(m, ms) && HasWaiting(s, run.value) && batch !in s.batches
  {
    if run.Some? {
      SomeWaiting(s.steers, run.value);
    }
  }

  /** The inner text of the last row before a merge. */
  predicate InnerOf(m: Marker, content: string, inner: string) {
    if |content| < |m.opener| + |m.closer| then inner == "" else content == m.opener + inner + m.closer
  }

  /** What a batch is: exactly the accepted steers of the run, in the order of the table. */
  ghost predicate BatchOf(s: Store, run: RunKey, items: seq<Steer>) {
    items == AcceptedOf(s.steers, run) && items != []
  }

  /**
   After an injection the last row is an unpersisted user row marked as a steer. Between its markers stands the
   text it had before, if it was merged into, and one piece for each claimed steer with its number and its whole text.
   */
  lemma BoundaryShows(m: Marker, s: Store, run: RunKey, ms: seq<Message>, toolRows: int, batch: BatchId, now: real)
      returns (pieces: seq<string>, inner: string)
    requires Boundary(m, s, Some(run), ms, toolRows, batch, now) != (s, ms)
    ensures ms != [] && ShowAll(pieces, AcceptedOf(s.steers, run)) && pieces != []
    ensures var ms' := Boundary(m, s, Some(run), ms, toolRows, batch, now).1;
            && ms' != [] && ms'[|ms'| - 1].Row?
            && var row := ms'[|ms'| - 1];
               && row.role == "user" && row.display == Some("steer") && !row.persisted
               && if ms[|ms| - 1].role == "tool" then
                    row.content == m.opener + Join(pieces) + m.closer && row.calls == [] && row.answers == None
                  else
                    && InnerOf(m, ms[|ms| - 1].content, inner)
                    && row.content == m.opener + (inner + "\n" + Join(pieces)) + m.closer
                    && row == ms[|ms| - 1].(content := row.content, block := row.block)
  {
    pieces := LinesShowAll(AcceptedOf(s.steers, run));
    inner := "";
    var spot := SpotOf(m, ms);
    if spot.Into? {
      inner := spot.inner;
      var content := ms[|ms| - 1].content;
      if |m.opener| + |m.closer| <= |content| {
        InnerRoundTrip(m, content);
      }
    }
  }

  /** An assistant row that made calls, a tool result, a user row. */
  function Asks(calls: seq<Option<string>>): Message { Row("assistant", "", calls, None, None, None, true, "") }
  function Result(id: string): Message { Row("tool", "", [], Some(id), None, None, true, "") }
  function Says(text: string): Message { Row("user", text, [], None, None, None, true, "") }

  /** Every call with an id has its result, in any order; calls without an id wait for nothing. */
  lemma CompleteExamples()
    ensures BatchComplete([Asks([Some("a")]), Result("a")])
    ensures BatchComplete([Says("go"), Asks([Some("a"), Some("b"), None, Some("")]), Result("b"), Result("a")])
  {
    var one := [Asks([Some("a")]), Result("a")];
    assert one[1].answers == Some("a");
    assert one[0].calls[0] == Some("a");
    assert CompleteFrom(one, 0);
    var two := [Says("go"), Asks([Some("a"), Some("b"), None, Some("")]), Result("b"), Result("a")];
    assert two[1].calls[0] == Some("a");
    assert two[2].answers == Some("b") && two[3].answers == Some("a");
    assert Answered(two, 1, "a") && Answered(two, 1, "b");
    assert CompleteFrom(two, 1);
  }

  /** A missing or foreign result, no result, no call, a later row of another kind, only calls without ids, or calls of a user: not complete. */
  lemma IncompleteExamples()
    ensures !BatchComplete([Asks([Some("a"), Some("b")]), Result("a")]) && !BatchComplete([Asks([Some("a")])])
    ensures !BatchComplete([Asks([Some("a")]), Result("a"), Says("wait")]) && !BatchComplete([Asks([]), Result("a")])
    ensures !BatchComplete([Asks([None, Some("")]), Result("a")])
    ensures !BatchComplete([Row("user", "go", [Some("a")], None, None, None, true, ""), Result("a")])
  {
    var missing := [Asks([Some("a"), Some("b")]), Result("a")];
    assert missing[0].calls[1] == Some("b");
    assert !Answered(missing, 0, "b");
    assert !CompleteFrom(missing, 0);
    var later := [Asks([Some("a")]), Result("a"), Says("wait")];
    assert !IsTool(later[2]);
    assert !CompleteFrom(later, 0) && !CompleteFrom(later, 1);
    assert !CompleteFrom([Asks([]), Result("a")], 0);
    assert !CompleteFrom([Asks([None, Some("")]), Result("a")], 0);
    assert !CompleteFrom([Row("user", "go", [Some("a")], None, None, None, true, ""), Result("a")], 0);
  }
}
