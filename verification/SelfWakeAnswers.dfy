/** What the crash-gap scan reads next and what it writes for a row, spelled out column by column. */
module SelfWakeAnswers {
  import opened Basics
  import opened SelfWakeScan
  import opened SelfWakeRun

  /** The rows a scan still has to read: scheduled reports behind the cutoff and behind the seek. */
  predicate StillToRead(r: Row, cutoff: real, ts: real, id: nat) {
    r.report && r.ts > cutoff && (r.ts > ts || (r.ts == ts && r.id > id))
  }

  /** A page of one row holds the oldest row still to read, the one with the smaller id among equal times. */
  lemma NextRowIs(rows: seq<Row>, cutoff: real, ts: real, id: nat)
    requires Distinct(rows)
    ensures var page := Page(rows, cutoff, Seek(ts, id), 1);
            && (page == [] <==> forall x | x in rows :: !StillToRead(x, cutoff, ts, id))
            && (page != [] ==>
                  && page[0] in rows && StillToRead(page[0], cutoff, ts, id)
                  && forall x | x in rows && StillToRead(x, cutoff, ts, id) :: page[0].ts < x.ts || (page[0].ts == x.ts && page[0].id <= x.id))
  {
    var first := First(rows, cutoff, Seek(ts, id));
    if first.Some? {
      FirstIsLeast(rows, cutoff, Seek(ts, id));
      assert Page(rows, cutoff, SeekOf(first.value), 0) == [];
    }
  }

  /** A sweep starts at the cutoff unless a seek of its own generation, not below the cutoff, was stored. */
  lemma StartIs(stored: Option<Stored>, generation: nat, cutoff: real)
    ensures stored == None ==> StartSeek(stored, generation, cutoff) == Seek(cutoff, 0)
    ensures stored.Some? ==>
              StartSeek(stored, generation, cutoff)
              == if stored.value.generation == generation && stored.value.seek.ts >= cutoff then stored.value.seek else Seek(cutoff, 0)
  {
  }

  /** Nothing stands against waking for the key: it has no intent, and no receipt but one that lost its intent. */
  predicate Unsettled(b: Books, key: Key) {
    && key !in b.intents
    && (key in b.receipts ==> b.receipts[key].status == "delivered" && b.receipts[key].error == Some("intent-failed"))
  }

  predicate CarriesKey(page: seq<Row>, key: Key, i: nat) {
    i < |page| && page[i].key == Some(key)
  }

  /** The first row of the page with the key. */
  predicate FirstWith(page: seq<Row>, key: Key, i: nat) {
    CarriesKey(page, key, i) && forall j: nat | j < i :: page[j].key != Some(key)
  }

  /** An intent as a scan writes it, and its receipt. */
  predicate Reconciled(b: Books, b': Books, key: Key, r: Row, generation: nat, shadow: bool) {
    && key in b'.intents && key in b'.receipts
    && b'.intents[key] == Intent(r.session, r.id, generation, "reconciled", if shadow then "shadow" else "pending")
    && b'.receipts[key] == if key in b.receipts then b.receipts[key] else Receipt("delivered", None, r.id, r.digest)
  }

  /**
   A page gives every unsettled key in it an intent and a receipt that name the first row with the key, its session,
   the generation and the mode; every other key keeps what it had.
   */
  lemma {:induction false} FirstRowIsReconciled(b: Books, page: seq<Row>, generation: nat, shadow: bool, key: Key)
    ensures var b' := VisitAll(b, page, generation, shadow);
            && (forall i: nat | FirstWith(page, key, i) && key != "" && Unsettled(b, key) :: Reconciled(b, b', key, page[i], generation, shadow))
            && (key == "" || !Unsettled(b, key) || (forall i: nat :: !CarriesKey(page, key, i)) ==>
                  && (key in b'.intents <==> key in b.intents) && (key in b.intents ==> b'.intents[key] == b.intents[key])
                  && (key in b'.receipts <==> key in b.receipts) && (key in b.receipts ==> b'.receipts[key] == b.receipts[key]))
  {
    if page != [] {
      var front, last := page[..|page| - 1], page[|page| - 1];
      FirstRowIsReconciled(b, front, generation, shadow, key);
      assert forall i: nat | i < |front| :: front[i] == page[i];
      if key != "" && Unsettled(b, key) && last.key == Some(key) {
        NotBefore(front, last, key);
      }
      assert forall i: nat | CarriesKey(front, key, i) :: CarriesKey(page, key, i);
      assert last.key == Some(key) ==> CarriesKey(page, key, |front|);
    }
  }

  /** Either the key is in front already, or the last row is the first with it. */
  lemma NotBefore(front: seq<Row>, last: Row, key: Key)
    requires last.key == Some(key)
    ensures (exists i: nat :: FirstWith(front, key, i)) || (forall i: nat :: !CarriesKey(front, key, i))
  {
    if exists i: nat :: CarriesKey(front, key, i) {
      var i: nat :| CarriesKey(front, key, i);
      var j := Earliest(front, key, i);
    }
  }

  lemma {:induction false} Earliest(page: seq<Row>, key: Key, i: nat) returns (j: nat)
    requires CarriesKey(page, key, i)
    ensures FirstWith(page, key, j)
    decreases i
  {
    if k: nat :| k < i && page[k].key == Some(key) {
      j := Earliest(page, key, k);
    } else {
      j := i;
    }
  }

  // ---------------------------------------------------------------- a sweep as events

  /** The world after `n` pages of a sweep that read `page` between them. */
  function AfterPages(w: World, page: seq<Row>, n: nat, shadow: bool): World
    requires w.flight.Some?
  {
    var f := w.flight.value;
    w.(books := VisitAll(w.books, page, w.generation, shadow),
       flight := Some(Flight(Walker(SeekAfter(f.walker.seek, page), f.walker.visited + page, f.walker.late), f.pages + n, f.before)))
  }

  lemma OnePageMore(w: World, front: seq<Row>, limit: nat, shadow: bool, n: nat)
    requires w.flight.Some? && w.flight.value.pages + n < 25
    ensures var next := Page(w.rows, w.cutoff, SeekAfter(w.flight.value.walker.seek, front), limit);
            SeekAfter(SeekAfter(w.flight.value.walker.seek, front), next) == SeekAfter(w.flight.value.walker.seek, front + next)
            ==> Apply(AfterPages(w, front, n, shadow), ReadPage(limit, shadow)) == AfterPages(w, front + next, n + 1, shadow)
  {
    var next := Page(w.rows, w.cutoff, SeekAfter(w.flight.value.walker.seek, front), limit);
    VisitInParts(w.books, front, next, w.generation, shadow);
    assert w.flight.value.walker.visited + (front + next) == w.flight.value.walker.visited + front + next;
  }

  /** Pages read one after the other with nothing between them are one page of all of them. */
  ghost predicate PagesRead(w: World, limit: nat, shadow: bool, n: nat)
    requires w.flight.Some?
  {
    Pages(w, limit, shadow, n) == AfterPages(w, Page(w.rows, w.cutoff, w.flight.value.walker.seek, Times(n, limit)), n, shadow)
  }

  lemma NoPages(w: World, limit: nat, shadow: bool)
    requires w.flight.Some?
    ensures PagesRead(w, limit, shadow, 0)
  {
    assert w.flight.value.walker.visited + [] == w.flight.value.walker.visited;
  }

  lemma PagesStep(w: World, limit: nat, shadow: bool, n: nat)
    requires Distinct(w.rows) && w.flight.Some? && w.flight.value.pages + n < 25 && PagesRead(w, limit, shadow, n)
    ensures PagesRead(w, limit, shadow, n + 1)
  {
    NextPageJoins(w.rows, w.cutoff, w.flight.value.walker.seek, Times(n, limit), limit);
    OnePageMore(w, Page(w.rows, w.cutoff, w.flight.value.walker.seek, Times(n, limit)), limit, shadow, n);
  }

  lemma {:induction false} PagesAre(w: World, limit: nat, shadow: bool, n: nat)
    requires Distinct(w.rows) && w.flight.Some? && w.flight.value.pages + n <= 25
    ensures PagesRead(w, limit, shadow, n)
  {
    if n == 0 {
      NoPages(w, limit, shadow);
    } else {
      PagesAre(w, limit, shadow, n - 1);
      PagesStep(w, limit, shadow, n - 1);
    }
  }

  lemma NextPageJoins(rows: seq<Row>, cutoff: real, seek: Seek, a: nat, b: nat)
    requires Distinct(rows)
    ensures var front := Page(rows, cutoff, seek, a);
            && Page(rows, cutoff, seek, a + b) == front + Page(rows, cutoff, SeekAfter(seek, front), b)
            && SeekAfter(SeekAfter(seek, front), Page(rows, cutoff, SeekAfter(seek, front), b)) == SeekAfter(seek, Page(rows, cutoff, seek, a + b))
  {
    var front := Page(rows, cutoff, seek, a);
    if |front| == a {
      PagesJoin(rows, cutoff, seek, a, b);
    } else {
      PageIsComplete(rows, cutoff, seek, a);
      assert First(rows, cutoff, SeekAfter(seek, front)).None?;
      assert Page(rows, cutoff, SeekAfter(seek, front), b) == [];
      ShortPage(rows, cutoff, seek, a, a + b);
    }
  }

  /** A sweep with nothing between its events does what the method does: books, stored seek, and the visits it adds. */
  lemma SweepIsReconcile(w: World, limit: nat, shadow: bool)
    requires Distinct(w.rows) && w.flight.None?
    ensures var start := SeekNow(w);
            var visited := Visits(seq(25, i => w.rows), w.cutoff, start, limit);
            Sweep(w, limit, shadow)
            == w.(books := VisitAll(w.books, visited, w.generation, shadow), stored := Some(Stored(w.generation, SeekAfter(start, visited))),
                  visited := w.visited + visited)
  {
    PagesAre(Apply(w, Begin), limit, shadow, 25);
    QuietSweepIsOnePage(w.rows, 25, w.cutoff, SeekNow(w), limit);
  }

  /** A sweep that fails leaves the persisted seek where it was; its writes stay or are rolled back as a whole. */
  lemma FailedSweepIs(w: World, kept: bool)
    requires w.flight.Some?
    ensures Apply(w, Abandon(kept)) == w.(books := if kept then w.books else w.flight.value.before, flight := None)
  {
  }

  /** Between sweeps a fresh report may register its intent once, any receipt may be written, and a new generation may begin. */
  lemma BetweenSweeps(w: World, key: Key, intent: Intent, receipt: Receipt, now: real)
    requires w.flight.None?
    ensures key !in w.books.intents ==> Apply(w, Registered(key, intent)) == w.(books := Books(w.books.intents[key := intent], w.books.receipts))
    ensures key in w.books.intents ==> Apply(w, Registered(key, intent)) == w
    ensures Apply(w, Receipted(key, receipt)) == w.(books := Books(w.books.intents, w.books.receipts[key := receipt]))
    ensures Apply(w, Bump(now)) == w.(generation := w.generation + 1, cutoff := now, visited := [], late := {})
  {
  }
}
