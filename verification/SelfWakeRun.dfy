/** Sweeps over whole runs, page by page: rows are appended between pages, sweeps fail, generations are bumped. */
module SelfWakeRun {
  import opened Basics
  import opened SelfWakeScan

  /**
   A walk stands at a seek. `visited` lists what it visited in this generation, in order; `late` holds the
   rows that were appended when the seek had already passed their place.
   */
  datatype Walker = Walker(seek: Seek, visited: seq<Row>, late: set<Row>)

  /** A sweep under way: its own walk, the pages it read, and the books as they were. */
  datatype Flight = Flight(walker: Walker, pages: nat, before: Books)

  /** `visited` and `late` belong to the persisted seek. */
  datatype World = World(rows: seq<Row>, generation: nat, cutoff: real, stored: Option<Stored>, books: Books,
                         visited: seq<Row>, late: set<Row>, flight: Option<Flight>)

  /** A sweep holds the bridge's lock, so nothing else writes the books until it ends. */
  datatype Event =
    | Append(row: Row)
    | Begin
    | ReadPage(limit: nat, shadow: bool)
    | End
    | Abandon(kept: bool)
    | Bump(now: real)
    | Registered(key: Key, intent: Intent)
    | Receipted(key: Key, receipt: Receipt)

  function Start(now: real): World {
    World([], 1, now, None, Books(map[], map[]), [], {}, None)
  }

  function SeekNow(w: World): Seek {
    StartSeek(w.stored, w.generation, w.cutoff)
  }

  function Persisted(w: World): Walker {
    Walker(SeekNow(w), w.visited, w.late)
  }

  predicate Candidate(r: Row, cutoff: real) {
    r.report && r.ts > cutoff
  }

  function Sees(a: Walker, row: Row, cutoff: real): Walker {
    if Candidate(row, cutoff) && !Above(row, a.seek) then a.(late := a.late + {row}) else a
  }

  function Reads(a: Walker, page: seq<Row>): Walker {
    a.(seek := SeekAfter(a.seek, page), visited := a.visited + page)
  }

  function NextPage(w: World, limit: nat): seq<Row>
    requires w.flight.Some?
  {
    Page(w.rows, w.cutoff, w.flight.value.walker.seek, limit)
  }

  function Apply(w: World, e: Event): World {
    match e
    case Append(row) =>
      if w.rows != [] && row.id <= w.rows[|w.rows| - 1].id then w
      else
        w.(rows := w.rows + [row], late := Sees(Persisted(w), row, w.cutoff).late,
           flight := if w.flight.Some? then Some(w.flight.value.(walker := Sees(w.flight.value.walker, row, w.cutoff))) else None)
    case Begin => if w.flight.None? then w.(flight := Some(Flight(Persisted(w), 0, w.books))) else w
    case ReadPage(limit, shadow) =>
      if w.flight.Some? && w.flight.value.pages < MAX_PAGES then
        var f, page := w.flight.value, NextPage(w, limit);
        w.(books := VisitAll(w.books, page, w.generation, shadow), flight := Some(Flight(Reads(f.walker, page), f.pages + 1, f.before)))
      else w
    case End =>
      if w.flight.Some? then
        var a := w.flight.value.walker;
        w.(stored := Some(Stored(w.generation, a.seek)), visited := a.visited, late := a.late, flight := None)
      else w
    case Abandon(kept) =>
      if w.flight.Some? then w.(books := if kept then w.books else w.flight.value.before, flight := None) else w
    case Bump(now) => if w.flight.None? then w.(generation := w.generation + 1, cutoff := now, visited := [], late := {}) else w
    case Registered(key, intent) =>
      if w.flight.Some? || key in w.books.intents then w else w.(books := w.books.(intents := w.books.intents[key := intent]))
    case Receipted(key, receipt) =>
      if w.flight.Some? then w else w.(books := w.books.(receipts := w.books.receipts[key := receipt]))
  }

  function Run(now: real, es: seq<Event>): World {
    if es == [] then Start(now) else Apply(Run(now, es[..|es| - 1]), es[|es| - 1])
  }

  // ---------------------------------------------------------------- the invariant

  /** The walk visited in order, and visited every row it has passed but the late ones. */
  ghost predicate Walks(rows: seq<Row>, cutoff: real, a: Walker) {
    && a.seek.ts >= cutoff && Ordered(a.visited)
    && (forall x | x in a.visited :: x in rows && Candidate(x, cutoff) && !Above(x, a.seek) && x !in a.late)
    && (forall x | x in a.late :: x in rows && Candidate(x, cutoff) && !Above(x, a.seek))
    && (forall x | x in rows && Candidate(x, cutoff) && !Above(x, a.seek) :: x in a.visited || x in a.late)
  }

  ghost predicate Inv(w: World) {
    && Distinct(w.rows) && (w.stored.Some? ==> w.stored.value.generation <= w.generation)
    && Walks(w.rows, w.cutoff, Persisted(w))
    && (w.flight.Some? ==> Walks(w.rows, w.cutoff, w.flight.value.walker))
  }

  lemma SeesWalks(rows: seq<Row>, cutoff: real, a: Walker, row: Row)
    requires Walks(rows, cutoff, a) && row !in rows
    ensures Walks(rows + [row], cutoff, Sees(a, row, cutoff))
  {
  }

  lemma ReadsWalks(rows: seq<Row>, cutoff: real, a: Walker, limit: nat)
    requires Walks(rows, cutoff, a) && Distinct(rows)
    ensures Walks(rows, cutoff, Reads(a, Page(rows, cutoff, a.seek, limit)))
  {
    var page := Page(rows, cutoff, a.seek, limit);
    PageIsComplete(rows, cutoff, a.seek, limit);
    if page != [] {
      assert page[|page| - 1] in page;
    }
    OrderedJoin(a.visited, page, a.seek);
  }

  lemma OrderedJoin(a: seq<Row>, b: seq<Row>, seek: Seek)
    requires Ordered(a) && Ordered(b) && (forall x | x in a :: !Above(x, seek)) && (forall x | x in b :: Above(x, seek))
    ensures Ordered(a + b)
  {
    forall i, j | 0 <= i < j < |a + b|
      ensures Before((a + b)[i], (a + b)[j])
    {
      if i < |a| <= j {
        assert a[i] in a && b[j - |a|] in b;
      }
    }
  }

  lemma AppendKeeps(w: World, row: Row)
    requires Inv(w)
    ensures Inv(Apply(w, Append(row)))
  {
    var w' := Apply(w, Append(row));
    if w' != w {
      assert row !in w.rows by {
        assert forall i | 0 <= i < |w.rows| :: w.rows[i].id <= w.rows[|w.rows| - 1].id;
      }
      SeesWalks(w.rows, w.cutoff, Persisted(w), row);
      assert Persisted(w') == Sees(Persisted(w), row, w.cutoff);
      if w.flight.Some? { SeesWalks(w.rows, w.cutoff, w.flight.value.walker, row); }
    }
  }

  lemma StepKeeps(w: World, e: Event)
    requires Inv(w)
    ensures Inv(Apply(w, e))
  {
    match e
    case Append(row) => AppendKeeps(w, row);
    case ReadPage(limit, shadow) => if w.flight.Some? { ReadsWalks(w.rows, w.cutoff, w.flight.value.walker, limit); }
    case End => assert w.flight.Some? ==> Persisted(Apply(w, e)) == w.flight.value.walker;
    case _ =>
  }

  lemma {:induction false} RunHolds(now: real, es: seq<Event>)
    ensures Inv(Run(now, es))
  {
    if es != [] {
      RunHolds(now, es[..|es| - 1]);
      StepKeeps(Run(now, es[..|es| - 1]), es[|es| - 1]);
    }
  }

  // ---------------------------------------------------------------- the promises

  /** In strict order, none twice; and a candidate was visited exactly when the seek passed it and had not passed its place before it was there. */
  ghost predicate VisitsExactly(w: World, a: Walker) {
    && Ordered(a.visited)
    && forall x | x in w.rows && Candidate(x, w.cutoff) :: x in a.visited <==> !Above(x, a.seek) && x !in a.late
  }

  /**
   Whatever is appended, also between two pages of a sweep, and whatever sweeps fail: the walk of the persisted
   seek, and that of a sweep under way, visit reports in strict order of time and id, and visit exactly those
   the seek has passed whose place it had not yet passed when they were appended.
   */
  lemma VisitedExactly(now: real, es: seq<Event>)
    ensures var w := Run(now, es);
            VisitsExactly(w, Persisted(w)) && (w.flight.Some? ==> VisitsExactly(w, w.flight.value.walker))
  {
    RunHolds(now, es);
  }

  /** A row appended above the seek is not late for the persisted walk, one above the sweep's position not for the sweep's. */
  lemma InOrderIsNeverLate(w: World, row: Row)
    ensures Above(row, SeekNow(w)) ==> Apply(w, Append(row)).late == w.late
    ensures w.flight.Some? && Above(row, w.flight.value.walker.seek) ==>
              Apply(w, Append(row)).flight.Some? && Apply(w, Append(row)).flight.value.walker.late == w.flight.value.walker.late
  {
  }

  /** What a page does for a report it visits: without a receipt standing against it, it has an intent and a delivered receipt. */
  lemma PageSettles(w: World, limit: nat, shadow: bool, x: Row)
    requires w.flight.Some? && w.flight.value.pages < MAX_PAGES
    requires x in NextPage(w, limit) && Keyed(x) && Open(w.books, x.key.value)
    ensures var b := Apply(w, ReadPage(limit, shadow)).books;
            x.key.value in b.intents && x.key.value in b.receipts && b.receipts[x.key.value].status == "delivered"
  {
    var page, key := NextPage(w, limit), x.key.value;
    var i :| 0 <= i < |page| && page[i] == x;
    assert page[i].key == Some(key);
    assert HasKey(page, key);
    VisitedKeysAreSettled(w.books, page, w.generation, shadow);
    IntentsHaveReceipts(w.books, page, w.generation, shadow, key);
  }

  lemma {:induction false} IntentsHaveReceipts(b: Books, page: seq<Row>, generation: nat, shadow: bool, key: Key)
    requires Open(b, key)
    ensures var b' := VisitAll(b, page, generation, shadow);
            key in b'.intents ==> key in b'.receipts && b'.receipts[key].status == "delivered"
    ensures var b' := VisitAll(b, page, generation, shadow);
            key !in b'.intents ==> Open(b', key)
  {
    if page != [] {
      IntentsHaveReceipts(b, page[..|page| - 1], generation, shadow, key);
    }
  }

  // ---------------------------------------------------------------- repeated sweeps reach everything

  function Pages(w: World, limit: nat, shadow: bool, n: nat): World {
    if n == 0 then w else Apply(Pages(w, limit, shadow, n - 1), ReadPage(limit, shadow))
  }

  /** One sweep that nothing comes between; pages behind the last row read nothing. */
  function Sweep(w: World, limit: nat, shadow: bool): World {
    Apply(Pages(Apply(w, Begin), limit, shadow, MAX_PAGES), End)
  }

  function Sweeps(w: World, limit: nat, shadow: bool, n: nat): World {
    if n == 0 then w else Sweep(Sweeps(w, limit, shadow, n - 1), limit, shadow)
  }

  /** No candidate is left above the seek. */
  ghost predicate AllSwept(rows: seq<Row>, cutoff: real, seek: Seek) {
    forall x | x in rows && Candidate(x, cutoff) :: !Above(x, seek)
  }

  lemma {:induction false} PagesAdvance(w: World, limit: nat, shadow: bool, n: nat)
    requires Inv(w) && w.flight.Some? && w.flight.value.pages + n <= MAX_PAGES
    ensures var w' := Pages(w, limit, shadow, n);
            && Inv(w') && w'.flight.Some? && w'.flight.value.pages == w.flight.value.pages + n
            && w'.rows == w.rows && w'.cutoff == w.cutoff && w'.generation == w.generation
            && w'.flight.value.walker.late == w.flight.value.walker.late
            && (|w'.flight.value.walker.visited| == |w.flight.value.walker.visited| + Times(n, limit)
                || AllSwept(w.rows, w.cutoff, w'.flight.value.walker.seek))
  {
    if n > 0 {
      PagesAdvance(w, limit, shadow, n - 1);
      PageAdvances(Pages(w, limit, shadow, n - 1), limit, shadow);
    }
  }

  lemma PageAdvances(w: World, limit: nat, shadow: bool)
    requires Inv(w) && w.flight.Some? && w.flight.value.pages < MAX_PAGES
    ensures var w', seek := Apply(w, ReadPage(limit, shadow)), w.flight.value.walker.seek;
            && Inv(w') && w'.flight.Some? && w'.flight.value.walker.late == w.flight.value.walker.late
            && (|w'.flight.value.walker.visited| == |w.flight.value.walker.visited| + limit
                || AllSwept(w.rows, w.cutoff, w'.flight.value.walker.seek))
            && (AllSwept(w.rows, w.cutoff, seek) ==> AllSwept(w.rows, w.cutoff, w'.flight.value.walker.seek))
  {
    StepKeeps(w, ReadPage(limit, shadow));
    PageIsComplete(w.rows, w.cutoff, w.flight.value.walker.seek, limit);
    if AllSwept(w.rows, w.cutoff, w.flight.value.walker.seek) {
      assert First(w.rows, w.cutoff, w.flight.value.walker.seek).None?;
    }
  }

  lemma SweepAdvances(w: World, limit: nat, shadow: bool)
    requires Inv(w) && w.flight.None?
    ensures var w' := Sweep(w, limit, shadow);
            && Inv(w') && w'.flight.None? && w'.rows == w.rows && w'.cutoff == w.cutoff && w'.late == w.late
            && (|w'.visited| == |w.visited| + Times(MAX_PAGES, limit) || AllSwept(w.rows, w.cutoff, SeekNow(w')))
  {
    var begun := Apply(w, Begin);
    StepKeeps(w, Begin);
    PagesAdvance(begun, limit, shadow, MAX_PAGES);
    var read := Pages(begun, limit, shadow, MAX_PAGES);
    StepKeeps(read, End);
    assert Persisted(Apply(read, End)) == read.flight.value.walker;
  }

  lemma {:induction false} SweepsAdvance(w: World, limit: nat, shadow: bool, n: nat)
    requires Inv(w) && w.flight.None?
    ensures var w' := Sweeps(w, limit, shadow, n);
            && Inv(w') && w'.flight.None? && w'.rows == w.rows && w'.cutoff == w.cutoff && w'.late == w.late
            && (|w'.visited| == |w.visited| + n * Times(MAX_PAGES, limit) || (n > 0 && AllSwept(w.rows, w.cutoff, SeekNow(w'))))
  {
    if n > 0 {
      SweepsAdvance(w, limit, shadow, n - 1);
      var before := Sweeps(w, limit, shadow, n - 1);
      SweepAdvances(before, limit, shadow);
      if AllSwept(w.rows, w.cutoff, SeekNow(before)) { SweptStays(before, limit, shadow); }
      OneMore(n - 1, Times(MAX_PAGES, limit));
    }
  }

  lemma {:induction false} PagesStaySwept(w: World, limit: nat, shadow: bool, n: nat)
    requires Inv(w) && w.flight.Some? && w.flight.value.pages + n <= MAX_PAGES && AllSwept(w.rows, w.cutoff, w.flight.value.walker.seek)
    ensures var w' := Pages(w, limit, shadow, n); w'.flight.Some? && AllSwept(w.rows, w.cutoff, w'.flight.value.walker.seek)
  {
    if n > 0 {
      PagesStaySwept(w, limit, shadow, n - 1);
      PagesAdvance(w, limit, shadow, n - 1);
      PageAdvances(Pages(w, limit, shadow, n - 1), limit, shadow);
    }
  }

  lemma SweptStays(w: World, limit: nat, shadow: bool)
    requires Inv(w) && w.flight.None? && AllSwept(w.rows, w.cutoff, SeekNow(w))
    ensures AllSwept(w.rows, w.cutoff, SeekNow(Sweep(w, limit, shadow)))
  {
    var begun := Apply(w, Begin);
    StepKeeps(w, Begin);
    PagesStaySwept(begun, limit, shadow, MAX_PAGES);
    PagesAdvance(begun, limit, shadow, MAX_PAGES);
    var read := Pages(begun, limit, shadow, MAX_PAGES);
    StepKeeps(read, End);
    assert Persisted(Apply(read, End)) == read.flight.value.walker;
  }

  lemma {:induction false} OrderedFits(rows: seq<Row>, visited: seq<Row>)
    requires Ordered(visited) && forall x | x in visited :: x in rows
    ensures |visited| <= |rows|
  {
    var seen := set x | x in visited;
    OrderedSet(visited);
    SetFits(rows);
    assert seen <= set x | x in rows;
    SubsetSize(seen, set x | x in rows);
  }

  lemma {:induction false} OrderedSet(visited: seq<Row>)
    requires Ordered(visited)
    ensures |set x | x in visited| == |visited|
  {
    if visited != [] {
      var front, last := visited[..|visited| - 1], visited[|visited| - 1];
      OrderedSet(front);
      assert (set x | x in visited) == (set x | x in front) + {last};
    }
  }

  lemma {:induction false} SetFits(rows: seq<Row>)
    ensures |set x | x in rows| <= |rows|
  {
    if rows != [] {
      var front, last := rows[..|rows| - 1], rows[|rows| - 1];
      SetFits(front);
      assert (set x | x in rows) == (set x | x in front) + {last};
    }
  }

  /** Enough sweeps with nothing appended meanwhile visit every report that is not late. */
  lemma SweepsReachAll(now: real, es: seq<Event>, limit: nat, shadow: bool, n: nat)
    requires Run(now, es).flight.None? && n * Times(MAX_PAGES, limit) > |Run(now, es).rows|
    ensures var w := Sweeps(Run(now, es), limit, shadow, n);
            forall x | x in w.rows && Candidate(x, w.cutoff) :: x in w.visited || x in w.late
  {
    RunHolds(now, es);
    SweepsAdvance(Run(now, es), limit, shadow, n);
    var w := Sweeps(Run(now, es), limit, shadow, n);
    OrderedFits(w.rows, w.visited);
  }

  // ---------------------------------------------------------------- a late row

  lemma Extend(now: real, es: seq<Event>, e: Event) returns (longer: seq<Event>)
    ensures Run(now, longer) == Apply(Run(now, es), e)
  {
    longer := es + [e];
    assert longer[..|es|] == es;
  }

  const Early := Row(1, 20.0, true, "s", Some("a"), "d")
  const Tardy := Row(2, 15.0, true, "s", Some("b"), "d")
  const Nothing := Books(map[], map[])
  const SweptBooks := Books(map["a" := Intent("s", 1, 1, "reconciled", "pending")], map["a" := Receipt("delivered", None, 1, "d")])
  const NextOne := ReadPage(200, false)
  const At := Seek(20.0, 1)

  const Begun := World([Early], 1, 10.0, None, Nothing, [], {}, Some(Flight(Walker(Seek(10.0, 0), [], {}), 0, Nothing)))
  const OneRead := World([Early], 1, 10.0, None, SweptBooks, [], {}, Some(Flight(Walker(At, [Early], {}), 1, Nothing)))
  const TardyThere := World([Early, Tardy], 1, 10.0, None, SweptBooks, [], {}, Some(Flight(Walker(At, [Early], {Tardy}), 1, Nothing)))
  const BothRead := TardyThere.(flight := Some(Flight(Walker(At, [Early], {Tardy}), 2, Nothing)))

  lemma EarlyIsRead()
    ensures Apply(Begun, NextOne) == OneRead
  {
    assert First([], 10.0, Seek(10.0, 0)).None?;
    assert [Early][..0] == [];
    assert First([Early], 10.0, Seek(10.0, 0)) == Some(Early);
    assert First([Early], 10.0, At).None?;
    assert Page([Early], 10.0, At, 199) == [];
    assert Page([Early], 10.0, Seek(10.0, 0), 200) == [Early];
    assert VisitAll(Nothing, [], 1, false) == Nothing;
    assert VisitAll(Nothing, [Early], 1, false) == SweptBooks;
    assert [] + [Early] == [Early];
  }

  lemma TardyIsPassedOver()
    ensures Apply(OneRead, Append(Tardy)) == TardyThere && Apply(TardyThere, NextOne) == BothRead
  {
    assert [Early] + [Tardy] == [Early, Tardy];
    assert Sees(Walker(At, [Early], {}), Tardy, 10.0) == Walker(At, [Early], {Tardy});
    assert Sees(Persisted(OneRead), Tardy, 10.0) == Persisted(OneRead);
    assert First([Early, Tardy], 10.0, At).None?;
    assert Page([Early, Tardy], 10.0, At, 200) == [];
    assert VisitAll(SweptBooks, [], 1, false) == SweptBooks;
    assert [Early] + [] == [Early];
  }

  /** A row that arrives between two pages of a sweep, with a time the sweep has passed, is never visited in its generation. */
  lemma LateRowExample() returns (es: seq<Event>)
    ensures var w := Run(10.0, es);
            && w.flight.None? && Tardy in w.rows && Candidate(Tardy, w.cutoff) && Tardy !in w.visited && Tardy in w.late
            && "b" !in w.books.intents
  {
    es := Extend(10.0, [], Append(Early));
    assert Run(10.0, es) == World([Early], 1, 10.0, None, Nothing, [], {}, None);
    es := Extend(10.0, es, Begin);
    EarlyIsRead();
    es := Extend(10.0, es, NextOne);
    TardyIsPassedOver();
    es := Extend(10.0, es, Append(Tardy));
    es := Extend(10.0, es, NextOne);
    es := Extend(10.0, es, End);
  }
}
