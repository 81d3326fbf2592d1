/**
 The crash-gap scan: a persisted walk over the session database's report rows in order of time and id,
 which gives every report that was never finalized an intent to wake its session.
 */
module SelfWakeScan {
  import opened Basics

  const MAX_PAGES := 25
  const INTENT_FAILED: Option<string> := Some("intent-failed")

  type Key = string

  /** A row of the session database; `report` says that it is a scheduled report's notification. */
  datatype Row = Row(id: nat, ts: real, report: bool, session: string, key: Option<Key>, digest: string)

  datatype Seek = Seek(ts: real, id: nat)
  datatype Stored = Stored(generation: nat, seek: Seek)

  datatype Receipt = Receipt(status: string, error: Option<string>, row: nat, digest: string)
  datatype Intent = Intent(session: string, row: nat, generation: nat, reason: string, state: string)

  /** Intents and receipts share one database, so one transaction. */
  datatype Books = Books(intents: map<Key, Intent>, receipts: map<Key, Receipt>)

  predicate Above(r: Row, seek: Seek) {
    r.ts > seek.ts || (r.ts == seek.ts && r.id > seek.id)
  }

  predicate Before(a: Row, b: Row) {
    a.ts < b.ts || (a.ts == b.ts && a.id < b.id)
  }

  predicate Wanted(r: Row, cutoff: real, seek: Seek) {
    r.report && r.ts > cutoff && Above(r, seek)
  }

  function SeekOf(r: Row): Seek {
    Seek(r.ts, r.id)
  }

  // ---------------------------------------------------------------- the query

  /** The first wanted row in order of time and id. */
  function First(rows: seq<Row>, cutoff: real, seek: Seek): (r: Option<Row>)
    ensures r.Some? ==> r.value in rows && Wanted(r.value, cutoff, seek)
    ensures r.None? ==> forall x | x in rows :: !Wanted(x, cutoff, seek)
  {
    if rows == [] then None
    else
      var best, last := First(rows[..|rows| - 1], cutoff, seek), rows[|rows| - 1];
      assert rows == rows[..|rows| - 1] + [last];
      if Wanted(last, cutoff, seek) && (best.None? || Before(last, best.value)) then Some(last) else best
  }

  /** What the query returns: the wanted rows in order, at most `limit` of them. */
  function Page(rows: seq<Row>, cutoff: real, seek: Seek, limit: nat): (r: seq<Row>)
    ensures |r| <= limit
    decreases limit
  {
    var first := First(rows, cutoff, seek);
    if limit == 0 || first.None? then [] else [first.value] + Page(rows, cutoff, SeekOf(first.value), limit - 1)
  }

  function SeekAfter(seek: Seek, page: seq<Row>): Seek {
    if page == [] then seek else SeekOf(page[|page| - 1])
  }

  /** Rows carry distinct ids. */
  ghost predicate Distinct(rows: seq<Row>) {
    forall i, j | 0 <= i < j < |rows| :: rows[i].id < rows[j].id
  }

  ghost predicate Ordered(page: seq<Row>) {
    forall i, j | 0 <= i < j < |page| :: Before(page[i], page[j])
  }

  lemma {:induction false} FirstIsLeast(rows: seq<Row>, cutoff: real, seek: Seek)
    requires Distinct(rows) && First(rows, cutoff, seek).Some?
    ensures forall x | x in rows && Wanted(x, cutoff, seek) ::
              x == First(rows, cutoff, seek).value || Before(First(rows, cutoff, seek).value, x)
  {
    var front, last := rows[..|rows| - 1], rows[|rows| - 1];
    var best := First(front, cutoff, seek);
    if best.Some? {
      FirstIsLeast(front, cutoff, seek);
    }
    forall x | x in rows && Wanted(x, cutoff, seek)
      ensures x == First(rows, cutoff, seek).value || Before(First(rows, cutoff, seek).value, x)
    {
      assert x in front || x == last;
      if best.Some? {
        var k :| 0 <= k < |front| && front[k] == best.value;
        assert rows[k].id < rows[|front|].id;
      }
    }
  }

  lemma {:induction false} PageInOrder(rows: seq<Row>, cutoff: real, seek: Seek, limit: nat)
    requires Distinct(rows)
    ensures var page := Page(rows, cutoff, seek, limit);
            Ordered(page) && forall x | x in page :: x in rows && Wanted(x, cutoff, seek) && !Above(x, SeekAfter(seek, page))
    decreases limit
  {
    var first := First(rows, cutoff, seek);
    if limit > 0 && first.Some? {
      var rest := Page(rows, cutoff, SeekOf(first.value), limit - 1);
      PageInOrder(rows, cutoff, SeekOf(first.value), limit - 1);
      assert Page(rows, cutoff, seek, limit) == [first.value] + rest;
      forall x | x in rest
        ensures Before(first.value, x)
      {
      }
      if rest != [] {
        assert rest[|rest| - 1] in rest;
      }
    }
  }

  lemma {:induction false} PageLeavesNone(rows: seq<Row>, cutoff: real, seek: Seek, limit: nat)
    requires Distinct(rows)
    ensures var page := Page(rows, cutoff, seek, limit); var end := SeekAfter(seek, page);
            && (forall x | x in rows && Wanted(x, cutoff, seek) :: x in page || Above(x, end))
            && (|page| < limit ==> forall x | x in rows :: !Wanted(x, cutoff, end))
    decreases limit
  {
    var first := First(rows, cutoff, seek);
    if limit > 0 && first.Some? {
      var rest := Page(rows, cutoff, SeekOf(first.value), limit - 1);
      PageLeavesNone(rows, cutoff, SeekOf(first.value), limit - 1);
      FirstIsLeast(rows, cutoff, seek);
      assert Page(rows, cutoff, seek, limit) == [first.value] + rest;
    }
  }

  /**
   A page is ordered, lies above the seek, and leaves out no wanted row up to its own end; when it is
   shorter than asked for, no wanted row is left at all.
   */
  lemma PageIsComplete(rows: seq<Row>, cutoff: real, seek: Seek, limit: nat)
    requires Distinct(rows)
    ensures var page := Page(rows, cutoff, seek, limit); var end := SeekAfter(seek, page);
            && Ordered(page)
            && (forall x | x in page :: x in rows && Wanted(x, cutoff, seek) && !Above(x, end))
            && (forall x | x in rows && Wanted(x, cutoff, seek) :: x in page || Above(x, end))
            && (|page| < limit ==> forall x | x in rows :: !Wanted(x, cutoff, end))
  {
    PageInOrder(rows, cutoff, seek, limit);
    PageLeavesNone(rows, cutoff, seek, limit);
  }

  /** Reading on from the end of a page is reading one longer page: nothing is skipped or repeated at a page's end. */
  lemma {:induction false} PagesJoin(rows: seq<Row>, cutoff: real, seek: Seek, a: nat, b: nat)
    requires |Page(rows, cutoff, seek, a)| == a
    ensures Page(rows, cutoff, seek, a + b)
         == Page(rows, cutoff, seek, a) + Page(rows, cutoff, SeekAfter(seek, Page(rows, cutoff, seek, a)), b)
    decreases a
  {
    if a > 0 {
      var first := First(rows, cutoff, seek).value;
      var rest := Page(rows, cutoff, SeekOf(first), a - 1);
      assert Page(rows, cutoff, seek, a) == [first] + rest;
      PagesJoin(rows, cutoff, SeekOf(first), a - 1, b);
      assert SeekAfter(seek, [first] + rest) == SeekAfter(SeekOf(first), rest);
    } else {
      assert Page(rows, cutoff, seek, 0) == [];
    }
  }

  /** A page that is not full does not grow with the limit. */
  lemma {:induction false} ShortPage(rows: seq<Row>, cutoff: real, seek: Seek, a: nat, b: nat)
    requires |Page(rows, cutoff, seek, a)| < a <= b
    ensures Page(rows, cutoff, seek, b) == Page(rows, cutoff, seek, a)
    decreases a
  {
    var first := First(rows, cutoff, seek);
    if first.Some? {
      assert |Page(rows, cutoff, SeekOf(first.value), a - 1)| < a - 1;
      ShortPage(rows, cutoff, SeekOf(first.value), a - 1, b - 1);
    }
  }

  // ---------------------------------------------------------------- what a visit writes

  /** The exception among receipts: delivered, but its intent could not be written. */
  predicate Compensable(r: Receipt) {
    r.status == "delivered" && r.error == INTENT_FAILED
  }

  predicate Open(b: Books, key: Key) {
    key !in b.intents && (key in b.receipts ==> Compensable(b.receipts[key]))
  }

  predicate Keyed(r: Row) {
    r.key.Some? && r.key.value != ""
  }

  function StateOf(shadow: bool): string {
    if shadow then "shadow" else "pending"
  }

  function Visit(b: Books, r: Row, generation: nat, shadow: bool): Books {
    if !Keyed(r) || !Open(b, r.key.value) then b
    else
      var key := r.key.value;
      Books(b.intents[key := Intent(r.session, r.id, generation, "reconciled", StateOf(shadow))],
            if key in b.receipts then b.receipts else b.receipts[key := Receipt("delivered", None, r.id, r.digest)])
  }

  function VisitAll(b: Books, page: seq<Row>, generation: nat, shadow: bool): Books {
    if page == [] then b else Visit(VisitAll(b, page[..|page| - 1], generation, shadow), page[|page| - 1], generation, shadow)
  }

  predicate HasKey(page: seq<Row>, key: Key) {
    key != "" && exists i :: 0 <= i < |page| && page[i].key == Some(key)
  }

  /**
   After a visit of some rows, a key has an intent exactly when it had one or one of the rows carries it
   and no receipt stood against it; intents and receipts that were there are untouched, and a key gets a
   new receipt, a delivered one, only together with its intent.
   */
  lemma {:induction false} VisitedKeysAreSettled(b: Books, page: seq<Row>, generation: nat, shadow: bool)
    ensures var b' := VisitAll(b, page, generation, shadow);
            && (forall k :: k in b'.intents <==> k in b.intents || (HasKey(page, k) && Open(b, k)))
            && (forall k | k in b.intents :: b'.intents[k] == b.intents[k])
            && (forall k | k in b.receipts :: k in b'.receipts && b'.receipts[k] == b.receipts[k])
            && (forall k | k in b'.receipts && k !in b.receipts :: k in b'.intents && k !in b.intents && b'.receipts[k].status == "delivered")
            && (forall k | HasKey(page, k) :: !Open(b', k))
  {
    if page != [] {
      var front, last := page[..|page| - 1], page[|page| - 1];
      VisitedKeysAreSettled(b, front, generation, shadow);
      assert page == front + [last];
      forall k: Key
        ensures HasKey(page, k) <==> HasKey(front, k) || (Keyed(last) && last.key.value == k)
      {
        KeyInFront(front, last, k);
      }
    }
  }

  lemma KeyInFront(front: seq<Row>, last: Row, key: Key)
    ensures HasKey(front + [last], key) <==> HasKey(front, key) || (Keyed(last) && last.key.value == key)
  {
    var page := front + [last];
    if HasKey(front, key) {
      var i :| 0 <= i < |front| && front[i].key == Some(key);
      assert page[i].key == Some(key);
    }
    if Keyed(last) && last.key.value == key {
      assert page[|front|].key == Some(key);
    }
  }

  lemma {:induction false} SettledVisit(b: Books, page: seq<Row>, generation: nat, shadow: bool)
    requires forall k | HasKey(page, k) :: !Open(b, k)
    ensures VisitAll(b, page, generation, shadow) == b
  {
    if page != [] {
      var front, last := page[..|page| - 1], page[|page| - 1];
      assert page == front + [last];
      forall k | HasKey(front, k)
        ensures !Open(b, k)
      {
        KeyInFront(front, last, k);
      }
      if Keyed(last) {
        KeyInFront(front, last, last.key.value);
      }
      SettledVisit(b, front, generation, shadow);
    }
  }

  lemma {:induction false} VisitInParts(b: Books, first: seq<Row>, second: seq<Row>, generation: nat, shadow: bool)
    ensures VisitAll(b, first + second, generation, shadow) == VisitAll(VisitAll(b, first, generation, shadow), second, generation, shadow)
  {
    if second == [] {
      assert first + second == first;
    } else {
      assert (first + second)[..|first + second| - 1] == first + second[..|second| - 1];
      VisitInParts(b, first, second[..|second| - 1], generation, shadow);
    }
  }

  /** A sweep that was cut short after some rows, its seek lost, leaves nothing for the next sweep to do twice. */
  lemma CutShortIsHarmless(b: Books, page: seq<Row>, k: nat, generation: nat, shadow: bool)
    requires k <= |page|
    ensures VisitAll(VisitAll(b, page[..k], generation, shadow), page, generation, shadow) == VisitAll(b, page, generation, shadow)
  {
    var part := VisitAll(b, page[..k], generation, shadow);
    VisitedKeysAreSettled(b, page[..k], generation, shadow);
    SettledVisit(part, page[..k], generation, shadow);
    assert page == page[..k] + page[k..];
    VisitInParts(part, page[..k], page[k..], generation, shadow);
    VisitInParts(b, page[..k], page[k..], generation, shadow);
  }

  // ---------------------------------------------------------------- the sweep

  /** The persisted seek counts only in its own generation and not below the cutoff. */
  function StartSeek(stored: Option<Stored>, generation: nat, cutoff: real): Seek {
    if stored.Some? && stored.value.generation == generation && stored.value.seek.ts >= cutoff then stored.value.seek else Seek(cutoff, 0)
  }

  class Bridge {
    var intents: map<Key, Intent>
    var receipts: map<Key, Receipt>
    var stored: Option<Stored>
    var generation: nat
    var cutoff: real

    constructor (now: real)
      ensures intents == map[] && receipts == map[] && stored == None && generation == 1 && cutoff == now
    {
      intents, receipts, stored, generation, cutoff := map[], map[], None, 1, now;
    }

    ghost function View(): Books
      reads this
    {
      Books(intents, receipts)
    }

    method VisitRow(r: Row, shadow: bool) returns (added: nat, free: nat)
      modifies this`intents, this`receipts
      ensures View() == Visit(old(View()), r, generation, shadow)
      ensures added == |receipts| - |old(receipts)| && added + free == |intents| - |old(intents)|
    {
      added, free := 0, 0;
      if r.key.None? || r.key.value == "" {
        return;
      }
      var key := r.key.value;
      if key in intents {
        return;
      }
      if key in receipts && !(receipts[key].status == "delivered" && receipts[key].error == INTENT_FAILED) {
        return;
      }
      intents := intents[key := Intent(r.session, r.id, generation, "reconciled", StateOf(shadow))];
      if key !in receipts {
        receipts := receipts[key := Receipt("delivered", None, r.id, r.digest)];
        added := 1;
      } else {
        free := 1;
      }
    }

    method VisitPage(page: seq<Row>, shadow: bool) returns (added: nat, free: nat)
      modifies this`intents, this`receipts
      ensures View() == VisitAll(old(View()), page, generation, shadow)
      ensures added == |receipts| - |old(receipts)| && added + free == |intents| - |old(intents)|
    {
      added, free := 0, 0;
      for i := 0 to |page|
        invariant View() == VisitAll(old(View()), page[..i], generation, shadow)
        invariant added == |receipts| - |old(receipts)| && added + free == |intents| - |old(intents)|
      {
        assert page[..i + 1][..i] == page[..i];
        var a, f := VisitRow(page[i], shadow);
        added, free := added + a, free + f;
      }
      assert page[..|page|] == page;
    }

    /** A fresh report registers its intent; nothing is registered twice. */
    method OnDelivered(key: Key, session: string, row: nat, reason: string, off: bool, shadow: bool) returns (state: Option<string>)
      modifies this`intents
      ensures off ==> intents == old(intents) && state == None
      ensures !off && key in old(intents) ==> intents == old(intents) && state == Some(intents[key].state)
      ensures !off && key !in old(intents) ==>
        intents == old(intents)[key := Intent(session, row, generation, reason, StateOf(shadow))] && state == Some(StateOf(shadow))
    {
      if off {
        return None;
      }
      if key in intents {
        return Some(intents[key].state);
      }
      intents := intents[key := Intent(session, row, generation, reason, StateOf(shadow))];
      return Some(StateOf(shadow));
    }

    method BumpGeneration(now: real)
      modifies this`generation, this`cutoff
      ensures generation == old(generation) + 1 && cutoff == now
    {
      generation, cutoff := generation + 1, now;
    }

    method ReadPage(rows: seq<Row>, seek: Seek, limit: nat, shadow: bool) returns (size: nat, end: Seek, added: nat, free: nat)
      modifies this`intents, this`receipts
      ensures var page := Page(rows, cutoff, seek, limit);
              size == |page| && end == SeekAfter(seek, page) && View() == VisitAll(old(View()), page, generation, shadow)
      ensures added == |receipts| - |old(receipts)| && added + free == |intents| - |old(intents)|
    {
      var page := Page(rows, cutoff, seek, limit);
      added, free := VisitPage(page, shadow);
      size := |page|;
      end := if page != [] then SeekOf(page[|page| - 1]) else seek;
    }

    /**
     Pages of `limit` rows until one is not full, at most 25 of them. Each page is a query of its own, so it
     sees the rows as they are by then: `views[k]` is what page k finds.
     */
    method Walk(views: seq<seq<Row>>, start: Seek, limit: nat, shadow: bool) returns (end: Seek, added: nat, free: nat)
      requires |views| == 25
      modifies this`intents, this`receipts
      ensures var visited := Visits(views, cutoff, start, limit);
              View() == VisitAll(old(View()), visited, generation, shadow) && end == SeekAfter(start, visited)
      ensures added == |receipts| - |old(receipts)| && added + free == |intents| - |old(intents)|
    {
      end, added, free := start, 0, 0;
      ghost var visited: seq<Row> := [];
      var pages := 0;
      ghost var left, before, receiptsThen, intentsThen := views, View(), |receipts|, |intents|;
      while true
        invariant 0 <= pages < MAX_PAGES && left == views[pages..] && end == SeekAfter(start, visited)
        invariant Visits(views, cutoff, start, limit) == visited + Visits(left, cutoff, end, limit)
        invariant View() == VisitAll(before, visited, generation, shadow)
        invariant receiptsThen + added == |receipts| && intentsThen + added + free == |intents|
        decreases MAX_PAGES - pages
      {
        ghost var page := Page(left[0], cutoff, end, limit);
        NextVisits(left, cutoff, end, limit, visited, page);
        var size, a, f;
        size, end, a, f := ReadPage(views[pages], end, limit, shadow);
        added, free := added + a, free + f;
        VisitInParts(before, visited, page, generation, shadow);
        visited, left := visited + page, left[1..];
        pages := pages + 1;
        if size < limit || pages >= MAX_PAGES {
          break;
        }
      }
    }

    /** One sweep: from the persisted seek, or from the cutoff when it no longer counts. */
    method Reconcile(views: seq<seq<Row>>, limit: nat, shadow: bool) returns (added: nat, free: nat)
      requires |views| == 25
      modifies this`intents, this`receipts, this`stored
      ensures var start := StartSeek(old(stored), generation, cutoff);
              var visited := Visits(views, cutoff, start, limit);
              View() == VisitAll(old(View()), visited, generation, shadow)
              && stored == Some(Stored(generation, SeekAfter(start, visited)))
      ensures added == |receipts| - |old(receipts)| && added + free == |intents| - |old(intents)|
    {
      var seek := Seek(cutoff, 0);
      if stored.Some? && stored.value.generation == generation && stored.value.seek.ts >= cutoff {
        seek := stored.value.seek;
      }
      seek, added, free := Walk(views, seek, limit, shadow);
      stored := Some(Stored(generation, seek));
    }
  }

  /** What the pages of a sweep visit, one query after the other, until one is not full. */
  function Visits(views: seq<seq<Row>>, cutoff: real, seek: Seek, limit: nat): seq<Row>
    decreases |views|
  {
    if views == [] then []
    else
      var page := Page(views[0], cutoff, seek, limit);
      if |page| < limit then page else page + Visits(views[1..], cutoff, SeekAfter(seek, page), limit)
  }

  lemma NextVisits(views: seq<seq<Row>>, cutoff: real, seek: Seek, limit: nat, visited: seq<Row>, page: seq<Row>)
    requires views != [] && page == Page(views[0], cutoff, seek, limit)
    ensures |page| < limit || |views| == 1 ==> visited + Visits(views, cutoff, seek, limit) == visited + page
    ensures |page| >= limit ==>
      visited + Visits(views, cutoff, seek, limit) == (visited + page) + Visits(views[1..], cutoff, SeekAfter(seek, page), limit)
  {
  }

  /** When nothing is appended meanwhile, the pages of a sweep are one page of all of them. */
  lemma {:induction false} QuietSweepIsOnePage(rows: seq<Row>, pages: nat, cutoff: real, seek: Seek, limit: nat)
    ensures Visits(seq(pages, i => rows), cutoff, seek, limit) == Page(rows, cutoff, seek, Times(pages, limit))
    decreases pages
  {
    var views := seq(pages, i => rows);
    if pages > 0 {
      var page := Page(rows, cutoff, seek, limit);
      assert views[1..] == seq(pages - 1, i => rows);
      QuietSweepIsOnePage(rows, pages - 1, cutoff, SeekAfter(seek, page), limit);
      if |page| < limit {
        TimesGrows(1, pages, limit);
        assert Times(1, limit) == limit;
        ShortPage(rows, cutoff, seek, limit, Times(pages, limit));
      } else {
        PagesJoin(rows, cutoff, seek, limit, Times(pages - 1, limit));
      }
    }
  }

  /** How many rows so many full pages hold. */
  function Times(pages: nat, limit: nat): nat {
    if pages == 0 then 0 else Times(pages - 1, limit) + limit
  }

  lemma {:induction false} TimesGrows(pages: nat, more: nat, limit: nat)
    requires pages <= more
    ensures Times(pages, limit) <= Times(more, limit)
  {
    if pages < more {
      TimesGrows(pages, more - 1, limit);
    }
  }

  lemma OneMore(a: nat, b: nat)
    ensures (a + 1) * b == a * b + b
  {
  }

  lemma {:induction false} TimesMultiplies(pages: nat, limit: nat)
    ensures Times(pages, limit) == pages * limit
  {
    if pages > 0 {
      TimesMultiplies(pages - 1, limit);
      OneMore(pages - 1, limit);
    }
  }
}
