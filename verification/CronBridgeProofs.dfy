/** Facts about one SessionDB: compression chains, lineages, and the rows inside them. */
module CronBridgeProofs {
  import opened Basics
  import opened CronBridge
  import CronBridgeStore

  /** The live end of the compression chain that starts at `s`. */
  function Tip(db: Db, s: Sid): (t: Sid)
    requires Linked(db.sessions)
    ensures !Compressed(db, t) && s <= t
    decreases |db.sessions| - s
  {
    if Compressed(db, s) then Tip(db, db.sessions[s].next.value) else s
  }

  /** `t` is `s` or one of its compression continuations: what a resolution may answer, stale or not. */
  predicate Reaches(db: Db, s: Sid, t: Sid)
    requires Linked(db.sessions)
    decreases |db.sessions| - s
  {
    t == s || (Compressed(db, s) && Reaches(db, db.sessions[s].next.value, t))
  }

  lemma {:induction false} OpenTargetIsTip(db: Db, s: Sid, t: Sid)
    requires Linked(db.sessions) && Reaches(db, s, t) && !Compressed(db, t)
    ensures t == Tip(db, s)
    decreases |db.sessions| - s
  {
    if t != s {
      OpenTargetIsTip(db, db.sessions[s].next.value, t);
    }
  }

  lemma {:induction false} AncestorsAreCompressed(db: Db, s: Sid, t: Sid)
    requires Linked(db.sessions) && t in Lineage(db, s)
    ensures t == s || Compressed(db, t)
    decreases s
  {
    if t != s {
      AncestorsAreCompressed(db, db.sessions[s].parent.value, t);
    }
  }

  /** Every row of a report lies in the lineage of the live session, and the report has one content. */
  ghost predicate RowsInPlace(db: Db) {
    && Linked(db.sessions)
    && (forall i | 0 <= i < |db.messages| ::
          && db.messages[i].session < |db.sessions|
          && db.messages[i].session in Lineage(db, Tip(db, db.messages[i].key.session)))
    && OneContent(db.messages)
  }

  /** Rows of one report carry one digest, and only the first of them was inserted by the bridge. */
  ghost predicate OneContent(messages: seq<Row>) {
    forall i, j | 0 <= i < j < |messages| && messages[i].key == messages[j].key ::
      messages[i].digest == messages[j].digest && !messages[j].inserted
  }

  /** A write that inserts found no row of its report anywhere: an open target is the live end of the chain. */
  lemma FreshIsFirst(db: Db, target: Sid, key: Key, content: string)
    requires RowsInPlace(db) && Reaches(db, key.session, target) && WriteOnce(db, target, key, content).1.Fresh?
    ensures target == Tip(db, key.session) && forall i | 0 <= i < |db.messages| :: db.messages[i].key != key
  {
    OpenTargetIsTip(db, key.session, target);
    forall i | 0 <= i < |db.messages|
      ensures db.messages[i].key != key
    {
      assert db.messages[i].session in Lineage(db, Tip(db, db.messages[i].key.session));
    }
  }

  /**
   A write inserts at most once per report, even through a stale resolution: an open target is the
   live end of the chain, and its lineage holds every row of the report.
   */
  lemma WriteKeepsRows(db: Db, target: Sid, key: Key, content: string)
    requires RowsInPlace(db) && Reaches(db, key.session, target)
    ensures RowsInPlace(WriteOnce(db, target, key, content).0)
    ensures var (db', w) := WriteOnce(db, target, key, content);
            && db.messages <= db'.messages && db'.sessions == db.sessions
            && (w.Fresh? ==> w.row == |db.messages| && forall i | 0 <= i < |db.messages| :: db.messages[i].key != key)
            && (w.Fresh? || w.Dedup? ==> w.row < |db'.messages| && db'.messages[w.row].key == key && db'.messages[w.row].digest == content)
  {
    var (db', w) := WriteOnce(db, target, key, content);
    if w.Fresh? {
      FreshIsFirst(db, target, key, content);
      AppendInPlace(db, Row(target, key, content, true));
    }
  }

  lemma AppendInPlace(db: Db, row: Row)
    requires RowsInPlace(db) && row.session < |db.sessions| && row.session == Tip(db, row.key.session)
    requires forall i | 0 <= i < |db.messages| :: db.messages[i].key != row.key
    ensures RowsInPlace(db.(messages := db.messages + [row]))
  {
    var db' := db.(messages := db.messages + [row]);
    SameSessions(db, db');
    forall i | 0 <= i < |db'.messages|
      ensures db'.messages[i].session < |db'.sessions|
      ensures db'.messages[i].session in Lineage(db', Tip(db', db'.messages[i].key.session))
    {
      if i < |db.messages| {
        assert db'.messages[i] == db.messages[i];
      }
    }
    AppendKeepsContent(db.messages, row);
  }

  lemma AppendKeepsContent(messages: seq<Row>, row: Row)
    requires OneContent(messages) && forall i | 0 <= i < |messages| :: messages[i].key != row.key
    ensures OneContent(messages + [row])
  {
  }

  /** Lineage and chain depend on the sessions alone. */
  lemma SameSessions(db: Db, db': Db)
    requires Linked(db.sessions) && db'.sessions == db.sessions
    ensures forall s: Sid :: Lineage(db', s) == Lineage(db, s) && Tip(db', s) == Tip(db, s)
  {
    forall s: Sid
      ensures Lineage(db', s) == Lineage(db, s) && Tip(db', s) == Tip(db, s)
    {
      LineageGrows(db, db', s);
      LineageGrows(db', db, s);
      TipStays(db, db', s);
    }
  }

  /** `db'` has at least the sessions of `db`, under the same parents, and reopens no compressed one. */
  ghost predicate SessionsGrow(db: Db, db': Db) {
    && Linked(db.sessions) && Linked(db'.sessions) && |db.sessions| <= |db'.sessions|
    && forall s | 0 <= s < |db.sessions| ::
         && db'.sessions[s].parent == db.sessions[s].parent
         && (Compressed(db, s) ==> Compressed(db', s) && db'.sessions[s].next == db.sessions[s].next)
  }

  lemma {:induction false} LineageGrows(db: Db, db': Db, s: Sid)
    requires SessionsGrow(db, db')
    ensures Lineage(db, s) <= Lineage(db', s)
    decreases s
  {
    if s < |db.sessions| && db.sessions[s].parent.Some? && Compressed(db, db.sessions[s].parent.value) {
      assert db.sessions[s].parent.value < |db.sessions|;
      LineageGrows(db, db', db.sessions[s].parent.value);
    }
  }

  lemma {:induction false} ReachesGrows(db: Db, db': Db, s: Sid, t: Sid)
    requires SessionsGrow(db, db') && Reaches(db, s, t)
    ensures Reaches(db', s, t)
    decreases |db.sessions| - s
  {
    if t != s {
      ReachesGrows(db, db', db.sessions[s].next.value, t);
    }
  }

  /** The live end moves only when it is compressed itself. */
  lemma {:induction false} TipStays(db: Db, db': Db, s: Sid)
    requires SessionsGrow(db, db') && !Compressed(db', Tip(db, s))
    ensures Tip(db', s) == Tip(db, s)
    decreases |db.sessions| - s
  {
    if Compressed(db, s) {
      TipStays(db, db', db.sessions[s].next.value);
    }
  }

  lemma {:induction false} TipRotates(db: Db, db': Db, s: Sid)
    requires SessionsGrow(db, db') && Compressed(db', Tip(db, s))
    ensures Tip(db', s) == Tip(db', db'.sessions[Tip(db, s)].next.value)
    decreases |db.sessions| - s
  {
    if Compressed(db, s) {
      TipRotates(db, db', db.sessions[s].next.value);
    }
  }

  lemma MoveGrows(db: Db, m: Move)
    requires Linked(db.sessions)
    ensures SessionsGrow(db, ApplyMove(db, m)) && db.messages <= ApplyMove(db, m).messages
  {
    CronBridgeStore.LinkedAfterMove(db, m);
  }

  lemma {:induction false} CopiesAreRows(messages: seq<Row>, from: Sid, to: Sid, copied: seq<nat>)
    ensures forall c | c in CopyRows(messages, from, to, copied) ::
              c.session == to && !c.inserted
              && exists i :: 0 <= i < |messages| && messages[i].session == from && messages[i].key == c.key && messages[i].digest == c.digest
  {
    if copied != [] {
      CopiesAreRows(messages, from, to, copied[..|copied| - 1]);
      var i := copied[|copied| - 1];
      if i < |messages| && messages[i].session == from {
        var c := messages[i].(session := to, inserted := false);
        assert messages[i].key == c.key;
      }
    }
  }

  /** The rows that were there stay in place after any move. */
  lemma RowStaysInPlace(db: Db, m: Move, i: nat)
    requires RowsInPlace(db) && i < |db.messages|
    ensures Linked(ApplyMove(db, m).sessions)
    ensures db.messages[i].session in Lineage(ApplyMove(db, m), Tip(ApplyMove(db, m), db.messages[i].key.session))
  {
    MoveGrows(db, m);
    var db' := ApplyMove(db, m);
    var tip := Tip(db, db.messages[i].key.session);
    LineageGrows(db, db', tip);
    if Compressed(db', tip) {
      assert m.Rotate? && m.s == tip;
      var child := |db.sessions|;
      TipRotates(db, db', db.messages[i].key.session);
      assert Tip(db', child) == child;
      assert Lineage(db', child) == {child} + Lineage(db', tip);
    } else {
      TipStays(db, db', db.messages[i].key.session);
    }
  }

  /** A copied row sits in the new live end of the chain of its report. */
  lemma CopyInPlace(db: Db, m: Move, i: nat)
    requires RowsInPlace(db) && i < |db.messages| && m.Rotate? && ApplyMove(db, m) != db
    requires m.s < |db.sessions| && db.sessions[m.s].ended.None? && db.messages[i].session == m.s
    ensures Linked(ApplyMove(db, m).sessions)
    ensures Tip(ApplyMove(db, m), db.messages[i].key.session) == |db.sessions|
  {
    MoveGrows(db, m);
    var db' := ApplyMove(db, m);
    AncestorsAreCompressed(db, Tip(db, db.messages[i].key.session), m.s);
    TipRotates(db, db', db.messages[i].key.session);
  }

  /** Where a row of a moved database stands, and which row it was or was copied from. */
  lemma RowAfterMove(db: Db, m: Move, i: nat)
    requires RowsInPlace(db) && i < |ApplyMove(db, m).messages| && Linked(ApplyMove(db, m).sessions)
    ensures var db' := ApplyMove(db, m);
            && db'.messages[i].session < |db'.sessions|
            && db'.messages[i].session in Lineage(db', Tip(db', db'.messages[i].key.session))
            && (i >= |db.messages| ==> !db'.messages[i].inserted)
            && exists j :: 0 <= j < |db.messages| && (i < |db.messages| ==> i == j)
                 && db.messages[j].key == db'.messages[i].key && db.messages[j].digest == db'.messages[i].digest
  {
    if i < |db.messages| {
      RowStaysInPlace(db, m, i);
    } else {
      CopiesAreRows(db.messages, m.s, |db.sessions|, m.copied);
      var c := ApplyMove(db, m).messages[i];
      assert c in CopyRows(db.messages, m.s, |db.sessions|, m.copied);
      var j :| 0 <= j < |db.messages| && db.messages[j].session == m.s && db.messages[j].key == c.key && db.messages[j].digest == c.digest;
      CopyInPlace(db, m, j);
    }
  }

  lemma MoveKeepsRows(db: Db, m: Move)
    requires RowsInPlace(db)
    ensures RowsInPlace(ApplyMove(db, m))
  {
    MoveGrows(db, m);
    var db' := ApplyMove(db, m);
    forall i | 0 <= i < |db'.messages|
      ensures db'.messages[i].session < |db'.sessions|
      ensures db'.messages[i].session in Lineage(db', Tip(db', db'.messages[i].key.session))
    {
      RowAfterMove(db, m, i);
    }
    MoveKeepsContent(db, m);
  }

  lemma MoveKeepsContent(db: Db, m: Move)
    requires RowsInPlace(db) && Linked(ApplyMove(db, m).sessions) && db.messages <= ApplyMove(db, m).messages
    ensures OneContent(ApplyMove(db, m).messages)
  {
    var after := ApplyMove(db, m).messages;
    forall i, j | 0 <= i < j < |after| && after[i].key == after[j].key
      ensures after[i].digest == after[j].digest && !after[j].inserted
    {
      RowAfterMove(db, m, i);
      RowAfterMove(db, m, j);
    }
  }
}
