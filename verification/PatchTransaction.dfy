/**
 Patching someone else's modules and taking it back: bindings are set one by one, each with a note of what
 it replaced, and restored in the opposite order wherever the patch is still in place.
 */
module PatchTransaction {
  import opened Basics

  type Target = string
  type Value = int

  datatype Slot = Slot(target: Target, name: string)

  /** What was found before a set, and what was set. Values are compared by identity. */
  datatype Change = Change(slot: Slot, found: Option<Value>, value: Value)

  type Bindings = map<Slot, Value>

  /** Where each target's attributes are inherited from, nearest first; a plain mapping inherits nothing. */
  type Lines = map<Target, seq<Target>>

  function LineOf(lines: Lines, t: Target): seq<Target> {
    if t in lines then lines[t] else []
  }

  function FirstOwn(b: Bindings, line: seq<Target>, name: string): Option<Value> {
    if line == [] then None
    else if Slot(line[0], name) in b then Some(b[Slot(line[0], name)])
    else FirstOwn(b, line[1..], name)
  }

  /** The target's own binding, or the inherited one. */
  function Look(b: Bindings, lines: Lines, s: Slot): Option<Value> {
    if s in b then Some(b[s]) else FirstOwn(b, LineOf(lines, s.target), s.name)
  }

  predicate Inherited(b: Bindings, lines: Lines, s: Slot) {
    s !in b && Look(b, lines, s).Some?
  }

  // ---------------------------------------------------------------- one transaction

  /** A restore of one change; the flag says whether it wrote. */
  function Undo(b: Bindings, lines: Lines, c: Change): (Bindings, bool) {
    if Look(b, lines, c.slot) != Some(c.value) then (b, false)
    else if c.found.None? then (b - {c.slot}, true)
    else (b[c.slot := c.found.value], true)
  }

  /** Restores changes from the last to the first. */
  function UndoAll(b: Bindings, lines: Lines, changes: seq<Change>): Bindings
    decreases |changes|
  {
    if changes == [] then b
    else UndoAll(Undo(b, lines, changes[|changes| - 1]).0, lines, changes[..|changes| - 1])
  }

  /** The slots a restore writes to. */
  function Touched(b: Bindings, lines: Lines, changes: seq<Change>): set<Slot>
    decreases |changes|
  {
    if changes == [] then {}
    else
      var last := changes[|changes| - 1];
      var (b', wrote) := Undo(b, lines, last);
      (if wrote then {last.slot} else {}) + Touched(b', lines, changes[..|changes| - 1])
  }

  datatype Op = Op(slot: Slot, value: Value)

  function Install(b: Bindings, ops: seq<Op>): Bindings {
    if ops == [] then b
    else Install(b, ops[..|ops| - 1])[ops[|ops| - 1].slot := ops[|ops| - 1].value]
  }

  /** The changes a transaction notes while it installs. */
  function Noted(b: Bindings, lines: Lines, ops: seq<Op>): (cs: seq<Change>)
    ensures |cs| == |ops|
  {
    if ops == [] then []
    else
      var last := ops[|ops| - 1];
      Noted(b, lines, ops[..|ops| - 1]) + [Change(last.slot, Look(Install(b, ops[..|ops| - 1]), lines, last.slot), last.value)]
  }

  class Namespace {
    var bindings: Bindings
    const lines: Lines

    constructor (b: Bindings, l: Lines)
      ensures bindings == b && lines == l
    {
      bindings, lines := b, l;
    }
  }

  class Transaction {
    var changes: seq<Change>

    constructor ()
      ensures changes == []
    {
      changes := [];
    }

    /** The guard is consulted before anything is bound; when it fails the binding is not made. */
    method Set(ns: Namespace, s: Slot, v: Value, abandoned: bool) returns (done: bool)
      modifies this, ns`bindings
      ensures done == !abandoned
      ensures abandoned ==> ns.bindings == old(ns.bindings) && changes == old(changes)
      ensures !abandoned ==> ns.bindings == old(ns.bindings)[s := v]
      ensures !abandoned ==> changes == old(changes) + [Change(s, Look(old(ns.bindings), ns.lines, s), v)]
    {
      if abandoned {
        return false;
      }
      var found := Look(ns.bindings, ns.lines, s);
      ns.bindings := ns.bindings[s := v];
      changes := changes + [Change(s, found, v)];
      return true;
    }

    /** Unwinds every change; a binding that is not what the change set is left alone. */
    method Restore(ns: Namespace)
      modifies this, ns`bindings
      ensures ns.bindings == UndoAll(old(ns.bindings), ns.lines, old(changes)) && changes == []
    {
      ghost var was := changes;
      assert was[..|was|] == was;
      for k := |changes| downto 0
        invariant changes == was
        invariant UndoAll(ns.bindings, ns.lines, was[..k]) == UndoAll(old(ns.bindings), ns.lines, was)
      {
        var c := changes[k];
        assert was[..k + 1][..k] == was[..k];
        if Look(ns.bindings, ns.lines, c.slot) == Some(c.value) {
          if c.found.None? {
            ns.bindings := ns.bindings - {c.slot};
          } else {
            ns.bindings := ns.bindings[c.slot := c.found.value];
          }
        }
      }
      changes := [];
    }
  }

  // ---------------------------------------------------------------- restoring in reverse order

  /** No set ever found an inherited value: every slot was bound by its target itself, or nowhere. */
  predicate NothingInherited(b: Bindings, lines: Lines, ops: seq<Op>) {
    forall k | 0 <= k < |ops| :: !Inherited(Install(b, ops[..k]), lines, ops[k].slot)
  }

  lemma {:induction false} InstallOwns(b: Bindings, ops: seq<Op>)
    ensures b.Keys <= Install(b, ops).Keys
    ensures forall k | 0 <= k < |ops| :: ops[k].slot in Install(b, ops)
    ensures forall s | s in Install(b, ops) && s !in b :: exists k :: 0 <= k < |ops| && ops[k].slot == s
  {
    if ops != [] {
      var front, last := ops[..|ops| - 1], ops[|ops| - 1];
      InstallOwns(b, front);
      forall s | s in Install(b, ops) && s !in b
        ensures exists k :: 0 <= k < |ops| && ops[k].slot == s
      {
        if s == last.slot {
          assert ops[|ops| - 1].slot == s;
        } else {
          var k :| 0 <= k < |front| && front[k].slot == s;
          assert ops[k].slot == s;
        }
      }
    }
  }

  /** Undoing the last set gives back what was there before it, but for a value that was inherited: that one is now bound. */
  lemma UndoLast(b: Bindings, lines: Lines, s: Slot, v: Value)
    ensures Undo(b[s := v], lines, Change(s, Look(b, lines, s), v)).0
         == if Inherited(b, lines, s) then b[s := Look(b, lines, s).value] else b
  {
    assert Look(b[s := v], lines, s) == Some(v);
    if s in b {
      assert b[s := v][s := b[s]] == b;
    } else {
      assert b[s := v] - {s} == b;
      if Inherited(b, lines, s) {
        assert b[s := v][s := Look(b, lines, s).value] == b[s := Look(b, lines, s).value];
      }
    }
  }

  /** Whatever is unwound, a slot that no change found unbound stays bound. */
  lemma {:induction false} UndoKeepsOwn(b: Bindings, lines: Lines, changes: seq<Change>, s: Slot)
    requires s in b && forall k | 0 <= k < |changes| && changes[k].slot == s :: changes[k].found.Some?
    ensures s in UndoAll(b, lines, changes)
    decreases |changes|
  {
    if changes != [] {
      UndoKeepsOwn(Undo(b, lines, changes[|changes| - 1]).0, lines, changes[..|changes| - 1], s);
    }
  }

  lemma {:induction false} NotedFront(b: Bindings, lines: Lines, ops: seq<Op>, k: nat)
    requires k < |ops|
    ensures Noted(b, lines, ops)[k] == Change(ops[k].slot, Look(Install(b, ops[..k]), lines, ops[k].slot), ops[k].value)
  {
    if k < |ops| - 1 {
      NotedFront(b, lines, ops[..|ops| - 1], k);
      assert ops[..|ops| - 1][..k] == ops[..k];
    }
  }

  lemma {:induction false} RestoreExact(b: Bindings, lines: Lines, ops: seq<Op>)
    requires NothingInherited(b, lines, ops)
    ensures UndoAll(Install(b, ops), lines, Noted(b, lines, ops)) == b
  {
    if ops != [] {
      var front, last := ops[..|ops| - 1], ops[|ops| - 1];
      assert NothingInherited(b, lines, front) by {
        forall k | 0 <= k < |front|
          ensures !Inherited(Install(b, front[..k]), lines, front[k].slot)
        {
          assert front[..k] == ops[..k];
        }
      }
      UndoLast(Install(b, front), lines, last.slot, last.value);
      RestoreExact(b, lines, front);
      assert Noted(b, lines, ops)[..|ops| - 1] == Noted(b, lines, front);
    }
  }

  /** An inherited value that was patched over is bound for good afterwards, whatever is restored. */
  lemma InheritedIsPinned(b: Bindings, lines: Lines, ops: seq<Op>, k: nat)
    requires k < |ops| && Inherited(Install(b, ops[..k]), lines, ops[k].slot)
    requires forall j | 0 <= j < |ops| && ops[j].slot == ops[k].slot :: k <= j
    ensures ops[k].slot !in b && ops[k].slot in UndoAll(Install(b, ops), lines, Noted(b, lines, ops))
  {
    var s := ops[k].slot;
    InstallOwns(b, ops[..k]);
    InstallOwns(b, ops);
    var cs := Noted(b, lines, ops);
    forall j | 0 <= j < |cs| && cs[j].slot == s
      ensures cs[j].found.Some?
    {
      NotedFront(b, lines, ops, j);
      if j > k {
        InstallOwns(b, ops[..j]);
        assert ops[..j][k].slot == s;
      }
    }
    UndoKeepsOwn(Install(b, ops), lines, cs, s);
  }

  /**
   Any number of sets, nested and repeated, restored from the last to the first give back exactly the
   bindings there were, if and only if no set patched over an inherited value.
   */
  lemma RestoreIsExactIff(b: Bindings, lines: Lines, ops: seq<Op>)
    ensures UndoAll(Install(b, ops), lines, Noted(b, lines, ops)) == b <==> NothingInherited(b, lines, ops)
  {
    if NothingInherited(b, lines, ops) {
      RestoreExact(b, lines, ops);
    } else {
      var k :| 0 <= k < |ops| && Inherited(Install(b, ops[..k]), lines, ops[k].slot);
      forall j | 0 <= j < k
        ensures ops[j].slot != ops[k].slot
      {
        InstallOwns(b, ops[..k]);
        assert ops[..k][j].slot in Install(b, ops[..k]);
      }
      InheritedIsPinned(b, lines, ops, k);
    }
  }

  /** Flat targets inherit nothing, so their restore is always exact. */
  lemma FlatIsExact(b: Bindings, lines: Lines, ops: seq<Op>)
    requires forall k | 0 <= k < |ops| :: LineOf(lines, ops[k].slot.target) == []
    ensures UndoAll(Install(b, ops), lines, Noted(b, lines, ops)) == b
  {
    RestoreExact(b, lines, ops);
  }

  // ---------------------------------------------------------------- several transactions

  function InstallEach(b: Bindings, each: seq<seq<Op>>): Bindings {
    if each == [] then b else Install(InstallEach(b, each[..|each| - 1]), each[|each| - 1])
  }

  /** The last transaction installed is restored first. */
  function RestoreEach(b: Bindings, now: Bindings, lines: Lines, each: seq<seq<Op>>): Bindings
    decreases |each|
  {
    if each == [] then now
    else
      var before := InstallEach(b, each[..|each| - 1]);
      RestoreEach(b, UndoAll(now, lines, Noted(before, lines, each[|each| - 1])), lines, each[..|each| - 1])
  }

  /** Several transactions one after the other, restored in the opposite order, leave no trace. */
  lemma {:induction false} ReverseOrderIsExact(b: Bindings, lines: Lines, each: seq<seq<Op>>)
    requires forall i | 0 <= i < |each| :: NothingInherited(InstallEach(b, each[..i]), lines, each[i])
    ensures RestoreEach(b, InstallEach(b, each), lines, each) == b
  {
    if each != [] {
      var front := each[..|each| - 1];
      forall i | 0 <= i < |front|
        ensures NothingInherited(InstallEach(b, front[..i]), lines, front[i])
      {
        assert front[..i] == each[..i];
      }
      RestoreExact(InstallEach(b, front), lines, each[|each| - 1]);
      ReverseOrderIsExact(b, lines, front);
    }
  }

  lemma UndoOne(b: Bindings, lines: Lines, c: Change)
    ensures UndoAll(b, lines, [c]) == Undo(b, lines, c).0
  {
    assert [c][..0] == [];
    assert UndoAll(Undo(b, lines, c).0, lines, []) == Undo(b, lines, c).0;
  }

  lemma UndoTwo(b: Bindings, lines: Lines, c: Change, d: Change)
    ensures UndoAll(b, lines, [c, d]) == Undo(Undo(b, lines, d).0, lines, c).0
  {
    assert [c, d][..1] == [c];
    UndoOne(Undo(b, lines, d).0, lines, c);
  }

  const F := Slot("m", "f")

  /** Two transactions set one slot to 2 and then to 3; restored in the order of installation, the first one's patch stays. */
  lemma WrongOrderLeavesAPatch()
    ensures var none: Lines := map[];
            UndoAll(UndoAll(map[F := 3], none, [Change(F, Some(1), 2)]), none, [Change(F, Some(2), 3)]) == map[F := 2]
  {
    var none: Lines := map[];
    UndoOne(map[F := 3], none, Change(F, Some(1), 2));
    UndoOne(map[F := 3], none, Change(F, Some(2), 3));
  }

  const Parent := Slot("P", "f")
  const Child := Slot("C", "f")

  /** A child patched after its parent, in one transaction: the parent's patch survives the restore in the child. */
  lemma PinnedPatchExample()
    ensures var lines: Lines := map["C" := ["P"]];
            UndoAll(map[Parent := 2, Child := 3], lines, [Change(Parent, Some(1), 2), Change(Child, Some(2), 3)]) == map[Parent := 1, Child := 2]
    ensures Look(map[Parent := 2], map["C" := ["P"]], Child) == Some(2)
  {
    var lines: Lines := map["C" := ["P"]];
    UndoTwo(map[Parent := 2, Child := 3], lines, Change(Parent, Some(1), 2), Change(Child, Some(2), 3));
    assert Undo(map[Parent := 2, Child := 3], lines, Change(Child, Some(2), 3)).0 == map[Parent := 2, Child := 2];
  }

  // ---------------------------------------------------------------- other people's bindings

  predicate Flat(lines: Lines, changes: seq<Change>) {
    forall k | 0 <= k < |changes| :: LineOf(lines, changes[k].slot.target) == []
  }

  /**
   Whatever the bindings have become and in whatever order transactions are restored: a restore writes to a
   slot exactly when the slot still holds one of the values the transaction set there.
   */
  lemma {:induction false} TouchesOnlyItsOwn(b: Bindings, lines: Lines, changes: seq<Change>, s: Slot)
    requires Flat(lines, changes)
    ensures s in Touched(b, lines, changes) <==> s in b && exists k :: 0 <= k < |changes| && changes[k].slot == s && changes[k].value == b[s]
    ensures s !in Touched(b, lines, changes) ==> Look(UndoAll(b, lines, changes), map[], s) == Look(b, map[], s)
    decreases |changes|
  {
    if changes != [] {
      var front, last := changes[..|changes| - 1], changes[|changes| - 1];
      var (b', wrote) := Undo(b, lines, last);
      TouchesOnlyItsOwn(b', lines, front, s);
      if !(wrote && last.slot == s) {
        assert s in b' <==> s in b;
        if s in b && exists k :: 0 <= k < |changes| && changes[k].slot == s && changes[k].value == b[s] {
          var k :| 0 <= k < |changes| && changes[k].slot == s && changes[k].value == b[s];
          assert k < |front| && front[k] == changes[k];
        }
      } else {
        assert changes[|changes| - 1].value == b[s];
      }
    }
  }

  /** A value the transaction had set earlier counts as its own, even if someone else put it back. */
  lemma EarlierValueExample()
    ensures UndoAll(map[F := 2], map[], [Change(F, Some(1), 2), Change(F, Some(2), 3)]) == map[F := 1]
  {
    UndoTwo(map[F := 2], map[], Change(F, Some(1), 2), Change(F, Some(2), 3));
  }

  // ---------------------------------------------------------------- what a target sees

  /** A target sees its own binding; without one, that of the nearest in its line that has one; without any, nothing. */
  lemma LookIs(b: Bindings, lines: Lines, target: Target, name: string)
    ensures var line := if target in lines then lines[target] else [];
            && (Slot(target, name) in b ==> Look(b, lines, Slot(target, name)) == Some(b[Slot(target, name)]))
            && (Slot(target, name) !in b ==>
                  && (forall i | NearestIs(b, line, name, i) :: Look(b, lines, Slot(target, name)) == Some(b[Slot(line[i], name)]))
                  && ((forall i | 0 <= i < |line| :: Slot(line[i], name) !in b) ==> Look(b, lines, Slot(target, name)) == None))
  {
    FirstOwnIs(b, LineOf(lines, target), name);
  }

  predicate NearestIs(b: Bindings, line: seq<Target>, name: string, i: int) {
    0 <= i < |line| && Slot(line[i], name) in b && forall j | 0 <= j < i :: Slot(line[j], name) !in b
  }

  lemma {:induction false} FirstOwnIs(b: Bindings, line: seq<Target>, name: string)
    ensures forall i | NearestIs(b, line, name, i) :: FirstOwn(b, line, name) == Some(b[Slot(line[i], name)])
    ensures (forall i | 0 <= i < |line| :: Slot(line[i], name) !in b) ==> FirstOwn(b, line, name) == None
  {
    if line != [] && Slot(line[0], name) !in b {
      FirstOwnIs(b, line[1..], name);
      forall i | NearestIs(b, line, name, i)
        ensures FirstOwn(b, line, name) == Some(b[Slot(line[i], name)])
      {
        assert line[1..][i - 1] == line[i];
        assert NearestIs(b, line[1..], name, i - 1);
      }
    }
  }

  /** A restore of one change writes back what was found, or takes the binding away, and only while the target still sees the patch. */
  lemma UndoIs(b: Bindings, lines: Lines, s: Slot, found: Option<Value>, value: Value)
    ensures var (b', wrote) := Undo(b, lines, Change(s, found, value));
            && (wrote <==> Look(b, lines, s) == Some(value))
            && (!wrote ==> b' == b)
            && (wrote ==> (forall t | t != s :: t in b' <==> t in b) && (forall t | t in b && t != s :: b'[t] == b[t]))
            && (wrote && found == None ==> s !in b')
            && (wrote && found != None ==> s in b' && b'[s] == found.value)
  {
  }
}
