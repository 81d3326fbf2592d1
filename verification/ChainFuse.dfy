/** The chain fuse: how many times a lineage of sessions may wake itself before a human or an admin steps in. */
module ChainFuse {
  import opened Basics

  const FAULTS_TO_FUSE := 3

  datatype Chain = Chain(fires: nat, lastFire: Option<real>, fails: nat, fused: bool)

  datatype Refusal = Off | FaultFused | LimitReached | Cooldown(retryAfter: real)
  datatype GateAnswer = Allowed(count: nat) | Denied(why: Refusal, count: nat)

  /** `row` is None for a lineage that never woke itself. */
  function Gate(row: Option<Chain>, off: bool, limit: nat, cooldown: real, now: real): GateAnswer {
    var chain := if row.Some? then row.value else Chain(0, None, 0, false);
    if off then Denied(Off, 0)
    else if chain.fused then Denied(FaultFused, chain.fires)
    else if chain.fires >= limit then Denied(LimitReached, chain.fires)
    else if chain.lastFire.Some? && now - chain.lastFire.value < cooldown
    then Denied(Cooldown(cooldown - (now - chain.lastFire.value)), chain.fires)
    else Allowed(chain.fires)
  }

  /** A wake that completed counts, and ends a streak of failures. */
  function Note(row: Option<Chain>, now: real): Chain {
    if row.Some? then row.value.(fires := row.value.fires + 1, lastFire := Some(now), fails := 0) else Chain(1, Some(now), 0, false)
  }

  /** The first transaction of a failure. */
  function CountFailure(row: Option<Chain>): Chain {
    if row.Some? then row.value.(fails := row.value.fails + 1) else Chain(0, None, 1, false)
  }

  function Fuse(row: Option<Chain>): Chain {
    if row.Some? then row.value.(fused := true) else Chain(0, None, 0, true)
  }

  /** The second transaction of a failure: it reads what the count is by then. */
  function FuseIfDue(row: Option<Chain>): Option<Chain> {
    if row.Some? && row.value.fails >= FAULTS_TO_FUSE then Some(Fuse(row)) else row
  }

  /** A reset applies only to the row it was decided on, and only an admin's opens a fused one. */
  predicate ResetApplies(row: Option<Chain>, fires: nat, lastFire: Option<real>, clearFuse: bool) {
    row.Some? && row.value.fires == fires && row.value.lastFire == lastFire && (clearFuse || !row.value.fused)
  }

  function Reset(row: Option<Chain>, fires: nat, lastFire: Option<real>, clearFuse: bool): Option<Chain> {
    if ResetApplies(row, fires, lastFire, clearFuse) then Some(row.value.(fires := 0, fails := 0, fused := false)) else row
  }

  class Chains {
    var rows: map<string, Chain>
    var resets: seq<(string, nat)>

    constructor ()
      ensures rows == map[] && resets == []
    {
      rows, resets := map[], [];
    }

    function Row(lineage: string): Option<Chain>
      reads this
    {
      if lineage in rows then Some(rows[lineage]) else None
    }

    method MayWake(lineage: string, off: bool, limit: nat, cooldown: real, now: real) returns (answer: GateAnswer)
      ensures answer == Gate(Row(lineage), off, limit, cooldown, now)
    {
      if off {
        return Denied(Off, 0);
      }
      var fires, last, fused := 0, None, false;
      if lineage in rows {
        fires, last, fused := rows[lineage].fires, rows[lineage].lastFire, rows[lineage].fused;
      }
      if fused {
        return Denied(FaultFused, fires);
      }
      if fires >= limit {
        return Denied(LimitReached, fires);
      }
      if last.Some? && now - last.value < cooldown {
        return Denied(Cooldown(cooldown - (now - last.value)), fires);
      }
      return Allowed(fires);
    }

    method NoteCompleted(lineage: string, now: real)
      modifies this`rows
      ensures rows == old(rows)[lineage := Note(old(Row(lineage)), now)]
    {
      var row := Chain(0, None, 0, false);
      if lineage in rows {
        row := rows[lineage];
      }
      rows := rows[lineage := row.(fires := row.fires + 1, lastFire := Some(now), fails := 0)];
    }

    method FuseNow(lineage: string)
      modifies this`rows
      ensures rows == old(rows)[lineage := Fuse(old(Row(lineage)))]
    {
      var row := Chain(0, None, 0, false);
      if lineage in rows {
        row := rows[lineage];
      }
      rows := rows[lineage := row.(fused := true)];
    }

    /** Both transactions of a failure, with nothing in between. */
    method NoteFailed(lineage: string) returns (fused: bool)
      modifies this`rows
      ensures Row(lineage) == FuseIfDue(Some(CountFailure(old(Row(lineage)))))
      ensures forall l | l != lineage :: Row(l) == old(Row(l))
      ensures fused <==> CountFailure(old(Row(lineage))).fails >= FAULTS_TO_FUSE
    {
      var row := Chain(0, None, 0, false);
      if lineage in rows {
        row := rows[lineage];
      }
      rows := rows[lineage := row.(fails := row.fails + 1)];
      fused := rows[lineage].fails >= FAULTS_TO_FUSE;
      if fused {
        FuseNow(lineage);
      }
    }

    /** The reset and its audit record commit together or not at all. */
    method TryReset(lineage: string, fires: nat, lastFire: Option<real>, clearFuse: bool) returns (done: bool)
      modifies this
      ensures done <==> ResetApplies(old(Row(lineage)), fires, lastFire, clearFuse)
      ensures Row(lineage) == Reset(old(Row(lineage)), fires, lastFire, clearFuse)
      ensures forall l | l != lineage :: Row(l) == old(Row(l))
      ensures resets == if done then old(resets) + [(lineage, fires)] else old(resets)
    {
      if lineage !in rows || rows[lineage].fires != fires || rows[lineage].lastFire != lastFire || (!clearFuse && rows[lineage].fused) {
        return false;
      }
      rows := rows[lineage := rows[lineage].(fires := 0, fails := 0, fused := false)];
      resets := resets + [(lineage, fires)];
      return true;
    }

    /** The admin's reset; `expected` guards against a chain that moved since the admin looked. */
    method Release(lineage: string, expected: Option<nat>) returns (done: bool)
      modifies this
      ensures done <==> old(Row(lineage)).Some? && (expected.None? || old(rows)[lineage].fires == expected.value)
      ensures done ==> Row(lineage) == Some(old(rows)[lineage].(fires := 0, fails := 0, fused := false))
      ensures !done ==> rows == old(rows) && resets == old(resets)
      ensures forall l | l != lineage :: Row(l) == old(Row(l))
    {
      if lineage !in rows || (expected.Some? && rows[lineage].fires != expected.value) {
        return false;
      }
      done := TryReset(lineage, rows[lineage].fires, rows[lineage].lastFire, true);
    }

    /** A proven human message after the last wake reopens a chain that is not fused. */
    method HumanCheckpoint(lineage: string, proven: bool) returns (done: bool)
      modifies this
      ensures done <==> proven && old(Row(lineage)).Some? && !old(rows)[lineage].fused && old(rows)[lineage].fires > 0
                        && old(rows)[lineage].lastFire.Some?
      ensures done ==> Row(lineage) == Some(old(rows)[lineage].(fires := 0, fails := 0))
      ensures !done ==> rows == old(rows)
      ensures forall l | l != lineage :: Row(l) == old(Row(l))
    {
      if lineage !in rows || rows[lineage].fused || rows[lineage].fires == 0 || rows[lineage].lastFire.None? || !proven {
        return false;
      }
      done := TryReset(lineage, rows[lineage].fires, rows[lineage].lastFire, false);
    }
  }

  /** Three failures in a row, none of them cut short by a crash, set the fuse; a completion in between starts over. */
  lemma ThirdFailureFuses(row: Option<Chain>, now: real)
    ensures var once := FuseIfDue(Some(CountFailure(Some(Note(row, now)))));
            var twice := FuseIfDue(Some(CountFailure(once)));
            var thrice := FuseIfDue(Some(CountFailure(twice)));
            once.Some? && twice.Some? && thrice.Some?
            && once.value.fused == twice.value.fused == (row.Some? && row.value.fused) && thrice.value.fused
  {
  }

  // ---------------------------------------------------------------- the table of a chain, spelled out

  /** When each refusal is given; a lineage that never woke itself is refused only when the feature is off, or the limit is none. */
  lemma GateAnswers(row: Option<Chain>, off: bool, limit: nat, cooldown: real, now: real)
    ensures var a := Gate(row, off, limit, cooldown, now);
            var fires := if row == None then 0 else row.value.fires;
            var fused := row != None && row.value.fused;
            var waits := row != None && row.value.lastFire != None && now - row.value.lastFire.value < cooldown;
            && (a == Denied(Off, 0) <==> off)
            && (a == Denied(FaultFused, fires) <==> !off && fused)
            && (a == Denied(LimitReached, fires) <==> !off && !fused && fires >= limit)
            && (a.Denied? && a.why.Cooldown? <==> !off && !fused && fires < limit && waits)
            && (a.Denied? && a.why.Cooldown? ==>
                  a == Denied(Cooldown(row.value.lastFire.value + cooldown - now), fires) && a.why.retryAfter > 0.0)
            && (a == Allowed(fires) <==> !off && !fused && fires < limit && !waits)
  {
  }

  /** What each transaction writes, for a lineage with a row and for one without. */
  lemma ChainWrites(fires: nat, lastFire: Option<real>, fails: nat, fused: bool, now: real)
    ensures Note(None, now) == Chain(1, Some(now), 0, false)
    ensures Note(Some(Chain(fires, lastFire, fails, fused)), now) == Chain(fires + 1, Some(now), 0, fused)
    ensures CountFailure(None) == Chain(0, None, 1, false)
    ensures CountFailure(Some(Chain(fires, lastFire, fails, fused))) == Chain(fires, lastFire, fails + 1, fused)
    ensures Fuse(None) == Chain(0, None, 0, true)
    ensures Fuse(Some(Chain(fires, lastFire, fails, fused))) == Chain(fires, lastFire, fails, true)
    ensures FuseIfDue(Some(Chain(fires, lastFire, fails, fused))) == Some(Chain(fires, lastFire, fails, fused || fails >= 3))
    ensures FuseIfDue(None) == None
  {
  }

  /** A reset applies to the row as it was seen, opens a fuse only for an admin, and keeps the time of the last wake. */
  lemma ResetWrites(chain: Chain, fires: nat, lastFire: Option<real>, clearFuse: bool)
    ensures Reset(None, fires, lastFire, clearFuse) == None
    ensures Reset(Some(chain), fires, lastFire, clearFuse)
            == Some(if chain.fires == fires && chain.lastFire == lastFire && (!chain.fused || clearFuse)
                    then Chain(0, chain.lastFire, 0, false) else chain)
  {
  }
}
