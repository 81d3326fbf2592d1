/** Small vocabulary shared by the models: optional values, facts about finite sets, induction. */
module Basics {

  datatype Option<+T> = None | Some(value: T)

  /** COALESCE of the SQL statements the ledgers run: the first value that is present. */
  function Coalesce<T>(first: Option<T>, second: Option<T>): Option<T> {
    if first.Some? then first else second
  }

  lemma SubsetSize<T>(small: set<T>, big: set<T>)
    requires small <= big
    ensures |small| <= |big|
  {
    assert big == small + (big - small);
  }

  lemma SubsetPlusOneSize<T>(grown: set<T>, base: set<T>, extra: T)
    requires grown <= base + {extra}
    ensures |grown| <= |base| + 1
  {
    SubsetSize(grown, base + {extra});
  }

  /** Present and not empty. */
  predicate Truthy(x: Option<string>) {
    x.Some? && x.value != ""
  }

  predicate EndsWith<T(==)>(s: seq<T>, tail: seq<T>) {
    |tail| <= |s| && s[|s| - |tail|..] == tail
  }

  /** What holds at 0 and climbs, holds at n. */
  lemma {:induction false} Climb(P: nat -> bool, n: nat)
    requires P(0) && forall m: nat | m < n && P(m) :: P(m + 1)
    ensures P(n)
  {
    if n > 0 {
      Climb(P, n - 1);
      assert P(n - 1);
    }
  }

  /** `ys` are exactly the elements of `xs` that satisfy P, in their order; `at` says where they stand. */
  ghost predicate Picks<T>(xs: seq<T>, P: T -> bool, ys: seq<T>, at: seq<nat>) {
    && |at| == |ys| && (forall j, k | 0 <= j < k < |at| :: at[j] < at[k])
    && (forall k | 0 <= k < |at| :: at[k] < |xs| && ys[k] == xs[at[k]])
    && (forall i: nat | i < |xs| :: i in at <==> P(xs[i]))
  }

  lemma PicksOneMore<T>(xs: seq<T>, last: T, P: T -> bool, ys: seq<T>, at: seq<nat>)
    requires Picks(xs, P, ys, at)
    ensures P(last) ==> Picks(xs + [last], P, ys + [last], at + [|xs|])
    ensures !P(last) ==> Picks(xs + [last], P, ys, at)
  {
    assert forall i: nat | i < |xs| :: (xs + [last])[i] == xs[i];
    assert forall i: nat :: i in at + [|xs|] <==> i in at || i == |xs|;
  }
}
