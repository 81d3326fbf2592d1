/** Every sample of the two worklets, spelled out. */
module VoiceAnswers {
  import opened VoiceSamples
  import opened VoiceCapture
  import opened VoicePlayback

  /** An output is the input at its position; between two samples of one block, the point on the line from one to the next. */
  lemma MadeIs(c: VgCapture, k: nat, i: nat)
    requires c.Valid() && k < |c.made| && i as real <= k as real * c.ratio < i as real + 1.0
    ensures i < |c.input|
    ensures var f := k as real * c.ratio - i as real;
            && (i + 1 in c.ends || f == 0.0 ==> c.made[k] == c.input[i])
            && (i + 1 !in c.ends ==> i + 1 < |c.input| && c.made[k] == c.input[i] + f * (c.input[i + 1] - c.input[i]))
  {
    assert SampledAt(c.made, c.input, c.ends, c.ratio, k);
    assert (k as real * c.ratio).Floor == i;
  }

  /** On a sample, its level; between two, the point on the line between the one before and the one at the whole position. */
  lemma WrittenIs(i16: seq<int>, last: real, step: real, k: nat, i: nat)
    requires step > 0.0 && i < |i16| && i as real <= k as real * step < i as real + 1.0
    ensures k < |Written(i16, last, step)|
    ensures var before := if i == 0 then last else i16[i - 1] as real / 32768.0;
            var at := i16[i] as real / 32768.0;
            var f := k as real * step - i as real;
            Written(i16, last, step)[k] == if f == 0.0 then at else before + f * (at - before)
  {
    CountIsExact(|i16|, step, k);
    assert (k as real * step).Floor == i;
  }

  /** A queue takes what arrives in its order, as much of it as there is room for. */
  lemma BoundedIs(queue: seq<real>, more: seq<real>, capacity: nat, k: nat)
    requires |queue| <= capacity
    ensures |Bounded(queue, more, capacity)| == if |queue| + |more| <= capacity then |queue| + |more| else capacity
    ensures k < |queue| ==> Bounded(queue, more, capacity)[k] == queue[k]
    ensures |queue| <= k < |Bounded(queue, more, capacity)| ==> Bounded(queue, more, capacity)[k] == more[k - |queue|]
  {
  }

  /** A request plays the oldest samples, then silence; what it did not play stays in its order. */
  lemma PlayedIs(queue: seq<real>, n: nat, k: nat)
    ensures |Played(queue, n)| == n && |Rest(queue, n)| == (if n <= |queue| then |queue| - n else 0)
    ensures k < n ==> Played(queue, n)[k] == if k < |queue| then queue[k] else 0.0
    ensures k < |Rest(queue, n)| ==> Rest(queue, n)[k] == queue[n + k]
  {
  }
}
