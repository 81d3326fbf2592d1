/** Resampling a microphone to 16 kHz frames, whatever blocks the browser cuts the stream into. */
module VoiceCapture {
  import opened VoiceSamples

  /** Linear interpolation at a position; the last sample of a block has no neighbour to lean towards. */
  function SampleAt(input: seq<real>, ends: set<nat>, p: real): real
    requires 0.0 <= p < |input| as real && |input| in ends
  {
    var i := p.Floor;
    var a := input[i];
    if i + 1 in ends then a else a + (input[i + 1] - a) * (p - i as real)
  }

  /** The block ends among the first samples are what they were when more samples follow. */
  lemma SampleStays(input: seq<real>, ends: set<nat>, block: seq<real>, p: real)
    requires 0.0 <= p < |input| as real && |input| in ends && block != [] && forall e | e in ends :: e <= |input|
    ensures SampleAt(input + block, ends + {|input + block|}, p) == SampleAt(input, ends, p)
  {
  }

  class VgCapture {
    const ratio: real
    var phase: real
    var acc: array<real>
    var filled: nat
    var posted: seq<seq<int>>
    ghost var input: seq<real>
    ghost var ends: set<nat>
    ghost var made: seq<real>

    /** Output k of the stream so far is the input's sample at position k * ratio; frames hold them in order. */
    ghost predicate Valid()
      reads this, acc
    {
      && ratio > 0.0 && acc.Length == FRAME_SAMPLES && filled < FRAME_SAMPLES
      && phase == Position(|made|, ratio) - |input| as real && 0.0 <= phase < ratio
      && (|input| > 0 ==> |input| in ends) && (forall e | e in ends :: 0 < e <= |input|)
      && Sampled(made, input, ends, ratio)
      && Framed(posted, made) && |made| == FRAME_SAMPLES * |posted| + filled
      && acc[..filled] == made[FRAME_SAMPLES * |posted|..]
    }

    constructor (sampleRate: nat)
      requires sampleRate > 0
      ensures Valid() && fresh(acc) && ratio == sampleRate as real / 16000.0
      ensures input == [] && ends == {} && made == [] && posted == []
    {
      ratio := sampleRate as real / TARGET_RATE as real;
      phase, filled, posted := 0.0, 0, [];
      acc := new real[FRAME_SAMPLES];
      input, ends, made := [], {}, [];
    }

    /** Takes one output; a full frame is quantized and posted. */
    method Emit(s: real)
      requires FramesValid()
      modifies this`filled, this`posted, this`made, acc
      ensures FramesValid() && made == old(made) + [s] && old(posted) <= posted
    {
      acc[filled] := s;
      filled := filled + 1;
      made := made + [s];
      assert acc[..filled] == made[FRAME_SAMPLES * |posted|..];
      if filled == FRAME_SAMPLES {
        var frame: seq<int> := [];
        for k := 0 to FRAME_SAMPLES
          invariant |frame| == k && forall j | 0 <= j < k :: frame[j] == Quantize(acc[j])
        {
          frame := frame + [Quantize(acc[k])];
        }
        FramesGrow(posted, made, frame);
        posted := posted + [frame];
        filled := 0;
      }
    }

    /** The output at a position of the block. */
    method TakeAt(block: seq<real>, pos: real, ghost before: seq<real>, ghost marks: set<nat>)
      requires FramesValid() && 0.0 <= pos < |block| as real && pos == Position(|made|, ratio) - |before| as real
      requires input == before + block && ends == marks + {|input|} && forall e | e in marks :: e <= |before|
      requires Sampled(made, input, ends, ratio)
      modifies this`filled, this`posted, this`made, acc
      ensures FramesValid() && |made| == |old(made)| + 1 && old(made) <= made && old(posted) <= posted
      ensures Sampled(made, input, ends, ratio)
    {
      var n := |block|;
      var i := pos.Floor;
      var f := pos - i as real;
      var a := block[i];
      var b := if i + 1 < n then block[i + 1] else a;
      InBlock(before, marks, block, pos);
      SampledMore(made, input, ends, ratio, a + (b - a) * f);
      Emit(a + (b - a) * f);
    }

    ghost predicate FramesValid()
      reads this, acc
    {
      && acc.Length == FRAME_SAMPLES && filled < FRAME_SAMPLES
      && Framed(posted, made) && |made| == FRAME_SAMPLES * |posted| + filled
      && acc[..filled] == made[FRAME_SAMPLES * |posted|..]
    }

    /** One block; an empty one, or none at all, changes nothing. */
    method Process(block: seq<real>)
      requires Valid()
      modifies this`phase, this`filled, this`posted, this`made, this`input, this`ends, acc
      ensures Valid() && acc == old(acc) && input == old(input) + block
      ensures ends == if block == [] then old(ends) else old(ends) + {|input|}
      ensures old(made) <= made && old(posted) <= posted
    {
      if block == [] {
        return;
      }
      ghost var before, marks := input, ends;
      input := input + block;
      ends := ends + {|input|};
      KeepSamples(made, before, marks, block, ratio);
      var pos := phase;
      var n := |block|;
      while pos < n as real
        invariant input == before + block && ends == marks + {|input|}
        invariant FramesValid() && acc == old(acc) && old(made) <= made && old(posted) <= posted
        invariant pos == Position(|made|, ratio) - |before| as real && 0.0 <= pos < n as real + ratio
        invariant Sampled(made, input, ends, ratio)
        decreases Count(|input|, ratio) - |made|
      {
        CountIsExact(|input|, ratio, |made|);
        NextPosition(|made|, ratio);
        TakeAt(block, pos, before, marks);
        pos := pos + ratio;
      }
      phase := pos - n as real;
    }
  }

  predicate SampledAt(made: seq<real>, input: seq<real>, ends: set<nat>, ratio: real, k: nat)
    requires k < |made|
  {
    0.0 <= Position(k, ratio) < |input| as real && |input| in ends && made[k] == SampleAt(input, ends, Position(k, ratio))
  }

  ghost predicate Sampled(made: seq<real>, input: seq<real>, ends: set<nat>, ratio: real) {
    forall k | 0 <= k < |made| :: SampledAt(made, input, ends, ratio, k)
  }

  lemma SampledMore(made: seq<real>, input: seq<real>, ends: set<nat>, ratio: real, s: real)
    requires Sampled(made, input, ends, ratio) && |input| in ends && 0.0 <= Position(|made|, ratio) < |input| as real
    requires s == SampleAt(input, ends, Position(|made|, ratio))
    ensures Sampled(made + [s], input, ends, ratio)
  {
    forall k | 0 <= k < |made + [s]|
      ensures SampledAt(made + [s], input, ends, ratio, k)
    {
      if k < |made| {
        assert SampledAt(made, input, ends, ratio, k);
      }
    }
  }

  /** The frames hold the quantized outputs in order, 320 to a frame. */
  ghost predicate Framed(posted: seq<seq<int>>, made: seq<real>) {
    FRAME_SAMPLES * |posted| <= |made|
    && forall j | 0 <= j < |posted| :: |posted[j]| == FRAME_SAMPLES
         && forall k | 0 <= k < FRAME_SAMPLES :: posted[j][k] == Quantize(made[FRAME_SAMPLES * j + k])
  }

  lemma FramesGrow(posted: seq<seq<int>>, made: seq<real>, frame: seq<int>)
    requires Framed(posted, made) && |made| == FRAME_SAMPLES * |posted| + FRAME_SAMPLES && |frame| == FRAME_SAMPLES
    requires forall k | 0 <= k < FRAME_SAMPLES :: frame[k] == Quantize(made[FRAME_SAMPLES * |posted| + k])
    ensures Framed(posted + [frame], made)
  {
  }

  lemma KeepSamples(made: seq<real>, input: seq<real>, ends: set<nat>, block: seq<real>, ratio: real)
    requires Sampled(made, input, ends, ratio) && block != [] && forall e | e in ends :: e <= |input|
    ensures Sampled(made, input + block, ends + {|input + block|}, ratio)
  {
    forall k | 0 <= k < |made|
      ensures SampledAt(made, input + block, ends + {|input + block|}, ratio, k)
    {
      assert SampledAt(made, input, ends, ratio, k);
      SampleStays(input, ends, block, Position(k, ratio));
    }
  }

  /** What a block computes at its own position is the stream's sample at the absolute one. */
  lemma InBlock(input: seq<real>, ends: set<nat>, block: seq<real>, pos: real)
    requires 0.0 <= pos < |block| as real && forall e | e in ends :: e <= |input|
    ensures var all, marks := input + block, ends + {|input + block|};
            var i, p := pos.Floor, |input| as real + pos;
            var b := if i + 1 < |block| then block[i + 1] else block[i];
            0.0 <= p < |all| as real && SampleAt(all, marks, p) == block[i] + (b - block[i]) * (pos - i as real)
  {
    var p := |input| as real + pos;
    assert p.Floor == |input| + pos.Floor;
  }

  // ---------------------------------------------------------------- what does not depend on the blocks

  /** The number of outputs depends on the number of samples alone: the positions k * ratio before the end of the stream. */
  lemma OutputsByLength(c: VgCapture)
    requires c.Valid()
    ensures |c.made| == Count(|c.input|, c.ratio)
  {
    var k := |c.made|;
    if k > 0 {
      NextPosition(k - 1, c.ratio);
    }
    CountUnique(|c.input|, c.ratio, k);
  }

  /** Two cuttings of one stream give the same number of outputs, and the same output wherever both or neither cut at its sample. */
  lemma SameStreamSameOutputs(c: VgCapture, d: VgCapture, k: nat)
    requires c.Valid() && d.Valid() && c.ratio == d.ratio && c.input == d.input && k < |c.made|
    requires var p := Position(k, c.ratio); p == p.Floor as real || (p.Floor + 1 in c.ends <==> p.Floor + 1 in d.ends)
    ensures |c.made| == |d.made| && c.made[k] == d.made[k]
  {
    OutputsByLength(c);
    OutputsByLength(d);
    assert SampledAt(c.made, c.input, c.ends, c.ratio, k) && SampledAt(d.made, d.input, d.ends, d.ratio, k);
  }

  lemma WholePosition(k: nat, m: nat)
    ensures Position(k, m as real) == (k * m) as real
  {
  }

  /** At a device rate that is a multiple of 16 kHz the blocks do not matter at all: every third sample, say, and nothing else. */
  lemma WholeRatioIgnoresBlocks(c: VgCapture, m: nat)
    requires c.Valid() && m > 0
    ensures c.ratio == m as real ==> forall k | 0 <= k < |c.made| :: k * m < |c.input| && c.made[k] == c.input[k * m]
  {
    forall k | 0 <= k < |c.made| && c.ratio == m as real
      ensures k * m < |c.input| && c.made[k] == c.input[k * m]
    {
      assert SampledAt(c.made, c.input, c.ends, c.ratio, k);
      WholePosition(k, m);
    }
  }

  /** Every posted frame has 320 samples, each within the 16-bit range without its lowest level. */
  lemma FramesInRange(c: VgCapture, j: nat, k: nat)
    requires c.Valid() && j < |c.posted| && k < 320
    ensures |c.posted[j]| == 320 && -32767 <= c.posted[j][k] <= 32767
    ensures |c.posted| == |c.made| / 320
    ensures 320 * j + k < |c.made| && c.posted[j][k] == Quantize(c.made[320 * j + k])
  {
    QuantizeIsNearest(c.made[FRAME_SAMPLES * j + k]);
  }
}
