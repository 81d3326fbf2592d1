/** Playing 16 kHz frames through a ring buffer that starts late, drops what does not fit, and says when it ran dry. */
module VoicePlayback {
  import opened VoiceSamples

  // ---------------------------------------------------------------- what a frame writes

  function Level(i16: seq<int>, i: nat): real
    requires i < |i16|
  {
    i16[i] as real / 32768.0
  }

  /** The value at a position of a frame leans towards the sample before it; before the first stands the last of the previous frame. */
  function LevelAt(i16: seq<int>, last: real, p: real): real
    requires 0.0 <= p < |i16| as real
  {
    var i := p.Floor;
    var prev := if i == 0 then last else Level(i16, i - 1);
    if p == i as real then Level(i16, i) else prev + (Level(i16, i) - prev) * (p - i as real)
  }

  function Written(i16: seq<int>, last: real, step: real): (w: seq<real>)
    requires step > 0.0
    ensures |w| == Count(|i16|, step)
  {
    seq(Count(|i16|, step), k requires 0 <= k < Count(|i16|, step) =>
      CountIsExact(|i16|, step, k); NotNegative(k, step);
      LevelAt(i16, last, Position(k, step)))
  }

  lemma NotNegative(k: nat, step: real)
    requires step > 0.0
    ensures Position(k, step) >= 0.0
  {
  }

  // ---------------------------------------------------------------- the queue the ring stands for

  /** A full queue drops what arrives. */
  function Bounded(queue: seq<real>, more: seq<real>, capacity: nat): (q: seq<real>)
    requires |queue| <= capacity
    ensures |q| <= capacity && queue <= q
  {
    if |queue| + |more| <= capacity then queue + more else queue + more[..capacity - |queue|]
  }

  lemma BoundedOne(queue: seq<real>, more: seq<real>, s: real, capacity: nat)
    requires |queue| <= capacity
    ensures Bounded(Bounded(queue, more, capacity), [s], capacity) == Bounded(queue, more + [s], capacity)
  {
  }

  function Zeros(n: nat): seq<real> {
    seq(n, i => 0.0)
  }

  /** What a request of `n` samples plays, and what stays in the queue. */
  function Played(queue: seq<real>, n: nat): seq<real> {
    if n <= |queue| then queue[..n] else queue + Zeros(n - |queue|)
  }

  function Rest(queue: seq<real>, n: nat): seq<real> {
    if n <= |queue| then queue[n..] else []
  }

  /** The slot k places behind the head. */
  function Place(head: nat, k: nat, capacity: nat): nat {
    if head + k < capacity then head + k else head + k - capacity
  }

  function AtLeastOne(n: nat): nat {
    if n < 1 then 1 else n
  }

  lemma NextPlace(i: nat, capacity: nat)
    requires i < capacity
    ensures (i + 1) % capacity == if i + 1 == capacity then 0 else i + 1
  {
  }

  class VgPlayback {
    const capacity: nat
    const prebuffer: nat
    const step: real
    var buf: array<real>
    var head: nat
    var tail: nat
    var count: nat
    var started: bool
    var last: real
    var drained: nat

    ghost predicate Ring()
      reads this, buf
    {
      && buf.Length == capacity > 0 && head < capacity && count <= capacity
      && tail == Place(head, count, capacity)
    }

    /** Playing implies that there is something to play. */
    ghost predicate Valid()
      reads this, buf
    {
      Ring() && prebuffer > 0 && step > 0.0 && (started ==> count > 0)
    }

    ghost function Queue(): (q: seq<real>)
      reads this, buf
      requires Ring()
      ensures |q| == count
    {
      seq(count, k requires 0 <= k < count reads this, buf requires Ring() => buf[Place(head, k, capacity)])
    }

    constructor (sampleRate: nat)
      requires sampleRate > 0
      ensures Valid() && fresh(buf) && Queue() == [] && !started && last == 0.0 && drained == 0
      ensures capacity == 2 * sampleRate && step == sampleRate as real / 16000.0
      ensures prebuffer == if sampleRate * 6 / 100 == 0 then 1 else sampleRate * 6 / 100
    {
      capacity := AtLeastOne(2 * sampleRate);
      prebuffer := AtLeastOne(sampleRate * 6 / 100);
      step := sampleRate as real / TARGET_RATE as real;
      buf := new real[AtLeastOne(2 * sampleRate)];
      head, tail, count, started, last, drained := 0, 0, 0, false, 0.0, 0;
    }

    method Enqueue(s: real)
      requires Ring()
      modifies this`tail, this`count, buf
      ensures Ring() && Queue() == Bounded(old(Queue()), [s], capacity)
    {
      if count < capacity {
        ghost var was := Queue();
        NextPlace(tail, capacity);
        buf[tail] := s;
        tail := (tail + 1) % capacity;
        count := count + 1;
        assert Queue()[..count - 1] == was;
        assert Queue() == was + [s];
      }
    }

    method Dequeue() returns (s: real)
      requires Ring() && count > 0
      modifies this`head, this`count
      ensures Ring() && s == old(Queue())[0] && Queue() == old(Queue())[1..]
    {
      NextPlace(head, capacity);
      s := buf[head];
      head := (head + 1) % capacity;
      count := count - 1;
    }

    method Interpolate(i16: seq<int>, pos: real) returns (s: real)
      requires 0.0 <= pos < |i16| as real
      ensures s == LevelAt(i16, last, pos)
    {
      var i := pos.Floor;
      var f := pos - i as real;
      var cur := i16[if i < |i16| - 1 then i else |i16| - 1] as real / 32768.0;
      var prev := if i == 0 then last else i16[i - 1] as real / 32768.0;
      s := if f == 0.0 then cur else prev + (cur - prev) * f;
    }

    /** One frame is resampled behind what is queued; the newest samples are the ones dropped. */
    method Push(i16: seq<int>)
      requires Valid()
      modifies this`tail, this`count, this`last, buf
      ensures Valid() && Queue() == Bounded(old(Queue()), Written(i16, old(last), step), capacity)
      ensures last == if i16 == [] then old(last) else Level(i16, |i16| - 1)
    {
      var pos := 0.0;
      ghost var k := 0;
      ghost var all := Written(i16, last, step);
      while pos < |i16| as real
        invariant Valid() && last == old(last) && buf == old(buf)
        invariant pos == Position(k, step) >= 0.0 && k <= |all|
        invariant Queue() == Bounded(old(Queue()), all[..k], capacity)
        decreases |all| - k
      {
        CountIsExact(|i16|, step, k);
        NextPosition(k, step);
        var s := Interpolate(i16, pos);
        assert s == all[k];
        BoundedOne(old(Queue()), all[..k], s, capacity);
        assert all[..k + 1] == all[..k] + [s];
        Enqueue(s);
        pos := pos + step;
        k := k + 1;
      }
      CountIsExact(|i16|, step, k);
      assert all[..k] == all;
      if i16 != [] {
        last := i16[|i16| - 1] as real / 32768.0;
      }
    }

    /** A barge-in drops everything at once, silently. */
    method Flush()
      requires Valid()
      modifies this`head, this`tail, this`count, this`started, this`last
      ensures Valid() && Queue() == [] && !started && last == 0.0
    {
      head, tail, count := 0, 0, 0;
      started := false;
      last := 0.0;
    }

    /**
     Plays `n` samples. Nothing is played before the prebuffer is full. The drained message is posted
     exactly when the call empties a queue that had something in it.
     */
    method Process(n: nat) returns (out: seq<real>)
      requires Valid()
      modifies this`head, this`count, this`started, this`last, this`drained
      ensures Valid() && |out| == n
      ensures !old(started) && old(count) < prebuffer ==>
        out == Zeros(n) && Queue() == old(Queue()) && !started && last == old(last) && drained == old(drained)
      ensures old(started) || old(count) >= prebuffer ==>
        && out == Played(old(Queue()), n) && Queue() == Rest(old(Queue()), n)
        && started == (Queue() != []) && last == (if Queue() == [] then 0.0 else old(last))
        && drained == old(drained) + (if Queue() == [] then 1 else 0)
      ensures drained > old(drained) <==> old(Queue()) != [] && Queue() == []
    {
      if !started {
        if count < prebuffer {
          return Zeros(n);
        }
        started := true;
      }
      ghost var queue := Queue();
      out := [];
      while |out| < n
        invariant |out| <= n && Ring() && out == Played(queue, |out|) && Queue() == Rest(queue, |out|)
        invariant started && last == old(last) && drained == old(drained)
      {
        var s := 0.0;
        if count > 0 {
          s := Dequeue();
        }
        out := out + [s];
      }
      if count == 0 {
        started := false;
        last := 0.0;
        drained := drained + 1;
      }
    }
  }

  // ---------------------------------------------------------------- how long a frame plays

  /**
   A frame of n samples lasts n / 16000 seconds and what is written for it lasts Count / sampleRate. The
   two agree only on a device that itself runs at 16 kHz: the step through the frame is the rate's own
   ratio, so a faster device gets fewer samples where it needs more.
   */
  lemma DurationKept(sampleRate: nat, i16: seq<int>, last: real)
    requires sampleRate > 0 && i16 != []
    ensures var step := sampleRate as real / 16000.0;
            step > 0.0 && (|Written(i16, last, step)| * 16000 == |i16| * sampleRate <==> sampleRate == 16000)
  {
    var step, n := sampleRate as real / TARGET_RATE as real, |i16|;
    var w := Count(n, step);
    if sampleRate > TARGET_RATE {
      FewerThan(n, step);
      assert w * TARGET_RATE <= n * TARGET_RATE < n * sampleRate;
    } else if sampleRate < TARGET_RATE {
      MoreThan(n, step);
      assert w * TARGET_RATE >= n * TARGET_RATE > n * sampleRate;
    } else {
      assert step == 1.0;
      FewerThan(n, step);
      MoreThan(n, step);
    }
  }

  lemma FewerThan(n: nat, step: real)
    requires step >= 1.0
    ensures Count(n, step) <= n
  {
    assert Position(n, step) >= n as real;
    CountIsExact(n, step, n);
  }

  lemma MoreThan(n: nat, step: real)
    requires 0.0 < step <= 1.0
    ensures Count(n, step) >= n
  {
    if n > 0 {
      assert Position(n - 1, step) <= (n - 1) as real;
      CountIsExact(n, step, n - 1);
    }
  }

  /** At 48 kHz a 20 ms frame becomes 107 samples, a little over 2 ms. */
  lemma FrameAt48k(i16: seq<int>, last: real)
    requires |i16| == 320
    ensures |Written(i16, last, 48000.0 / 16000.0)| == 107
  {
    CountUnique(FRAME_SAMPLES, 3.0, 107);
  }
}
