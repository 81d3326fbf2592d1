/** Sample positions: how many steps of a given size fit before a position, and 16-bit samples. Floats are taken as reals. */
module VoiceSamples {
  const TARGET_RATE := 16000
  const FRAME_SAMPLES := 320

  /** The position of step k. */
  function Position(k: nat, step: real): real {
    k as real * step
  }

  lemma NextPosition(k: nat, step: real)
    ensures Position(k + 1, step) == Position(k, step) + step
  {
  }

  /** How many of the positions 0, step, 2 * step, ... lie before `n`. */
  function Count(n: nat, step: real): (k: nat)
    requires step > 0.0
  {
    CeilNotNegative(n, step);
    -((-(n as real / step)).Floor)
  }

  lemma CeilNotNegative(n: nat, step: real)
    requires step > 0.0
    ensures -((-(n as real / step)).Floor) >= 0
  {
    assert n as real / step >= 0.0;
  }

  lemma DivLess(k: real, n: real, step: real)
    requires step > 0.0
    ensures k < n / step <==> k * step < n
  {
    assert (n / step) * step == n;
    if k < n / step {
      assert k * step < (n / step) * step;
    } else {
      assert k * step >= (n / step) * step;
    }
  }

  /** `Count` is exact: a position lies before `n` exactly when its index is below the count. */
  lemma CountIsExact(n: nat, step: real, k: nat)
    requires step > 0.0
    ensures k < Count(n, step) <==> Position(k, step) < n as real
  {
    DivLess(k as real, n as real, step);
  }

  lemma CountUnique(n: nat, step: real, k: nat)
    requires step > 0.0 && Position(k, step) >= n as real && (k > 0 ==> Position(k - 1, step) < n as real)
    ensures k == Count(n, step)
  {
    CountIsExact(n, step, k);
    if k > 0 {
      CountIsExact(n, step, k - 1);
    }
  }

  function Clamp(x: real, low: real, high: real): real {
    if x < low then low else if x > high then high else x
  }

  /** Halves round up, as the platform's rounding does. */
  function Round(x: real): int {
    (x + 0.5).Floor
  }

  function Quantize(x: real): int {
    var q := Round(Clamp(x, -1.0, 1.0) * 32767.0);
    if q < -32767 then -32767 else if q > 32767 then 32767 else q
  }

  /** A sample is the nearest 16-bit level of its clamped value, and never the one level that has no opposite. */
  lemma QuantizeIsNearest(x: real)
    ensures -32767 <= Quantize(x) <= 32767
    ensures var y := Clamp(x, -1.0, 1.0) * 32767.0; -0.5 <= Quantize(x) as real - y <= 0.5
    ensures x >= 1.0 ==> Quantize(x) == 32767
    ensures x <= -1.0 ==> Quantize(x) == -32767
  {
  }

  lemma QuantizeIsMonotone(x: real, y: real)
    requires x <= y
    ensures Quantize(x) <= Quantize(y)
  {
    assert Clamp(x, -1.0, 1.0) * 32767.0 <= Clamp(y, -1.0, 1.0) * 32767.0;
  }

  /** Within the range a sample is the level next to it, a half rounding up; beyond it, the outermost level. */
  lemma QuantizeIs(x: real)
    ensures x < -1.0 ==> Quantize(x) == -32767
    ensures x > 1.0 ==> Quantize(x) == 32767
    ensures -1.0 <= x <= 1.0 ==> x * 32767.0 - 0.5 < Quantize(x) as real <= x * 32767.0 + 0.5
  {
  }
}
