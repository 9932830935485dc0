/** The click-suppression filter of src/dsp/Antipop.hpp: a one-pole smoother
    whose blend coefficient ramps from 0 to 1 after a trigger, after which the
    filter passes its input through unchanged. */
module Antipop {
  import Common

  /** Growth of the blend coefficient per second of elapsed sample time. */
  const RampRate: real := 1500.0
  /** The blend coefficient a fresh filter starts with. */
  const InitialAlpha: real := 0.00001

  /** The smallest integer not below x. */
  function Ceil(x: real): (k: int)
    ensures x <= k as real < x + 1.0
  {
    -((-x).Floor)
  }

  /** Growth of the blend coefficient in one call. */
  function RampStep(sampleTime: real): real
  {
    sampleTime * RampRate
  }

  /** Blend coefficient after one call: frozen once it has reached 1,
      otherwise grown by sampleTime * RampRate. */
  function NextAlpha(alpha: real, sampleTime: real): (a: real)
    ensures sampleTime >= 0.0 ==> a >= alpha
    ensures alpha >= 1.0 ==> a == alpha
  {
    if alpha >= 1.0 then alpha else alpha + RampStep(sampleTime)
  }

  /** How far one call moves the filter state towards the input. */
  function Pull(alpha: real, gap: real): real
  {
    alpha * gap
  }

  /** Filter state (and output) after one call with input x. */
  function NextFilter(alpha: real, filter: real, x: real, sampleTime: real): real
  {
    if alpha >= 1.0 then x else filter + Pull(NextAlpha(alpha, sampleTime), x - filter)
  }

  /** Blend coefficient after n calls with a fixed sample time. */
  function AlphaAfter(alpha: real, sampleTime: real, n: nat): real
  {
    if n == 0 then alpha else NextAlpha(AlphaAfter(alpha, sampleTime, n - 1), sampleTime)
  }

  class AntipopFilter {
    var alpha: real
    var filter: real

    /** The source leaves the filter state uninitialised; its first value is
        whatever the caller passes here. */
    constructor (initialFilter: real)
      ensures alpha == InitialAlpha && filter == initialFilter
    {
      alpha := InitialAlpha;
      filter := initialFilter;
    }

    method Trigger()
      modifies this
      ensures alpha == 0.0 && filter == old(filter)
    {
      alpha := 0.0;
    }

    method Process(x: real, sampleTime: real) returns (out: real)
      modifies this
      ensures alpha == NextAlpha(old(alpha), sampleTime)
      ensures out == filter == NextFilter(old(alpha), old(filter), x, sampleTime)
      ensures old(alpha) >= 1.0 ==> out == x && alpha == old(alpha)
      ensures old(alpha) < 1.0 ==>
        alpha == old(alpha) + RampStep(sampleTime) && out == old(filter) + alpha * (x - old(filter))
    {
      if alpha >= 1.0 {
        filter := x;
        return x;
      }
      alpha := alpha + RampStep(sampleTime);
      filter := filter + alpha * (x - filter);
      out := filter;
    }
  }

  /** While the grown coefficient is in [0, 1] the new state lies between the
      old state and the input: no overshoot. */
  lemma NoOvershoot(alpha: real, filter: real, x: real, sampleTime: real)
    requires alpha < 1.0
    requires 0.0 <= NextAlpha(alpha, sampleTime) <= 1.0
    ensures var f := NextFilter(alpha, filter, x, sampleTime);
      (filter <= x ==> filter <= f <= x) && (x <= filter ==> x <= f <= filter)
  {
    PullWithinGap(NextAlpha(alpha, sampleTime), x - filter);
  }

  lemma PullWithinGap(a: real, gap: real)
    requires 0.0 <= a <= 1.0
    ensures gap >= 0.0 ==> 0.0 <= Pull(a, gap) <= gap
    ensures gap <= 0.0 ==> gap <= Pull(a, gap) <= 0.0
  {
    var rest := (1.0 - a) * gap;
    assert gap - Pull(a, gap) == rest;
    if gap >= 0.0 {
      assert rest >= 0.0 && Pull(a, gap) >= 0.0;
    } else {
      assert rest <= 0.0 && Pull(a, gap) <= 0.0;
    }
  }

  /** Above 1 the blend overshoots the input. */
  lemma OvershootAboveOne()
    ensures NextFilter(0.5, 0.0, 1.0, 1.0 / 1000.0) == 2.0
  {
  }

  /** At 44.1 kHz the ramp step, 1500 / 44100, does not divide 1: after 29
      calls from a trigger the coefficient is 43500 / 44100, still below 1, and
      call 30 blends with 45000 / 44100, pushing the state from 0 past an
      input of 1. */
  lemma OvershootAt44k()
    ensures AlphaAfter(0.0, 1.0 / 44100.0, 29) == 43500.0 / 44100.0 < 1.0
    ensures NextFilter(AlphaAfter(0.0, 1.0 / 44100.0, 29), 0.0, 1.0, 1.0 / 44100.0) > 1.0
  {
    RampFromTrigger(1.0 / 44100.0, 29);
  }

  /** When the ramp lands exactly on 1 after some k calls (k = 32 at 48 kHz,
      RampLandsAt48k), the coefficient never passes 1, so every call after a
      trigger leaves the state between its old value and the input. */
  lemma WholeRampNeverOvershoots(sampleTime: real, k: nat, n: nat, filter: real, x: real)
    requires sampleTime > 0.0 && AlphaAfter(0.0, sampleTime, k) == 1.0
    ensures var f := NextFilter(AlphaAfter(0.0, sampleTime, n), filter, x, sampleTime);
      (filter <= x ==> filter <= f <= x) && (x <= filter ==> x <= f <= filter)
  {
    var a := AlphaAfter(0.0, sampleTime, n);
    if a < 1.0 {
      if k <= n {
        AlphaNonDecreasing(0.0, sampleTime, k, n);
        assert false;
      }
      AlphaNonDecreasing(0.0, sampleTime, n + 1, k);
      AlphaNonDecreasing(0.0, sampleTime, 0, n);
      NoOvershoot(a, filter, x, sampleTime);
    }
  }

  /** At 48 kHz the step is 1 / 32: call 32 after a trigger lands on 1. */
  lemma RampLandsAt48k()
    ensures AlphaAfter(0.0, 1.0 / 48000.0, 32) == 1.0
  {
    RampFromTrigger(1.0 / 48000.0, 31);
  }

  /** Right after a trigger, with a ramp step below 1, the output still
      differs from an input that differs from the state. */
  lemma FirstOutputDiffers(filter: real, x: real, sampleTime: real)
    requires 0.0 < RampStep(sampleTime) < 1.0
    requires filter != x
    ensures NextFilter(0.0, filter, x, sampleTime) != x
  {
    PullFallsShort(NextAlpha(0.0, sampleTime), x - filter);
  }

  lemma PullFallsShort(a: real, gap: real)
    requires 0.0 < a < 1.0 && gap != 0.0
    ensures Pull(a, gap) != gap
  {
    if gap > 0.0 {
      Common.MulLess(a, 1.0, gap);
    } else {
      Common.MulLess(a, 1.0, -gap);
    }
  }

  /** The coefficient never decreases along the ramp. */
  lemma {:induction false} AlphaNonDecreasing(alpha: real, sampleTime: real, m: nat, n: nat)
    requires sampleTime >= 0.0 && m <= n
    ensures AlphaAfter(alpha, sampleTime, m) <= AlphaAfter(alpha, sampleTime, n)
  {
    if m < n {
      AlphaNonDecreasing(alpha, sampleTime, m, n - 1);
    }
  }

  /** Starting from a trigger, the coefficient after n calls is the sum of n
      ramp steps while that sum is below 1, and the filter passes its input
      through on call n + 1 exactly when n ramp steps reach 1. */
  lemma {:induction false} RampFromTrigger(sampleTime: real, n: nat)
    requires sampleTime > 0.0
    ensures AlphaAfter(0.0, sampleTime, n) < 1.0 ==> AlphaAfter(0.0, sampleTime, n) == (n as real) * RampStep(sampleTime)
    ensures AlphaAfter(0.0, sampleTime, n) >= 1.0 <==> (n as real) * RampStep(sampleTime) >= 1.0
  {
    if n > 0 {
      RampFromTrigger(sampleTime, n - 1);
      OneMoreStep(n - 1, RampStep(sampleTime));
    }
  }

  lemma OneMoreStep(m: nat, step: real)
    ensures (m as real) * step + step == ((m + 1) as real) * step
  {
  }

  /** n ramp steps reach 1 exactly when n is at least Ceil(1 / step). */
  lemma StepsReachOne(step: real, n: nat)
    requires step > 0.0
    ensures (n as real) * step >= 1.0 <==> n >= Ceil(1.0 / step)
  {
    CeilBounds(1.0 / step, n);
    Common.InverseCancels(step);
    ScaleByStep(step, 1.0 / step, n as real);
  }

  lemma CeilBounds(q: real, n: int)
    ensures n >= Ceil(q) <==> (n as real) >= q
  {
  }

  lemma ScaleByStep(step: real, q: real, x: real)
    requires step > 0.0 && q * step == 1.0
    ensures x * step >= 1.0 <==> x >= q
  {
    if x < q {
      Common.MulLess(x, q, step);
    } else if q < x {
      Common.MulLess(q, x, step);
    }
  }

  /** After a trigger, the filter passes its input through from call n + 1 on
      exactly when n >= Ceil(1 / (sampleTime * RampRate)): pass-through is
      reached after at most that many calls plus one, and not earlier. */
  lemma PassThroughAfterRamp(sampleTime: real, n: nat)
    requires sampleTime > 0.0
    ensures AlphaAfter(0.0, sampleTime, n) >= 1.0 <==> n >= Ceil(1.0 / RampStep(sampleTime))
  {
    RampFromTrigger(sampleTime, n);
    StepsReachOne(RampStep(sampleTime), n);
  }
}
