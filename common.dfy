/** Small numeric helpers shared by the sampler, the clip buffer and the
    sequencer: the host library's clamp and crossfade, and C++'s float-to-int
    conversion. Floats are modelled as reals; no rounding is modelled. */
module Common {

  datatype Option<T> = None | Some(value: T)

  /** What the WAV decoder hands back: nothing (the file could not be read),
      or the channel count, the sample rate and the interleaved samples. */
  datatype DecodeResult = DecodeFailed | Decoded(channels: nat, rate: nat, data: seq<real>)

  function Min(a: real, b: real): real { if a <= b then a else b }
  function Max(a: real, b: real): real { if a >= b then a else b }

  /** The host library's clamp: fmax(fmin(x, hi), lo). When lo > hi the lower
      bound wins. */
  function Clamp(x: real, lo: real, hi: real): (r: real)
    ensures lo <= hi ==> lo <= r <= hi
    ensures lo <= x <= hi ==> r == x
    ensures lo > hi ==> r == lo
  {
    Max(Min(x, hi), lo)
  }

  /** C++ conversion of a float to int: truncation toward zero. */
  function Trunc(x: real): (r: int)
    ensures x >= 0.0 ==> r as real <= x < r as real + 1.0
    ensures x <= 0.0 ==> r as real - 1.0 < x <= r as real
  {
    if x >= 0.0 then x.Floor else -((-x).Floor)
  }

  /** The host library's crossfade: a + (b - a) * p. */
  function Crossfade(a: real, b: real, p: real): (r: real)
    ensures p == 0.0 ==> r == a
    ensures p == 1.0 ==> r == b
    ensures 0.0 <= p <= 1.0 ==> Min(a, b) <= r <= Max(a, b)
  {
    var d := b - a;
    ScaledBetween(d, p);
    a + d * p
  }

  /** A difference scaled by a weight in [0, 1] stays between 0 and itself. */
  lemma ScaledBetween(d: real, p: real)
    ensures p == 0.0 ==> d * p == 0.0
    ensures p == 1.0 ==> d * p == d
    ensures 0.0 <= p <= 1.0 && d >= 0.0 ==> 0.0 <= d * p <= d
    ensures 0.0 <= p <= 1.0 && d <= 0.0 ==> d <= d * p <= 0.0
  {
    if 0.0 <= p <= 1.0 {
      if d >= 0.0 {
        assert d * p <= d * 1.0;
      } else {
        assert d * p >= d * 1.0;
      }
    }
  }

  /** Multiplying by a positive factor keeps a strict order. */
  lemma MulLess(a: real, b: real, c: real)
    requires a < b && c > 0.0
    ensures a * c < b * c
  {
    assert b * c - a * c == (b - a) * c;
  }

  /** Dividing one by a positive number and multiplying back gives one. */
  lemma InverseCancels(d: real)
    requires d > 0.0
    ensures (1.0 / d) * d == 1.0
  {
  }
}
