/** The clip buffer of src/AudioClip.hpp: a growable mono sample vector with a
    sample counter, fed either by streaming record calls or by decoding a
    file, plus a 64-slot waveform summary. */
module AudioClips {
  import opened Common
  import opened Interpolation

  /** Number of slots in the waveform summary. */
  const WaveformResolution: nat := 64
  /** Recording stops at this many samples: ten seconds at 44.1 kHz,
      whatever rate the recording was started with. */
  const MaxRecordSamples: nat := 44100 * 10
  /** The counter is a 32-bit unsigned integer. */
  const UintRange: nat := 0x1_0000_0000
  const IntRange: nat := 0x8000_0000

  /** One waveform slot: a mean, or the float NaN that 0 / 0 yields when the
      clip is shorter than one slice per slot. */
  datatype Level = Value(v: real) | NotANumber

  function Abs(x: real): (r: real)
    ensures r >= 0.0 && (r == x || r == -x)
  {
    if x < 0.0 then -x else x
  }

  /** Sum of the absolute values of the n samples starting at from. */
  function SumAbs(s: seq<real>, from: nat, n: nat): real
    requires from + n <= |s|
  {
    if n == 0 then 0.0 else SumAbs(s, from, n - 1) + Abs(s[from + n - 1])
  }

  /** Slot k of the summary when every slice holds per samples. */
  function Slot(s: seq<real>, per: nat, k: nat): Level
    requires k < WaveformResolution && WaveformResolution * per <= |s|
  {
    SliceFits(per, k);
    if per == 0 then NotANumber else Value(SumAbs(s, k * per, per) / per as real)
  }

  /** The waveform summary of the first count samples. */
  function Preview(s: seq<real>, count: nat): (w: seq<Level>)
    requires count <= |s|
    ensures |w| == WaveformResolution
  {
    var per := count / WaveformResolution;
    seq(WaveformResolution, k requires 0 <= k < WaveformResolution => Slot(s, per, k))
  }

  lemma SliceFits(per: nat, k: nat)
    requires k < WaveformResolution
    ensures k * per + per <= WaveformResolution * per
  {
    assert k * per + per == (k + 1) * per;
  }

  /** Keeping element i * channels of interleaved data: the first channel of
      every frame, in order. */
  function FirstChannel(data: seq<real>, channels: nat): (r: seq<real>)
    requires channels > 0
  {
    seq((|data| + channels - 1) / channels, k requires 0 <= k < (|data| + channels - 1) / channels =>
      FrameStart(|data|, channels, k); data[k * channels])
  }

  lemma FrameStart(len: nat, channels: nat, k: nat)
    requires channels > 0 && k < (len + channels - 1) / channels
    ensures k * channels < len
  {
    var frames := (len + channels - 1) / channels;
    assert frames * channels <= len + channels - 1;
    assert (k + 1) * channels <= frames * channels;
    assert k * channels + channels == (k + 1) * channels;
  }

  /** A loop that steps by channels from 0 stops after the ceiling of
      len / channels steps. */
  lemma FrameCount(len: nat, channels: nat, steps: nat)
    requires channels > 0
    requires steps * channels >= len
    requires steps == 0 || (steps - 1) * channels < len
    ensures steps == (len + channels - 1) / channels
  {
    if steps > 0 {
      assert (steps - 1) * channels == steps * channels - channels;
    }
    DivUnique(len + channels - 1, channels, steps);
  }

  /** The quotient is the only q with q * d <= n < q * d + d. */
  lemma DivUnique(n: int, d: int, q: int)
    requires d > 0 && q * d <= n < q * d + d
    ensures n / d == q
  {
    var r := n / d;
    assert r * d + n % d == n;
    if r > q {
      assert (q + 1) * d == q * d + d;
      MulMonotone(q + 1, r, d);
    } else if r < q {
      MulMonotone(r + 1, q, d);
    }
  }

  lemma MulMonotone(a: int, b: int, c: int)
    requires a <= b && c > 0
    ensures a * c <= b * c
  {
    assert b * c - a * c == (b - a) * c;
  }

  /** The counter after one more sample, as 32-bit unsigned arithmetic. */
  function Increment(count: nat): nat
  {
    (count + 1) % UintRange
  }

  /** The C++ int that a 32-bit unsigned value converts to. */
  function AsSigned(u: nat): int
    requires u < UintRange
  {
    if u < IntRange then u else u - UintRange
  }

  /** The 32-bit unsigned value a C++ int converts to. */
  function AsUnsigned(x: int): (u: nat)
    requires -(IntRange as int) <= x < IntRange
    ensures u < UintRange && AsSigned(u) == x
  {
    if x >= 0 then x else x + UintRange
  }

  /** Everything a clip holds: its samples, the counter, the channel count
      and rate, and the waveform summary. */
  datatype Contents = Contents(samples: seq<real>, count: nat, channels: nat, rate: nat, summary: seq<Level>)

  /** A new clip: no samples, everything zero. */
  function Blank(): Contents
  {
    Contents([], 0, 0, 0, seq(WaveformResolution, _ => Value(0.0)))
  }

  /** A record session starts from an empty buffer at the given rate. */
  function AfterStartRec(c: Contents, rate: nat): Contents
  {
    c.(samples := [], count := 0, rate := rate)
  }

  /** A record session ends with two zeros behind the last sample and a
      fresh summary; the counter stays. */
  function AfterStopRec(c: Contents): (r: Contents)
    requires c.count <= |c.samples|
    ensures r.count <= |r.samples|
  {
    var padded := c.samples + [0.0, 0.0];
    c.(samples := padded, summary := Preview(padded, c.count))
  }

  /** One recorded sample: appended clamped and counted in 32 bits; the call
      that brings the counter to the cap ends the session. */
  function AfterRec(c: Contents, sample: real): (r: Contents)
    requires c.count <= |c.samples|
    ensures r.count <= |r.samples|
  {
    var grown := c.(samples := c.samples + [Clamp(sample, -1.0, 1.0)], count := Increment(c.count));
    if grown.count < MaxRecordSamples then grown else AfterStopRec(grown)
  }

  /** Records each input in turn. */
  function RecordAll(c: Contents, inputs: seq<real>): (r: Contents)
    requires c.count <= |c.samples|
    ensures r.count <= |r.samples|
  {
    if |inputs| == 0 then c else AfterRec(RecordAll(c, inputs[..|inputs| - 1]), inputs[|inputs| - 1])
  }

  /** A record session holds exactly the clamped inputs, in order, and
      counts them, keeping the channel count and the rate it started with.
      Below the cap the summary is not touched; the input that reaches the
      cap adds the two zeros of padding and summarises the recording. */
  lemma {:induction false} SessionHoldsInputs(c: Contents, rate: nat, inputs: seq<real>)
    requires |inputs| <= MaxRecordSamples
    ensures var r := RecordAll(AfterStartRec(c, rate), inputs);
      r.count == |inputs| && r.rate == rate && r.channels == c.channels
      && (forall k :: 0 <= k < |inputs| ==> r.samples[k] == Clamp(inputs[k], -1.0, 1.0))
      && (|inputs| < MaxRecordSamples ==> |r.samples| == |inputs| && r.summary == c.summary)
      && (|inputs| == MaxRecordSamples ==>
            r.samples[|inputs|..] == [0.0, 0.0] && r.summary == Preview(r.samples, r.count))
  {
    if |inputs| > 0 {
      var init := inputs[..|inputs| - 1];
      SessionHoldsInputs(c, rate, init);
      var before := RecordAll(AfterStartRec(c, rate), init);
      assert forall k :: 0 <= k < |init| ==> init[k] == inputs[k];
      assert Increment(before.count) == |inputs|;
    }
  }

  /** Loading decoded content: nothing changes when decoding failed;
      otherwise the first channel of every frame, its count in 32 bits, the
      file's channels and rate, and the summary of what was kept. */
  function AfterLoad(c: Contents, decoded: DecodeResult): Contents
    requires decoded.Decoded? ==> decoded.channels > 0
  {
    if decoded.DecodeFailed? then c
    else
      var kept := FirstChannel(decoded.data, decoded.channels);
      Contents(kept, |kept| % UintRange, decoded.channels, decoded.rate, Preview(kept, |kept| % UintRange))
  }

  /** The neighbour indices x0 .. x3 that a clip read computes: x1 is the
      floor of the position clamped into [1, count - 2]. */
  function ReadTaps(index: real, count: nat): seq<int>
    requires count >= 2
  {
    var x1 := Clamp(index, 1.0, (count - 2) as real).Floor;
    [x1 - 1, x1, x1 + 1, x1 + 2]
  }

  /** The frame loop of a load: steps through interleaved data by the
      channel count and keeps the sample at each step. */
  method KeepFirstChannel(data: seq<real>, ch: nat) returns (kept: seq<real>)
    requires ch > 0
    ensures kept == FirstChannel(data, ch)
  {
    kept := [];
    var i := 0;
    while i < |data|
      invariant i == |kept| * ch
      invariant |kept| == 0 || (|kept| - 1) * ch < |data|
      invariant forall k :: 0 <= k < |kept| ==> k * ch < |data| && kept[k] == data[k * ch]
      decreases |data| - i
    {
      kept := kept + [data[i]];
      i := i + ch;
    }
    FrameCount(|data|, ch, |kept|);
  }

  class AudioClip {
    var leftChannel: seq<real>
    var sampleCount: nat
    var channels: nat
    var sampleRate: nat
    const waveform: array<Level>

    /** The counter never exceeds the stored samples (a record session keeps
        two extra zeros at the end) and fits 32 bits. */
    ghost predicate Valid()
      reads this
    {
      waveform.Length == WaveformResolution && sampleCount <= |leftChannel| && sampleCount < UintRange
    }

    /** The clip's contents as one value. */
    function State(): Contents
      reads this, waveform
    {
      Contents(leftChannel, sampleCount, channels, sampleRate, waveform[..])
    }

    constructor ()
      ensures Valid() && fresh(waveform)
      ensures State() == Blank()
    {
      leftChannel := [];
      sampleCount := 0;
      channels := 0;
      sampleRate := 0;
      waveform := new Level[WaveformResolution](_ => Value(0.0));
    }

    /** A loaded clip holds at least one sample. */
    predicate IsLoaded()
      reads this
      ensures Valid() && IsLoaded() ==> |leftChannel| > 0
    {
      sampleCount > 0
    }

    /** Read at a position clamped into [1, count - 2]. Every mode but LINEAR
        returns the stored sample at the floor of the clamped position: the
        Hermite and B-spline results are computed and dropped. LINEAR
        crossfades the two neighbour indices, not their samples, so it
        returns the clamped position itself. */
    function GetSample(index: real, mode: Interpolations): (r: real)
      reads this
      requires Valid() && sampleCount >= 2
      ensures mode != LINEAR && 1.0 <= index <= (sampleCount - 2) as real ==> r == leftChannel[index.Floor]
      ensures mode != LINEAR && index < 1.0 ==> r == leftChannel[1]
      ensures mode != LINEAR && index > (sampleCount - 2) as real && sampleCount >= 3 ==> r == leftChannel[sampleCount - 2]
      ensures mode != LINEAR && sampleCount == 2 ==> r == leftChannel[1]
      ensures mode == LINEAR && sampleCount >= 3 ==> 1.0 <= r <= (sampleCount - 2) as real
      ensures mode == LINEAR && 1.0 <= index <= (sampleCount - 2) as real ==> r == index
      ensures mode == LINEAR ==> r == Clamp(index, 1.0, (sampleCount - 2) as real)
    {
      var position := Clamp(index, 1.0, (sampleCount - 2) as real);
      var x1 := position.Floor;
      match mode
      case NONE => leftChannel[x1]
      case LINEAR => Crossfade(x1 as real, (x1 + 1) as real, position - x1 as real)
      case HERMITE => leftChannel[x1]
      case BSPLINE => leftChannel[x1]
    }

    /** Sample k of the buffer, with k held inside the buffer. */
    function Tap(k: int): real
      reads this
      requires |leftChannel| > 0
    {
      leftChannel[if k < 0 then 0 else if k >= |leftChannel| then |leftChannel| - 1 else k]
    }

    /** Read that applies the selected kernel to the samples around the
        clamped position. Neighbours beyond the buffer repeat its last
        sample, so a loaded clip, which has no padding, is read inside its
        buffer too; where the buffer holds every neighbour the read is the
        kernel read of the interpolation module. */
    function InterpolatedSample(index: real, mode: Interpolations): (r: real)
      reads this
      requires Valid() && sampleCount >= 2
      ensures var p := Clamp(index, 1.0, (sampleCount - 2) as real);
        p == p.Floor as real && mode != BSPLINE ==> r == leftChannel[p.Floor]
      ensures var x1 := Clamp(index, 1.0, (sampleCount - 2) as real).Floor;
        mode == LINEAR ==> Min(Tap(x1), Tap(x1 + 1)) <= r <= Max(Tap(x1), Tap(x1 + 1))
      ensures var p := Clamp(index, 1.0, (sampleCount - 2) as real);
        p.Floor + 3 <= |leftChannel| ==>
          (mode == LINEAR ==> r == InterpolateLinearD(leftChannel, p))
          && (mode == HERMITE ==> r == InterpolateHermite(leftChannel, p))
          && (mode == BSPLINE ==> r == InterpolateBSpline(leftChannel, p))
    {
      var position := Clamp(index, 1.0, (sampleCount - 2) as real);
      var x1 := position.Floor;
      var t := Frac(position);
      match mode
      case NONE => leftChannel[x1]
      case LINEAR => Crossfade(Tap(x1), Tap(x1 + 1), t)
      case HERMITE => Hermite4pt3oX(Tap(x1 - 1), Tap(x1), Tap(x1 + 1), Tap(x1 + 2), t)
      case BSPLINE => BSpline(Tap(x1 - 1), Tap(x1), Tap(x1 + 1), Tap(x1 + 2), t)
    }

    method UnLoad()
      requires Valid()
      modifies this
      ensures Valid()
      ensures leftChannel == [0.0] && sampleCount == 0 && !IsLoaded()
      ensures channels == old(channels) && sampleRate == old(sampleRate)
    {
      leftChannel := [0.0];
      sampleCount := 0;
    }

    method CalculateWaveform()
      requires Valid()
      modifies waveform
      ensures waveform[..] == Preview(leftChannel, sampleCount)
    {
      var pos := 0;
      var per := sampleCount / WaveformResolution;
      for i := 0 to WaveformResolution
        invariant pos == i * per
        invariant forall k :: 0 <= k < i ==> waveform[k] == Slot(leftChannel, per, k)
      {
        SliceFits(per, i);
        var accumulator := 0.0;
        for s := 0 to per
          invariant pos == i * per + s
          invariant accumulator == SumAbs(leftChannel, i * per, s)
        {
          accumulator := accumulator + Abs(leftChannel[pos]);
          pos := pos + 1;
        }
        waveform[i] := if per == 0 then NotANumber else Value(accumulator / per as real);
        assert (i + 1) * per == i * per + per;
      }
    }

    method StartRec(rate: nat)
      requires Valid()
      modifies this
      ensures Valid()
      ensures State() == AfterStartRec(old(State()), rate)
    {
      sampleRate := rate;
      leftChannel := [];
      sampleCount := 0;
    }

    /** Appends the clamped sample and counts it; answers whether recording
        may go on. On the call that brings the counter to the cap it ends the
        session (padding and summary) and answers false. */
    method Rec(sample: real) returns (more: bool)
      requires Valid()
      modifies this, waveform
      ensures Valid()
      ensures State() == AfterRec(old(State()), sample)
      ensures more == (sampleCount < MaxRecordSamples)
    {
      leftChannel := leftChannel + [Clamp(sample, -1.0, 1.0)];
      sampleCount := Increment(sampleCount);
      if sampleCount >= MaxRecordSamples {
        StopRec();
        return false;
      }
      return true;
    }

    /** Ends a record session: two zeros go behind the last sample so that
        neighbour reads stay inside the buffer; the counter is not changed. */
    method StopRec()
      requires Valid()
      modifies this, waveform
      ensures Valid()
      ensures State() == AfterStopRec(old(State()))
    {
      leftChannel := leftChannel + [0.0, 0.0];
      CalculateWaveform();
    }

    /** The first index at or after first whose sample is exactly 0, searched
        below the counter; first itself when there is none. The start index
        goes through C++'s int-to-unsigned conversion and the answer back. */
    method FindCrosZero(first: int) returns (r: int)
      requires Valid()
      requires -(IntRange as int) <= first < IntRange
      ensures (forall j :: AsUnsigned(first) <= j < sampleCount ==> leftChannel[j] != 0.0) ==> r == first
      ensures (exists j :: AsUnsigned(first) <= j < sampleCount && leftChannel[j] == 0.0) ==>
        exists i :: AsUnsigned(first) <= i < sampleCount && leftChannel[i] == 0.0 && r == AsSigned(i)
          && forall j :: AsUnsigned(first) <= j < i ==> leftChannel[j] != 0.0
    {
      var i: nat := AsUnsigned(first);
      while i < sampleCount
        invariant AsUnsigned(first) <= i
        invariant forall j :: AsUnsigned(first) <= j < i && j < sampleCount ==> leftChannel[j] != 0.0
      {
        if leftChannel[i] == 0.0 {
          return AsSigned(i);
        }
        i := i + 1;
      }
      return first;
    }

    /** Loads decoded file content: nothing changes when decoding fails;
        otherwise the first channel of every frame is kept, counted and
        summarised. */
    method Load(decoded: DecodeResult)
      requires Valid()
      requires decoded.Decoded? ==> decoded.channels > 0
      modifies this, waveform
      ensures Valid()
      ensures State() == AfterLoad(old(State()), decoded)
    {
      if decoded.DecodeFailed? {
        return;
      }
      channels := decoded.channels;
      sampleRate := decoded.rate;
      leftChannel := KeepFirstChannel(decoded.data, decoded.channels);
      sampleCount := |leftChannel| % UintRange;
      CalculateWaveform();
    }
  }

  /** The summary only reads the first 64 * floor(count / 64) samples: clips
      that agree there have the same summary. */
  lemma {:induction false} PreviewReadsWholeSlices(s: seq<real>, t: seq<real>, count: nat)
    requires count <= |s| && count <= |t|
    requires var used := WaveformResolution * (count / WaveformResolution);
      s[..used] == t[..used]
    ensures Preview(s, count) == Preview(t, count)
  {
    var per := count / WaveformResolution;
    forall k | 0 <= k < WaveformResolution
      ensures Slot(s, per, k) == Slot(t, per, k)
    {
      SliceFits(per, k);
      SumAbsSame(s, t, k * per, per, WaveformResolution * per);
    }
  }

  lemma {:induction false} SumAbsSame(s: seq<real>, t: seq<real>, from: nat, n: nat, used: nat)
    requires from + n <= used <= |s| && used <= |t| && s[..used] == t[..used]
    ensures SumAbs(s, from, n) == SumAbs(t, from, n)
  {
    if n > 0 {
      SumAbsSame(s, t, from, n - 1, used);
      assert s[from + n - 1] == s[..used][from + n - 1];
    }
  }

  /** Samples of magnitude at most 1, as recording stores them, give summary
      slots in [0, 1]. */
  lemma PreviewInUnitRange(s: seq<real>, count: nat)
    requires count <= |s|
    requires forall j :: 0 <= j < count ==> -1.0 <= s[j] <= 1.0
    ensures forall k :: 0 <= k < WaveformResolution && Preview(s, count)[k].Value? ==>
      0.0 <= Preview(s, count)[k].v <= 1.0
  {
    forall k | 0 <= k < WaveformResolution
      ensures Slot(s, count / WaveformResolution, k).Value? ==> 0.0 <= Slot(s, count / WaveformResolution, k).v <= 1.0
    {
      SlotInUnitRange(s, count, count / WaveformResolution, k);
    }
  }

  lemma SlotInUnitRange(s: seq<real>, count: nat, per: nat, k: nat)
    requires count <= |s| && per == count / WaveformResolution && k < WaveformResolution
    requires forall j :: 0 <= j < count ==> -1.0 <= s[j] <= 1.0
    ensures Slot(s, per, k).Value? ==> 0.0 <= Slot(s, per, k).v <= 1.0
  {
    if per > 0 {
      SliceFits(per, k);
      var from := k * per;
      assert from + per <= count;
      SumAbsBounded(s, from, per);
      MeanAtMostOne(SumAbs(s, from, per), per as real);
    }
  }

  lemma {:induction false} SumAbsBounded(s: seq<real>, from: nat, n: nat)
    requires from + n <= |s|
    requires forall j :: from <= j < from + n ==> -1.0 <= s[j] <= 1.0
    ensures 0.0 <= SumAbs(s, from, n) <= n as real
  {
    if n > 0 {
      SumAbsBounded(s, from, n - 1);
    }
  }

  lemma MeanAtMostOne(total: real, n: real)
    requires n > 0.0 && 0.0 <= total <= n
    ensures 0.0 <= total / n <= 1.0
  {
  }

  /** A recorded sample always lies in [-1, 1] and equals the input when the
      input already does. */
  lemma RecordedSampleInRange(sample: real)
    ensures -1.0 <= Clamp(sample, -1.0, 1.0) <= 1.0
    ensures -1.0 <= sample <= 1.0 ==> Clamp(sample, -1.0, 1.0) == sample
  {
  }

  /** Mono data is kept whole; for interleaved data the kept samples are the
      frame starts, one per (possibly partial) frame. */
  lemma FirstChannelFrames(data: seq<real>, channels: nat)
    requires channels > 0
    ensures channels == 1 ==> FirstChannel(data, channels) == data
    ensures |FirstChannel(data, channels)| * channels >= |data|
    ensures |FirstChannel(data, channels)| * channels < |data| + channels
  {
  }

  /** Loading a file of fewer than 2^32 frames leaves a loaded clip exactly
      when the file held samples. */
  lemma LoadedExactlyWithData(c: Contents, decoded: DecodeResult)
    requires decoded.Decoded? && decoded.channels > 0
    requires |FirstChannel(decoded.data, decoded.channels)| < UintRange
    ensures AfterLoad(c, decoded).count > 0 <==> |decoded.data| > 0
  {
    FirstChannelFrames(decoded.data, decoded.channels);
  }

  /** A clip loaded from a file holds exactly its counted samples, with no
      padding behind them; read at or above count - 2, the HERMITE and
      BSPLINE branches still fetch neighbour x3 at index count or beyond,
      past the end of the buffer. */
  lemma KernelReadsPastLoadedEnd(c: Contents, decoded: DecodeResult, index: real)
    requires decoded.Decoded? && decoded.channels > 0
    requires 2 <= |FirstChannel(decoded.data, decoded.channels)| < UintRange
    requires index >= (AfterLoad(c, decoded).count - 2) as real
    ensures AfterLoad(c, decoded).count == |AfterLoad(c, decoded).samples|
    ensures ReadTaps(index, AfterLoad(c, decoded).count)[3] >= |AfterLoad(c, decoded).samples|
  {
  }

  /** A LINEAR read of a silent clip between two samples yields the position,
      not silence; the kernel read yields silence. */
  lemma LinearReadReturnsPosition(clip: AudioClip)
    requires clip.Valid() && clip.sampleCount == 4
    requires clip.leftChannel == [0.0, 0.0, 0.0, 0.0, 0.0, 0.0]
    ensures clip.GetSample(1.5, LINEAR) == 1.5
    ensures clip.InterpolatedSample(1.5, LINEAR) == 0.0
  {
    assert Frac(1.5) == 0.5;
  }

  /** A HERMITE read of a rising ramp halfway between samples 1 and 2 yields
      sample 1; the kernel read yields the ramp's value there. */
  lemma HermiteReadDropsKernel(clip: AudioClip)
    requires clip.Valid() && clip.sampleCount == 4
    requires clip.leftChannel == [0.0, 1.0, 2.0, 3.0, 4.0, 5.0]
    ensures clip.GetSample(1.5, HERMITE) == 1.0
    ensures clip.InterpolatedSample(1.5, HERMITE) == 1.5
  {
    assert Frac(1.5) == 0.5;
    HermiteReproducesRamp(0.0, 1.0, 0.5);
  }
}
