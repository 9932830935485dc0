/** The playback and record state machine of src/AdvancedSampler.cpp. A
    read index walks through the clip between a start and an end fraction,
    24 sub-samples per block, forward or in reverse; at the end marker it
    wraps (loop) or stops, and a stop raises the end-of-cycle pulse.
    Recording pre-empts playback. The tune ratio, the envelope, the pulse
    generator, the edge detectors and the sample-rate converter are host
    library parts: their outputs are inputs here. */
module Sampler {
  import opened Common
  import opened AudioClips
  import opened FolderReaders

  /** Sub-samples rendered per block for the sample-rate converter. */
  const BlockLength: nat := 24

  /** Playback state that a block advances. */
  datatype Cursor = Cursor(playing: bool, index: real)

  /** What a block reads but does not change: the clip length, the start and
      end fractions, the tune ratio and the loop switch. */
  datatype Window = Window(count: nat, start: real, end: real, freq: real, loop: bool)

  predicate Reverse(w: Window)
  {
    w.start > w.end
  }

  /** The end marker: int(count * end). */
  function LastSample(w: Window): int
  {
    Trunc(w.count as real * w.end)
  }

  /** The wrap target: int(count * start). */
  function FirstSample(w: Window): int
  {
    Trunc(w.count as real * w.start)
  }

  /** The index after one move in the playing direction. */
  function Moved(c: Cursor, w: Window): real
  {
    if Reverse(w) then c.index - w.freq else c.index + w.freq
  }

  /** The index has gone past the end marker in the playing direction. */
  predicate Past(index: real, w: Window)
  {
    if Reverse(w) then index < LastSample(w) as real else index > LastSample(w) as real
  }

  /** One sub-sample: a stopped cursor stays; a playing one moves and, once
      past the end marker, wraps to the first sample or stops. */
  function Step(c: Cursor, w: Window): Cursor
  {
    if !c.playing then c
    else
      var index := Moved(c, w);
      if Past(index, w) then (if w.loop then Cursor(true, FirstSample(w) as real) else Cursor(false, index))
      else Cursor(true, index)
  }

  /** The cursor after n sub-samples. */
  function Run(c: Cursor, w: Window, n: nat): Cursor
  {
    if n == 0 then c else Step(Run(c, w, n - 1), w)
  }

  /** Sub-sample k of a block: the clip read at the moved index when the
      cursor was playing before the move, else silence. */
  function BlockSample(c: Cursor, w: Window, fetch: real -> real, k: nat): real
  {
    var before := Run(c, w, k);
    if before.playing then fetch(Step(before, w).index) else 0.0
  }

  function Block(c: Cursor, w: Window, fetch: real -> real): (b: seq<real>)
    ensures |b| == BlockLength
  {
    seq(BlockLength, k requires 0 <= k < BlockLength => BlockSample(c, w, fetch, k))
  }

  /** While the end marker is not passed, a playing cursor moves by exactly
      the tune ratio: backwards when start > end, forwards otherwise. */
  lemma StepMovesByFreq(c: Cursor, w: Window)
    requires c.playing && !Past(Moved(c, w), w)
    ensures Step(c, w).playing
    ensures Step(c, w).index == if w.start > w.end then c.index - w.freq else c.index + w.freq
  {
  }

  /** Passing the end marker wraps to the first sample with loop on and stops
      playback with loop off; playback stops for no other reason. */
  lemma StepAtEnd(c: Cursor, w: Window)
    requires c.playing
    ensures Past(Moved(c, w), w) && w.loop ==> Step(c, w) == Cursor(true, FirstSample(w) as real)
    ensures Past(Moved(c, w), w) && !w.loop ==> !Step(c, w).playing
    ensures !Step(c, w).playing <==> Past(Moved(c, w), w) && !w.loop
  {
  }

  /** Once stopped inside a block, the cursor no longer changes and every
      remaining sub-sample is silence. */
  lemma {:induction false} StoppedStaysSilent(c: Cursor, w: Window, fetch: real -> real, i: nat, j: nat)
    requires i <= j && !Run(c, w, i).playing
    ensures Run(c, w, j) == Run(c, w, i)
    ensures BlockSample(c, w, fetch, j) == 0.0
  {
    if i < j {
      StoppedStaysSilent(c, w, fetch, i, j - 1);
    }
  }

  /** With loop on, playback never stops. */
  lemma {:induction false} LoopKeepsPlaying(c: Cursor, w: Window, n: nat)
    requires c.playing && w.loop
    ensures Run(c, w, n).playing
  {
    if n > 0 {
      LoopKeepsPlaying(c, w, n - 1);
    }
  }

  /** Control inputs of one call, as the host delivers them: edges from the
      triggers, knob values, CV voltages, the tune ratio and whether the
      converter's output buffer has run empty. */
  datatype Panel = Panel(
    audioConnected: bool, recEdge: bool, audioIn: real, sampleRate: nat,
    startKnob: real, startCv: real, endKnob: real, endCv: real,
    playButtonEdge: bool, playConnected: bool, playInputEdge: bool,
    sampleKnob: real, sampleCv: real, loop: bool, freq: real, bufferEmpty: bool)

  function StartFraction(p: Panel): (f: real)
    ensures 0.0 <= f <= 1.0
  {
    Clamp(p.startKnob + p.startCv / 10.0, 0.0, 1.0)
  }

  function EndFraction(p: Panel): (f: real)
    ensures 0.0 <= f <= 1.0
  {
    Clamp(p.endKnob + p.endCv / 10.0, 0.0, 1.0)
  }

  function SampleFraction(p: Panel): (f: real)
    ensures 0.0 <= f <= 1.0
  {
    Clamp(p.sampleKnob + p.sampleCv * 0.1, 0.0, 1.0)
  }

  predicate Triggered(p: Panel)
  {
    p.playButtonEdge || (p.playConnected && p.playInputEdge)
  }

  /** The clip after the record part of a call: a rec edge with audio
      connected stops a running session or starts a new one, and while a
      session runs the input / 10 is recorded. */
  function RecordedClip(c: Contents, p: Panel, wasRecording: bool): Contents
    requires c.count <= |c.samples|
  {
    var toggled := p.audioConnected && p.recEdge;
    var sample := p.audioIn / 10.0;
    if toggled && wasRecording then AfterStopRec(c)
    else if toggled then AfterRec(AfterStartRec(c, p.sampleRate), sample)
    else if wasRecording then AfterRec(c, sample)
    else c
  }

  /** The file index the sample knob selects, as written: int(f * maxFileIndex).
      A fraction in [0, 1] of a bound n >= 0 selects an index in [0, n]. */
  function SelectedFileAsWritten(fraction: real, maxFileIndex: int): (r: int)
    ensures 0.0 <= fraction <= 1.0 && maxFileIndex >= 0 ==> 0 <= r <= maxFileIndex
  {
    var x := fraction * maxFileIndex as real;
    if 0.0 <= fraction <= 1.0 && maxFileIndex >= 0 then
      FractionOf(fraction, maxFileIndex as real);
      Trunc(x)
    else Trunc(x)
  }

  /** A fraction in [0, 1] of a non-negative bound lies between 0 and it. */
  lemma FractionOf(fraction: real, bound: real)
    requires 0.0 <= fraction <= 1.0 && bound >= 0.0
    ensures 0.0 <= fraction * bound <= bound
  {
    assert bound - fraction * bound == (1.0 - fraction) * bound;
  }

  /** With an empty folder the index bound is -1: the knob at its top
      selects file -1 of an empty list, and anywhere below it file 0, which
      does not exist either. */
  lemma EmptyFolderSelectsMinusOne(fraction: real)
    requires 0.0 <= fraction <= 1.0
    ensures SelectedFileAsWritten(fraction, -1) == if fraction == 1.0 then -1 else 0
  {
    assert fraction * (-1) as real == -fraction;
  }

  /** The file index the knob selects, with no selection from an empty
      folder. */
  function SelectedFile(fraction: real, fileCount: nat): (r: Option<int>)
    ensures r.None? <==> fileCount == 0
    ensures 0.0 <= fraction <= 1.0 && r.Some? ==> 0 <= r.value < fileCount
    ensures fileCount > 0 ==> r == Some(SelectedFileAsWritten(fraction, fileCount - 1))
  {
    if fileCount == 0 then None
    else
      Some(SelectedFileAsWritten(fraction, fileCount - 1))
  }

  class AdvancedSampler {
    var playing: bool
    var recording: bool
    var index: real
    var phaseStart: real
    var phaseEnd: real
    var fileIndex: int
    var path: string
    const clip: AudioClip
    const reader: FolderReader

    /** The clip and the folder are well formed, the clip is not one of the
        folder's clips, and both fractions lie in [0, 1]. */
    ghost predicate Valid()
      reads this, clip, reader, reader.audioClips
    {
      clip.Valid() && reader.Valid() && clip !in reader.audioClips
      && 0.0 <= phaseStart <= 1.0 && 0.0 <= phaseEnd <= 1.0
    }

    /** What a block reads, with the given tune ratio and loop switch. */
    function WindowNow(freq: real, loop: bool): Window
      reads this, clip
    {
      Window(clip.sampleCount, phaseStart, phaseEnd, freq, loop)
    }

    /** The file selection of a call, from the file index, path and clip
        contents it started with: a knob selecting another file loads that
        file into the clip; otherwise file, path and clip stay. */
    ghost predicate FollowsKnob(p: Panel, decode: string -> DecodeResult, fileIndex0: int, path0: string, clip0: Contents)
      requires DecoderSound(decode)
      reads this, clip, clip.waveform, reader
    {
      var selected := SelectedFile(SampleFraction(p), |reader.fileNames|);
      if selected.Some? && selected.value != fileIndex0 then
        0 <= fileIndex < |reader.fileNames| && fileIndex == selected.value && path == reader.fileNames[fileIndex]
        && clip.State() == AfterLoad(clip0, decode(path))
      else
        fileIndex == fileIndex0 && path == path0 && clip.State() == clip0
    }

    constructor ()
      ensures Valid() && fresh(clip) && fresh(reader)
      ensures !playing && !recording && index == 0.0 && phaseStart == 0.0 && phaseEnd == 0.0
      ensures fileIndex == 0 && path == ""
      ensures !clip.IsLoaded() && clip.State() == Blank() && reader.fileNames == [""]
    {
      playing := false;
      recording := false;
      index := 0.0;
      phaseStart := 0.0;
      phaseEnd := 0.0;
      fileIndex := 0;
      path := "";
      clip := new AudioClip();
      reader := new FolderReader();
    }

    /** Starts playback from the start fraction of the clip. */
    method Trigger(p: Panel)
      modifies this
      ensures playing && index == clip.sampleCount as real * StartFraction(p)
      ensures recording == old(recording) && phaseStart == old(phaseStart) && phaseEnd == old(phaseEnd)
      ensures fileIndex == old(fileIndex) && path == old(path)
    {
      index := clip.sampleCount as real * StartFraction(p);
      playing := true;
    }

    /** Starts a record session: the whole clip becomes the window and
      playback stops. */
    method StartRec(rate: nat)
      requires Valid()
      modifies this, clip
      ensures Valid()
      ensures phaseStart == 0.0 && phaseEnd == 1.0 && !playing && recording
      ensures clip.State() == AfterStartRec(old(clip.State()), rate)
      ensures index == old(index) && fileIndex == old(fileIndex) && path == old(path)
    {
      phaseStart := 0.0;
      phaseEnd := 1.0;
      clip.StartRec(rate);
      playing := false;
      recording := true;
    }

    method StopRec()
      requires Valid()
      modifies this, clip, clip.waveform
      ensures Valid()
      ensures !recording && clip.State() == AfterStopRec(old(clip.State()))
      ensures playing == old(playing) && index == old(index) && phaseStart == old(phaseStart) && phaseEnd == old(phaseEnd)
      ensures fileIndex == old(fileIndex) && path == old(path)
    {
      clip.StopRec();
      recording := false;
    }

    /** Loads file i of the folder into the clip. */
    method ChangeSample(i: int, decode: string -> DecodeResult)
      requires Valid() && DecoderSound(decode) && 0 <= i < |reader.fileNames|
      modifies this, clip, clip.waveform
      ensures Valid()
      ensures fileIndex == i && path == reader.fileNames[i]
      ensures clip.State() == AfterLoad(old(clip.State()), decode(path))
      ensures playing == old(playing) && recording == old(recording) && index == old(index)
      ensures phaseStart == old(phaseStart) && phaseEnd == old(phaseEnd)
    {
      fileIndex := i;
      clip.Load(decode(reader.fileNames[fileIndex]));
      path := reader.fileNames[fileIndex];
    }

    /** One sub-sample of playback: move by the tune ratio and, past the end
        marker, wrap to the first sample or stop. */
    method Advance(freq: real, loop: bool)
      modifies this
      ensures Cursor(playing, index) == Step(Cursor(old(playing), old(index)), WindowNow(freq, loop))
      ensures recording == old(recording) && phaseStart == old(phaseStart) && phaseEnd == old(phaseEnd)
      ensures fileIndex == old(fileIndex) && path == old(path)
    {
      if playing {
        var w := WindowNow(freq, loop);
        ghost var c := Cursor(playing, index);
        var reverse := phaseStart > phaseEnd;
        index := index + (if reverse then -freq else freq);
        var lastSample := LastSample(w);
        var firstSample := FirstSample(w);
        var isLastSample := if reverse then index < lastSample as real else index > lastSample as real;
        assert index == Moved(c, w);
        if isLastSample {
          if loop {
            index := firstSample as real;
          } else {
            playing := false;
          }
        }
      }
    }

    /** Renders one block when the converter's buffer has run empty; the
        clip read is the fetch function. */
    method AudioProcess(freq: real, loop: bool, bufferEmpty: bool, fetch: real -> real) returns (block: Option<seq<real>>)
      requires Valid()
      modifies this
      ensures Valid()
      ensures recording == old(recording) && phaseStart == old(phaseStart) && phaseEnd == old(phaseEnd)
      ensures fileIndex == old(fileIndex) && path == old(path)
      ensures !bufferEmpty ==> block.None? && playing == old(playing) && index == old(index)
      ensures bufferEmpty ==>
        block == Some(Block(Cursor(old(playing), old(index)), WindowNow(freq, loop), fetch))
        && Cursor(playing, index) == Run(Cursor(old(playing), old(index)), WindowNow(freq, loop), BlockLength)
    {
      block := None;
      if bufferEmpty {
        ghost var c0 := Cursor(playing, index);
        ghost var w := WindowNow(freq, loop);
        var input := new real[BlockLength];
        for i := 0 to BlockLength
          invariant phaseStart == old(phaseStart) && phaseEnd == old(phaseEnd) && recording == old(recording)
          invariant fileIndex == old(fileIndex) && path == old(path)
          invariant Cursor(playing, index) == Run(c0, w, i)
          invariant forall k :: 0 <= k < i ==> input[k] == BlockSample(c0, w, fetch, k)
        {
          input[i] := 0.0;
          if playing {
            Advance(freq, loop);
            input[i] := fetch(index);
          }
        }
        assert input[..] == Block(c0, w, fetch);
        block := Some(input[..]);
      }
    }

    /** The record part of a call: a rec edge while audio is connected
        toggles recording; while recording, the input is recorded and the
        call ends there. busy says that it ended there. */
    method RecordControl(p: Panel) returns (busy: bool)
      requires Valid()
      modifies this, clip, clip.waveform
      ensures Valid() && fileIndex == old(fileIndex) && path == old(path) && index == old(index)
      ensures busy == ((p.audioConnected && p.recEdge) != old(recording))
      ensures clip.State() == RecordedClip(old(clip.State()), p, old(recording))
      ensures var toggled := p.audioConnected && p.recEdge;
        busy ==>
          recording == (clip.sampleCount < MaxRecordSamples)
          && (toggled ==> phaseStart == 0.0 && phaseEnd == 1.0 && !playing)
          && (!toggled ==> playing == old(playing) && phaseStart == old(phaseStart) && phaseEnd == old(phaseEnd))
      ensures !busy ==>
        !recording && playing == old(playing) && phaseStart == old(phaseStart) && phaseEnd == old(phaseEnd)
    {
      if p.audioConnected && p.recEdge {
        recording := !recording;
        if recording {
          StartRec(p.sampleRate);
        } else {
          StopRec();
        }
      }
      busy := recording;
      if recording {
        recording := clip.Rec(p.audioIn / 10.0);
      }
    }

    /** The control part of playback: clamp the window, honour the
        triggers and follow the sample knob. */
    method Arm(p: Panel, decode: string -> DecodeResult)
      requires Valid() && DecoderSound(decode) && !recording
      modifies this, clip, clip.waveform
      ensures Valid() && !recording
      ensures phaseStart == StartFraction(p) && phaseEnd == EndFraction(p)
      ensures playing == (old(playing) || Triggered(p))
      ensures index == if Triggered(p) then old(clip.sampleCount) as real * StartFraction(p) else old(index)
      ensures FollowsKnob(p, decode, old(fileIndex), old(path), old(clip.State()))
    {
      phaseEnd := EndFraction(p);
      phaseStart := StartFraction(p);
      if p.playButtonEdge {
        Trigger(p);
      }
      if p.playConnected && p.playInputEdge {
        Trigger(p);
      }
      var selected := SelectedFile(SampleFraction(p), |reader.fileNames|);
      if selected.Some? && selected.value != fileIndex {
        ChangeSample(selected.value, decode);
      }
    }

    /** The playback part of a call on a loaded clip: arm, render a block and
        report a playing-to-stopped edge as the end-of-cycle pulse. */
    method Play(p: Panel, decode: string -> DecodeResult, fetch: real -> real) returns (eoc: bool, block: Option<seq<real>>)
      requires Valid() && DecoderSound(decode) && !recording
      modifies this, clip, clip.waveform
      ensures Valid() && !recording
      ensures phaseStart == StartFraction(p) && phaseEnd == EndFraction(p)
      ensures eoc <==> (old(playing) || Triggered(p)) && !playing
      ensures eoc ==> !p.loop
      ensures FollowsKnob(p, decode, old(fileIndex), old(path), old(clip.State()))
      ensures !(old(playing) || Triggered(p)) ==> block.None? && !playing && index == old(index)
      ensures var start := if Triggered(p) then old(clip.sampleCount) as real * StartFraction(p) else old(index);
        (old(playing) || Triggered(p)) ==>
          (p.bufferEmpty ==>
            block == Some(Block(Cursor(true, start), WindowNow(p.freq, p.loop), fetch))
            && Cursor(playing, index) == Run(Cursor(true, start), WindowNow(p.freq, p.loop), BlockLength))
          && (!p.bufferEmpty ==> block.None? && playing && index == start)
    {
      block := None;
      Arm(p, decode);
      var wasPlaying := playing;
      if playing {
        ghost var start := index;
        block := AudioProcess(p.freq, p.loop, p.bufferEmpty, fetch);
        if p.loop && p.bufferEmpty {
          LoopKeepsPlaying(Cursor(true, start), WindowNow(p.freq, p.loop), BlockLength);
        }
      }
      eoc := wasPlaying && !playing;
    }

    /** One audio-rate call. Returns whether the end-of-cycle pulse was
        triggered and the block rendered, if any. */
    method Process(p: Panel, decode: string -> DecodeResult, fetch: real -> real) returns (eoc: bool, block: Option<seq<real>>)
      requires Valid() && DecoderSound(decode)
      modifies this, clip, clip.waveform
      ensures Valid()
      // Recording takes the call over.
      ensures var toggled := p.audioConnected && p.recEdge;
        toggled != old(recording) ==>
          !eoc && block.None? && index == old(index) && fileIndex == old(fileIndex) && path == old(path)
          && clip.State() == RecordedClip(old(clip.State()), p, old(recording))
          && recording == (clip.sampleCount < MaxRecordSamples)
          && (toggled ==> phaseStart == 0.0 && phaseEnd == 1.0 && !playing)
          && (!toggled ==> playing == old(playing) && phaseStart == old(phaseStart) && phaseEnd == old(phaseEnd))
      // An empty clip stops the call before any playback logic; a session
      // that this call's rec edge stopped is still padded.
      ensures var toggled := p.audioConnected && p.recEdge;
        toggled == old(recording) && old(clip.sampleCount) == 0 ==>
          !eoc && block.None? && !recording && playing == old(playing) && index == old(index)
          && phaseStart == old(phaseStart) && phaseEnd == old(phaseEnd)
          && fileIndex == old(fileIndex) && path == old(path)
          && clip.State() == RecordedClip(old(clip.State()), p, old(recording))
      // Playback: clamped window, triggers, block, end-of-cycle.
      ensures var toggled := p.audioConnected && p.recEdge;
        toggled == old(recording) && old(clip.sampleCount) > 0 ==>
          !recording && phaseStart == StartFraction(p) && phaseEnd == EndFraction(p)
          && (eoc <==> (old(playing) || Triggered(p)) && !playing)
          && FollowsKnob(p, decode, old(fileIndex), old(path), RecordedClip(old(clip.State()), p, old(recording)))
      ensures var toggled := p.audioConnected && p.recEdge;
        var start := if Triggered(p) then old(clip.sampleCount) as real * StartFraction(p) else old(index);
        toggled == old(recording) && old(clip.sampleCount) > 0 && (old(playing) || Triggered(p)) ==>
          (p.bufferEmpty ==>
            block == Some(Block(Cursor(true, start), WindowNow(p.freq, p.loop), fetch))
            && Cursor(playing, index) == Run(Cursor(true, start), WindowNow(p.freq, p.loop), BlockLength))
          && (!p.bufferEmpty ==> block.None? && playing && index == start)
      // Idle: a loaded clip that is neither playing nor triggered stays put.
      ensures var toggled := p.audioConnected && p.recEdge;
        toggled == old(recording) && old(clip.sampleCount) > 0 && !(old(playing) || Triggered(p)) ==>
          !eoc && block.None? && !playing && index == old(index)
      // The pulse marks a stop, never a loop wrap.
      ensures eoc ==> !playing && !p.loop
    {
      eoc := false;
      block := None;
      var busy := RecordControl(p);
      assert !busy ==> clip.sampleCount == old(clip.sampleCount);
      if busy || !clip.IsLoaded() {
        assert !((p.audioConnected && p.recEdge) == old(recording) && old(clip.sampleCount) > 0);
        return;
      }
      assert clip.sampleCount == old(clip.sampleCount) && playing == old(playing) && index == old(index);
      ghost var start := if Triggered(p) then clip.sampleCount as real * StartFraction(p) else index;
      eoc, block := Play(p, decode, fetch);
      assert (old(playing) || Triggered(p)) && p.bufferEmpty ==>
        Cursor(playing, index) == Run(Cursor(true, start), WindowNow(p.freq, p.loop), BlockLength);
    }
  }
}
