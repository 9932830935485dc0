# LomasModules core, modelled in Dafny

This project models the sequential core of LomasModules, a plugin for the VCV
Rack modular synthesis host, and proves properties of that model. It covers
six pieces:

- **Advanced sampler** (`sampler.dfy`, module `Sampler`): the playback/record
  state machine of `AdvancedSampler`.
  - Start and end fractions are clamped from knob + CV/10.
  - A trigger puts the read index at count × start.
  - Each of the 24 sub-samples of a block moves the index by the tune ratio,
    so a block moves it by up to 24 × the ratio. It moves backwards when
    start > end.
  - Past the end marker `int(count × end)`, the index wraps to
    `int(count × start)` when loop is on, and playback stops when it is off.
  - The end-of-cycle (EOC) pulse fires only on a playing-to-stopped edge. A
    loop wrap never fires it (`Sampler.AdvancedSampler.Play`,
    `Sampler.LoopKeepsPlaying`).
  - The sample knob selects a file of the folder and loads it into the clip.
  - Recording pre-empts all of this.
- **Audio clip** (`audio_clip.dfy`, module `AudioClips`): the class
  `AudioClip`, a mono sample vector with a 32-bit sample counter. It covers:
  - streaming record with a cap of 441000 samples;
  - two samples of zero padding on stop;
  - first-channel extraction on load;
  - clamped reads;
  - the zero-crossing search;
  - the 64-slot mean-absolute waveform summary.
- **Interpolation kernels** (`interpolation.dfy`, module `Interpolation`):
  the Hermite and B-spline polynomials, and the bounded and wrapping array
  reads.
- **Antipop filter** (`antipop.dfy`, module `Antipop`): a blend coefficient
  ramps from 0 after a trigger until the filter passes its input through.
- **Gate sequencer** (`gate_sequencer.dfy`, module `GateSequencers`): a 4×64
  gate grid. It covers:
  - beat-to-step arithmetic and quantised pattern changes;
  - the clock, reset and gate logic;
  - the grid, page and pattern buttons;
  - clear, copy-pattern and copy-page loops on the grid array;
  - the save/restore field mapping.
- **Folder reader** (`folder_reader.dfy`, module `FolderReaders`): filters a
  directory listing to `.wav`/`.WAV` names, builds paths and short display
  names, and loads one clip per path.

`common.dfy` (module `Common`) holds the host library's `clamp` and
`crossfade` and C++'s float-to-int truncation.

Floats are modelled as reals, and no rounding is modelled. Unsigned 32-bit
and 64-bit wrap-around is written out where the source depends on it: the
sample counter, the int/unsigned conversions in `findCrosZero`, and the
size_t `length - 5` in the file filter. The following become parameters of
the model:

- the WAV decoder (a function from path to decoded channels, rate and
  interleaved data);
- the directory listing (an optional sequence of names);
- the file-name base helper;
- the clip read used by playback;
- the tune ratio;
- the edge detectors and the long-press buttons, as booleans and button
  events.

## Model

| member | source | states |
|---|---|---|
| Common.Clamp | src/AdvancedSampler.cpp:130-131 | the result lies in [lo, hi] when lo ≤ hi, is x when x is already inside, and is lo when the bounds cross (fmax of fmin) |
| Common.Trunc | src/AdvancedSampler.cpp:203-204 | float-to-int conversion truncates toward zero: for x ≥ 0 the result is the largest integer not above x, for x ≤ 0 the smallest not below |
| Common.Crossfade | src/dsp/Interpolation.hpp:37-41 | weight 0 gives a, weight 1 gives b, and a weight in [0, 1] gives a value between a and b |
| Interpolation.Frac | src/dsp/Interpolation.hpp:37-39 | the fractional weight index − floor(index) lies in [0, 1) and rebuilds the index with the floor |
| Interpolation.BSpline | src/dsp/Interpolation.hpp:14-23 | at u = 0 it is (P0 + 4P1 + P2)/6, at u = 1 it is (P1 + 4P2 + P3)/6, and four equal points give that value for every u |
| Interpolation.Hermite4pt3oX | src/dsp/Interpolation.hpp:25-32 | t = 0 gives x1, t = 1 gives x2, and four equal points give that value for every t |
| Interpolation.HermiteReproducesRamp | src/dsp/Interpolation.hpp:25-32 | four points on a line a + kb give a + b(1 + t): the kernel reproduces straight lines |
| Interpolation.BSplineReproducesRamp | src/dsp/Interpolation.hpp:14-23 | the B-spline kernel also reproduces straight lines |
| Interpolation.InterpolateLinearD | src/dsp/Interpolation.hpp:34-41 | with at least floor + 2 samples the result lies between data[floor] and data[floor + 1], and is data[floor] at whole indices |
| Interpolation.InterpolateHermite | src/dsp/Interpolation.hpp:43-49 | with 1 ≤ floor and floor + 3 samples it reads data[floor−1 .. floor+2], is data[floor] at whole indices, and keeps a flat neighbourhood's value |
| Interpolation.InterpolateBSpline | src/dsp/Interpolation.hpp:51-57 | same reads and bounds; at whole indices it is the smoothed value (data[floor−1] + 4 data[floor] + data[floor+1])/6; a flat neighbourhood keeps its value |
| Interpolation.WrapNeighbours | src/dsp/Interpolation.hpp:68-72 | for 0 ≤ floor < dataLen all four neighbour indices lie in [0, dataLen); x0 is dataLen − 1 exactly when x1 < 1; x2 and x3 wrap to 0 past the end |
| Interpolation.InterpolateLineard | src/dsp/Interpolation.hpp:60-65 | the wrapping linear read stays between data[x1] and data[x2], with x2 wrapped |
| Interpolation.InterpolateHermiteWrap | src/dsp/Interpolation.hpp:68-75 | the wrapping Hermite read returns data[floor] at whole indices |
| Interpolation.InterpolateBSplineWrap | src/dsp/Interpolation.hpp:78-85 | the wrapping B-spline read of constant data returns that constant |
| Antipop.NextAlpha | src/dsp/Antipop.hpp:11-16 | the coefficient never decreases for a non-negative sample time and is frozen once it has reached 1 |
| Antipop.AntipopFilter.constructor | src/dsp/Antipop.hpp:3-4 | a new filter starts with coefficient 0.00001 |
| Antipop.AntipopFilter.Trigger | src/dsp/Antipop.hpp:6-8 | a trigger sets the coefficient to exactly 0 and leaves the state |
| Antipop.AntipopFilter.Process | src/dsp/Antipop.hpp:10-21 | at coefficient ≥ 1 the input is returned and stored unchanged; otherwise the coefficient grows by sampleTime × 1500 and the state moves that fraction of the way to the input, which is returned |
| Antipop.NoOvershoot | src/dsp/Antipop.hpp:16-18 | while the grown coefficient is in [0, 1] the new state lies between the old state and the input |
| Antipop.OvershootAboveOne | src/dsp/Antipop.hpp:16-18 | a coefficient above 1 overshoots: from state 0 toward input 1 the output is 2 |
| Antipop.OvershootAt44k | src/dsp/Antipop.hpp:6-18 | at 44.1 kHz, 29 calls after a trigger the coefficient is 43500/44100 < 1, and call 30 moves the state from 0 past an input of 1 |
| Antipop.WholeRampNeverOvershoots | src/dsp/Antipop.hpp:6-18 | when the ramp lands exactly on 1 after some k calls, every call after a trigger leaves the state between its old value and the input |
| Antipop.RampLandsAt48k | src/dsp/Antipop.hpp:11-16 | at 48 kHz the coefficient is exactly 1 on call 32 after a trigger |
| Antipop.FirstOutputDiffers | src/dsp/Antipop.hpp:16-20 | right after a trigger, with a ramp step below 1, the output still differs from an input that differs from the state |
| Antipop.AlphaNonDecreasing | src/dsp/Antipop.hpp:11-16 | along any run of calls the coefficient never decreases |
| Antipop.RampFromTrigger | src/dsp/Antipop.hpp:6-16 | after a trigger the coefficient is n ramp steps while below 1, and reaches 1 exactly when n ramp steps do |
| Antipop.StepsReachOne | src/dsp/Antipop.hpp:16 | n steps of size s reach 1 exactly when n ≥ ⌈1/s⌉ |
| Antipop.PassThroughAfterRamp | src/dsp/Antipop.hpp:11-16 | after a trigger the filter passes its input through from call n + 1 on exactly when n ≥ ⌈1/(sampleTime × 1500)⌉ |
| AudioClips.AsUnsigned | src/AudioClip.hpp:107-115 | the int-to-unsigned conversion of the start index is below 2^32 and converts back to the same int |
| AudioClips.AudioClip.constructor | src/AudioClip.hpp:164-170 | a new clip is empty: no samples, count, channels and rate 0, and a summary of 64 zeros |
| AudioClips.AudioClip.IsLoaded | src/AudioClip.hpp:15 | a clip is loaded when its count is positive, and a loaded clip holds at least one sample |
| AudioClips.AudioClip.GetSample | src/AudioClip.hpp:19-51 | the index is clamped into [1, count − 2]; NONE, HERMITE and BSPLINE return the stored sample at the floor of the clamped index (sample 1 below, sample count − 2 above, sample 1 for a count of 2); LINEAR returns the clamped index itself, for every count ≥ 2 |
| AudioClips.AudioClip.InterpolatedSample | src/AudioClip.hpp:19-45 | the read the clamped neighbours were prepared for, on every clip of count ≥ 2 with neighbours beyond the buffer held at its last sample: at a whole position NONE, LINEAR and HERMITE return the stored sample; LINEAR lies between the two neighbouring samples; where the buffer holds all four neighbours the result is the interpolation module's linear, Hermite or B-spline read |
| AudioClips.AudioClip.UnLoad | src/AudioClip.hpp:53-58 | the buffer becomes exactly one zero, the count 0, and the clip reports not loaded |
| AudioClips.AudioClip.CalculateWaveform | src/AudioClip.hpp:60-74 | each of the 64 slots becomes the mean absolute value of its slice of floor(count/64) samples (NaN when that is 0); the samples are untouched |
| AudioClips.AudioClip.StartRec | src/AudioClip.hpp:76-81 | the buffer is emptied, the count set to 0 and the rate stored; channels and summary are kept |
| AudioClips.AudioClip.Rec | src/AudioClip.hpp:84-94 | the count goes up by exactly one (mod 2^32); the result is true exactly while the count stays below 441000; a true call appends clamp(sample, −1, 1), and the call that reaches the cap also appends the two padding zeros and recomputes the summary |
| AudioClips.AudioClip.StopRec | src/AudioClip.hpp:96-105 | exactly two zeros are appended, the count, channels and rate are unchanged, and the summary is recomputed |
| AudioClips.AudioClip.FindCrosZero | src/AudioClip.hpp:107-115 | the result is the least index at or after the converted start, below the count, whose sample is exactly 0, converted back to int; or the start itself when there is none |
| AudioClips.KeepFirstChannel | src/AudioClip.hpp:129-130 | the frame loop keeps exactly element i × channels of the interleaved data, for every frame, in order |
| AudioClips.AudioClip.Load | src/AudioClip.hpp:117-138 | a failed decode changes nothing; otherwise the buffer becomes element i × channels of the interleaved data in order, the count is its length (mod 2^32), channels and rate are stored, and the summary recomputed |
| AudioClips.PreviewReadsWholeSlices | src/AudioClip.hpp:60-74 | the summary reads only the first 64 × floor(count/64) samples: buffers that agree there have the same summary |
| AudioClips.PreviewInUnitRange | src/AudioClip.hpp:60-74 | samples in [−1, 1], as recording leaves them, give slot values in [0, 1] |
| AudioClips.SessionHoldsInputs | src/AudioClip.hpp:76-105 | a record session holds exactly the clamped inputs in order and counts them, keeping channels and rate; below the cap the summary is untouched, and the input that reaches 441000 adds two zeros and summarises the recording |
| AudioClips.LoadedExactlyWithData | src/AudioClip.hpp:129-132 | after loading a file of fewer than 2^32 frames, the clip is loaded exactly when the file held samples |
| AudioClips.KernelReadsPastLoadedEnd | src/AudioClip.hpp:21-26 | a loaded clip has no padding (count = buffer length), and read at or above count − 2 the HERMITE and BSPLINE branches fetch neighbour x3 at index count or beyond, past the end of the buffer |
| AudioClips.RecordedSampleInRange | src/AudioClip.hpp:86 | a recorded sample lies in [−1, 1], and one already inside is kept as is |
| AudioClips.FirstChannelFrames | src/AudioClip.hpp:129-132 | the kept frame count is the ceiling of the data length over the channel count, and a mono file is kept whole |
| AudioClips.LinearReadReturnsPosition | src/AudioClip.hpp:34-36 | on an all-zero clip, the LINEAR read at 1.5 returns 1.5, while the sample crossfade returns 0 |
| AudioClips.HermiteReadDropsKernel | src/AudioClip.hpp:40-45 | on a ramp 0, 1, 2, …, the HERMITE read at 1.5 returns 1, while the kernel gives 1.5 |
| FolderReaders.Find | src/FolderReader.hpp:30-33 | std::string::find: the leftmost occurrence at or after the start position, or none (npos) when there is no occurrence there |
| FolderReaders.SearchStart | src/FolderReader.hpp:30 | length − 5 in size_t: five before the end, or a position past the end for names shorter than 5 |
| FolderReaders.Listed | src/FolderReader.hpp:26-35 | the scanner's entry test never keeps "." or "..", nor a name shorter than five characters |
| FolderReaders.ListedIff | src/FolderReader.hpp:26-35 | an entry is kept exactly when ".wav" or ".WAV" ends the name or is followed by one character; ".", ".." and names shorter than 5 never are |
| FolderReaders.ListedWithTrailingCharacter | src/FolderReader.hpp:30-33 | "a.wavx" and "b.WAV" are kept, ".wav" and "a.wa" are not |
| FolderReaders.ShortFileName | src/FolderReader.hpp:73-82 | the display name is the prefix of length min(length, 13) (the whole name for a negative limit) |
| FolderReaders.FilePathsFromListing | src/FolderReader.hpp:35-43 | paths and display names stay aligned, every path is directory + "/" + a kept entry, and there are no more paths than counted entries |
| FolderReaders.ListedEntryKept | src/FolderReader.hpp:35-39 | every kept entry contributes its path |
| FolderReaders.GetFileCountInDirectory | src/FolderReader.hpp:51-71 | counts every entry except "." and ".."; 0 when the directory cannot be opened |
| FolderReaders.FolderReader.constructor | src/FolderReader.hpp:5-10 | one empty clip (the blank contents: no samples, count, channels and rate 0, a zero summary), display name "No sample", path "", index bound 0 |
| FolderReaders.FolderReader.ScanDirectory | src/FolderReader.hpp:12-49 | the lists are rebuilt from the new listing only (empty when the directory cannot be opened), paths and display names follow the kept entries in listing order, the index bound is their count − 1, and each path gets a fresh clip whose whole contents (samples, count, channels, rate, summary) are those of a new clip loaded from that path |
| FolderReaders.FolderReader.ListEntries | src/FolderReader.hpp:22-46 | the listing loop appends exactly the paths and display names of the kept entries |
| FolderReaders.FolderReader.LoadDirectoryClips | src/FolderReader.hpp:93-102 | one fresh clip per path is appended, in path order, holding exactly the contents of a new clip loaded from that path (samples, count, channels, rate, summary); earlier clips are kept |
| GateSequencers.StepOf | src/GateSequencer.cpp:82 | the step for beat b lies in [0, len] and is b itself while b ≤ len |
| GateSequencers.StepAdvances | src/GateSequencer.cpp:75-83 | one more beat moves to the next step, and from the last step back to 0 |
| GateSequencers.SwitchTwice | src/GateSequencer.cpp:237-241 | flipping reads back negated, changes no other gate, and flipping twice restores the grid |
| GateSequencers.ClearedPattern | src/GateSequencer.cpp:225-230 | clearing empties exactly the 64 gates of the pattern, leaves the other patterns, and is idempotent |
| GateSequencers.CopiedPatternSlices | src/GateSequencer.cpp:243-252 | the target pattern equals the source pattern; every other pattern, the source included, is unchanged |
| GateSequencers.CopiedPageSlices | src/GateSequencer.cpp:254-261 | the target page equals the source page of the same pattern; every other page of every pattern is unchanged |
| GateSequencers.GridButton | src/GateSequencer.cpp:139-153 | a grid button keeps the controls well formed: lengths stay in [0, 63], page and queued pattern are untouched |
| GateSequencers.PageButton | src/GateSequencer.cpp:168-182 | a page button keeps the controls well formed and never touches lengths or the queued pattern |
| GateSequencers.PatternButton | src/GateSequencer.cpp:187-209 | a pattern button keeps the controls well formed and never changes the page |
| GateSequencers.GridButtons | src/GateSequencer.cpp:139-158 | handling the 16 grid buttons in order keeps the controls well formed |
| GateSequencers.PageButtons | src/GateSequencer.cpp:168-184 | handling the 4 page buttons in order keeps the controls well formed |
| GateSequencers.PatternButtons | src/GateSequencer.cpp:187-214 | handling the 4 pattern buttons in order keeps the controls well formed |
| GateSequencers.LastLongPressSetsLength | src/GateSequencer.cpp:150-152 | the last long-pressed grid button i sets the pattern length to i + 16 × page |
| GateSequencers.PageFollowsLastPress | src/GateSequencer.cpp:168-182 | the last pressed page button chooses the page; with no press the page stays |
| GateSequencers.SingleLongPatternPress | src/GateSequencer.cpp:197-207 | a long press on the current pattern clears it; on another pattern it copies gates and length there and queues it |
| GateSequencers.SaveRestoreRoundTrip | src/GateSequencer.cpp:263-324 | restoring a saved document gives back all 256 gates, the 4 lengths and the pattern index, whatever the state before |
| GateSequencers.GateSequencer.constructor | src/GateSequencer.cpp:42-73 | all 256 gates off, every length 15, beat, step, pattern, queued pattern and page 0 |
| GateSequencers.GateSequencer.GetStep | src/GateSequencer.cpp:232-235 | the gate of step s of pattern p is entry s of that pattern's 64-gate slice |
| GateSequencers.GateSequencer.ClearAllPatterns | src/GateSequencer.cpp:217-223 | every gate is off |
| GateSequencers.GateSequencer.ClearPattern | src/GateSequencer.cpp:225-230 | the grid becomes the cleared grid of pattern p, nothing else changes |
| GateSequencers.GateSequencer.SwitchStep | src/GateSequencer.cpp:237-241 | exactly gate s + 64 × pattern is flipped |
| GateSequencers.GateSequencer.CopyPattern | src/GateSequencer.cpp:243-252 | the grid becomes the copied-pattern grid and the target length the source length |
| GateSequencers.GateSequencer.CopyPage | src/GateSequencer.cpp:254-261 | the grid becomes the copied-page grid |
| GateSequencers.GateSequencer.SetBeat | src/GateSequencer.cpp:75-83 | the beat is stored, the queued pattern is adopted exactly when beat % 16 == 0, and the step is beat % (len + 1) of the resulting pattern |
| GateSequencers.GateSequencer.Process | src/GateSequencer.cpp:85-124 | a reset edge restarts the timer and sets beat 0; a clock edge advances the beat only when more than 1 ms has passed since the last reset; the gate output is on exactly when the clock is connected, its voltage exceeds 0.01 and the current step's gate is on |
| GateSequencers.GateSequencer.UpdateUI | src/GateSequencer.cpp:130-215 | the controls after an update are the grid, then page, then pattern button folds applied to the controls before it; beat, step and pattern do not change |
| GateSequencers.GateSequencer.GridUpdate | src/GateSequencer.cpp:139-158 | the grid loop computes the grid button fold |
| GateSequencers.GateSequencer.PageUpdate | src/GateSequencer.cpp:168-184 | the page loop computes the page button fold |
| GateSequencers.GateSequencer.PatternUpdate | src/GateSequencer.cpp:187-214 | the pattern loop computes the pattern button fold |
| GateSequencers.GateSequencer.DataToJson | src/GateSequencer.cpp:263-286 | the document holds the pattern index, each gate as 0 or 1, and the 4 lengths |
| GateSequencers.GateSequencer.DataFromJson | src/GateSequencer.cpp:288-324 | a present index sets pattern and queued pattern; each present gate entry sets its gate to entry ≠ 0 and each present length its length; everything else is kept; an in-range document keeps the state well formed |
| Sampler.StartFraction | src/AdvancedSampler.cpp:131 | the start fraction, knob + CV/10 clamped, lies in [0, 1] |
| Sampler.EndFraction | src/AdvancedSampler.cpp:130 | the end fraction, knob + CV/10 clamped, lies in [0, 1] |
| Sampler.SampleFraction | src/AdvancedSampler.cpp:153 | the sample-select fraction, knob + CV × 0.1 clamped, lies in [0, 1] |
| Sampler.Block | src/AdvancedSampler.cpp:189-194 | a block holds 24 sub-samples |
| Sampler.StepMovesByFreq | src/AdvancedSampler.cpp:198-200 | before the end marker, a playing index moves by exactly −freq when start > end and +freq otherwise |
| Sampler.StepAtEnd | src/AdvancedSampler.cpp:203-214 | past int(count × end) in the playing direction, loop on sets the index to int(count × start) and keeps playing; loop off stops; playback stops for no other reason |
| Sampler.StoppedStaysSilent | src/AdvancedSampler.cpp:192-221 | once stopped inside a block, the index no longer changes and every remaining sub-sample is 0 |
| Sampler.LoopKeepsPlaying | src/AdvancedSampler.cpp:208-214 | with loop on, a playing cursor never stops |
| Sampler.SelectedFileAsWritten | src/AdvancedSampler.cpp:153-154 | the knob selects int(fraction × maxFileIndex), truncated toward zero; a fraction in [0, 1] of a bound n ≥ 0 lies in [0, n] |
| Sampler.EmptyFolderSelectsMinusOne | src/AdvancedSampler.cpp:153-157 | with an empty folder (bound −1) the knob at its top selects file −1 and anywhere below it file 0; neither exists |
| Sampler.SelectedFile | src/AdvancedSampler.cpp:153-155 | a non-empty folder gives the source's int(fraction × maxFileIndex), which lies in [0, count) for fractions in [0, 1]; an empty folder selects nothing |
| Sampler.AdvancedSampler.constructor | src/AdvancedSampler.cpp:327-351 | not playing or recording, index 0, a clip with the blank contents, and the folder's single placeholder entry |
| Sampler.AdvancedSampler.Trigger | src/AdvancedSampler.cpp:295-301 | playing, with the index at count × clamped start |
| Sampler.AdvancedSampler.StartRec | src/AdvancedSampler.cpp:252-259 | start 0, end 1, not playing, recording, and the clip emptied at the given rate with its channels and summary kept |
| Sampler.AdvancedSampler.StopRec | src/AdvancedSampler.cpp:261-266 | recording off and the clip padded with two zeros, its count, channels and rate kept and its summary recomputed; playback state untouched |
| Sampler.AdvancedSampler.ChangeSample | src/AdvancedSampler.cpp:303-310 | the file index and path follow file i, and the clip's whole contents (samples, count, channels, rate, summary) become those loaded from it, or stay when decoding fails |
| Sampler.AdvancedSampler.Advance | src/AdvancedSampler.cpp:195-214 | one sub-sample moves the cursor exactly as the block step function |
| Sampler.AdvancedSampler.AudioProcess | src/AdvancedSampler.cpp:186-221 | with an empty converter buffer the 24-sample block and the cursor after it are those of the block function; otherwise nothing changes |
| Sampler.AdvancedSampler.RecordControl | src/AdvancedSampler.cpp:104-125 | a rec edge with audio connected stops a running session (two zeros of padding, summary recomputed) or starts one; while recording one clamped input/10 sample is recorded, the cap-reaching sample also pads and summarises, recording continues exactly while under the cap, and the call ends there; the clip's new contents are given in every case, and playback state is untouched unless a session starts |
| Sampler.AdvancedSampler.Arm | src/AdvancedSampler.cpp:130-158 | fractions clamped, playing after a trigger with the index at old count × start; a knob selecting another file of the folder sets file index and path and loads it into the clip, otherwise file, path and clip stay |
| Sampler.AdvancedSampler.Play | src/AdvancedSampler.cpp:130-167 | the file selection as in Arm; the block and the cursor follow the block function from the armed cursor; the EOC pulse fires exactly when the call was playing (or triggered) and ends stopped, and never with loop on |
| Sampler.AdvancedSampler.Process | src/AdvancedSampler.cpp:98-170 | recording takes the call over, with the clip's contents as in RecordControl; an empty clip ends the call with window, file and path kept; otherwise clamped window, triggers, file selection, block and EOC as in Play, and an idle call (loaded, not playing, not triggered) keeps the index and renders no block; an EOC implies stopped with loop off |

## Findings

| source | as written | input that shows it | evidently intended | confidence | as-written member | corrected member |
|---|---|---|---|---|---|---|
| src/AudioClip.hpp:34-36 | LINEAR crossfades the integer indices x1 and x1 + 1, not the samples at them | a clip of count 4 holding only zeros, read at 1.5: the result is 1.5 | crossfade of the samples at x1 and x1 + 1, here 0 | high, not executed | AudioClips.LinearReadReturnsPosition | AudioClips.AudioClip.InterpolatedSample |
| src/AudioClip.hpp:40-45 | the HERMITE and BSPLINE kernel results are computed and dropped, and the sample at x1 is returned | a clip of count 4 holding the ramp 0, 1, 2, 3, 4, 5, read at 1.5 in HERMITE mode: the result is 1 | the kernel value, here 1.5 | high, not executed | AudioClips.HermiteReadDropsKernel | AudioClips.AudioClip.InterpolatedSample |
| src/AdvancedSampler.cpp:153-157 | the file index is int(fraction × maxFileIndex_), and maxFileIndex_ is −1 after scanning a folder with no WAV files | an empty folder with the sample knob at its top: changeSample(−1) reads fileNames_[−1] (below the top it selects 0, which an empty list lacks too) | no file change from an empty folder | medium, not executed | Sampler.EmptyFolderSelectsMinusOne | Sampler.SelectedFile |
| src/dsp/Antipop.hpp:16-18 | the coefficient grows by sampleTime × 1500 and is only compared with 1 before growing, so when that step does not divide 1 the last ramp call blends with a coefficient above 1 | at 44.1 kHz, state 0 and input 1: call 30 after a trigger blends with 45000/44100 and outputs about 1.02 | a click-free ramp whose output never passes the input | medium, not executed | Antipop.OvershootAt44k | Antipop.WholeRampNeverOvershoots |
| src/AudioClip.hpp:21-44 | the HERMITE and BSPLINE branches fetch left_channel_[x1 + 2] before dropping the kernel result, and only a recorded clip has padding behind its last sample | a clip loaded from a file of 4 frames (buffer of 4 samples) read at 2.0 in HERMITE mode: x3 = 4, one past the end | neighbour reads that stay inside the buffer | high, not executed | AudioClips.KernelReadsPastLoadedEnd | AudioClips.AudioClip.InterpolatedSample |

The antipop filter class keeps the source's arithmetic, so
`Antipop.AntipopFilter.Process` still overshoots at 44.1 kHz;
`Antipop.WholeRampNeverOvershoots` states the condition under which it does not.

The sampler selects files through the corrected `Sampler.SelectedFile`
(`Sampler.AdvancedSampler.FollowsKnob`, used by `Arm`, `Play` and
`Process`). On a non-empty folder it agrees with the source.

## Left out

- Host and library DSP are not modelled: the sample-rate converter and its
  ring buffer, the envelope, the EOC pulse generator, the Schmitt and Boolean
  triggers, the timers and the long-press buttons. Their outputs are inputs
  to the model:
  - edge booleans;
  - a flag saying whether the converter's buffer is empty;
  - button events.

  The audio output voltage (converter output × envelope × 10) and the EOC
  voltage are therefore not computed.
- The tune ratio `pow(2, …/12)` and the envelope rates are exponentials.
  The ratio is a real parameter; the envelope is left out.
- WAV decoding and `saveToDisk` go through dr_wav. The decoder is a
  parameter; writing a file is not modelled. Nor are the decoder's writes to
  the channel count and rate on a failed decode.
- The decoder is assumed never to report 0 channels for a file it reads
  (`FolderReaders.DecoderSound`, required by `ScanDirectory`,
  `ChangeSample`, `Arm`, `Play` and `Process`). With 0 channels the frame
  loop of `load` (`i += channels_`, src/AudioClip.hpp:129) would never end.
- `opendir`/`readdir` become an optional sequence of names. The host's
  `string::filenameBase`/`string::filename` become a parameter.
- Sampler.AdvancedSampler.Process: the clip read in playback is a parameter.
  The call site's one-argument `getSample`, the `calculateWaveform(points, …)`
  calls and the UI/waveform timers have no counterpart in the clip class.
- The sampler's `setPath`, `getFilename`, `updateUI` and its save/restore
  are not part of this model. They are directory selection, display and
  persistence around the modelled state machine.
- AudioClips.AudioClip.GetSample: requires a count of at least 2. The
  unsigned `count − 2` wrap-around below that is not modelled.
- The CUBIC case of `getSample` names an enumerator the interpolation header
  does not declare. It is not part of this model, and the default branch
  behaves like NONE.
- Antipop.AntipopFilter.constructor: the source leaves the filter state
  uninitialised. The model takes its first value as a parameter.
- GateSequencers.GateSequencer.SetBeat: the beat is a natural number. The
  overflow of the C++ int beat counter is not modelled.
- GateSequencers.GateSequencer.DataFromJson: values out of range in a
  document (a pattern index outside 0..3, a length outside 0..63) are stored
  as in the source. Well-formedness is promised only for in-range
  documents.
- The LED and display updates in the UI methods and all widget and drawing
  code are not modelled.
- Floats are reals. Rounding, NaN propagation (except the 0/0 of an empty
  waveform slot) and float comparisons are exact.
