# VolumeFX / SphereAudioVisualizer — a Dafny model of the audio and volume core

This project models, in Dafny, the parts of the VolumeFX repository that turn
audio into a spherical density volume, and proves properties of that model:

- **the sample ring and the file player** of the sphere visualizer
  (`AudioFilePlayer`): the overwrite-oldest mono ring with its overrun, drop and
  underrun counters, the peek-only latest window with zero padding, the
  load / play / pause / stop / loop state machine and the audio callback
  (sine fallback or decoder pull with looping, mono mix into the ring);
- **the spectral helpers** of `App.cpp`: FFT size selection, linear and
  logarithmic band ranges, max / mean aggregation, log compression, the
  automatic gain control, the normalisation pass, spectrum downsampling and
  the name / parse pairs of the four enumerations;
- **the volume builders**: `SphereVolumeData` (clamped settings, band radius and
  gain tables, energy smoothing, the voxel density formula filling a 3-D
  array) and the CPU side of `GpuVolumeBuilder` (resource sizing, band table
  refresh, smoothing, dispatch parameters and timings);
- **the KISS FFT integer plan**: `kf_factor`, the `lenmem` protocol of
  `kiss_fft_alloc` and the null guard of `kiss_fft_stride`;
- **the VolumeFX `AudioInput`**: the RIFF/WAVE parser (16-bit PCM only), the
  attack/release loudness envelope, the mock playback clock and the automatic
  visualisation gain;
- **the parallel-coordinates lab** (`tasks.cpp`): per-axis ranges, row
  normalisation, axis points, point-to-segment distance and hover selection;
- **the launcher** (`main.cpp`): `--app NAME` / `--app=NAME` parsing and the
  registry lookup.

Floating point is modelled by Dafny's exact `real`. `std::exp`, `std::log`,
`std::log1p`, `std::sqrt` and `std::sin` are function parameters; each lemma
states only the facts it needs about them (for example that `exp` is monotone).
Code that updates objects in place is modelled by classes: the ring over an
`array<real>`, the volume over an `array3<real>`, the coordinate ranges over two
arrays. Each mutating method is proved against a pure function of the old
state, and the properties are proved about those functions.

## Model

| member | source | states |
|---|---|---|
| RingModel.RingCapacity | src/VCX/Apps/SphereAudioVisualizer/AudioFilePlayer.cpp:63-64 | the ring holds at least 1024 samples, and at least 4 seconds of samples when `sampleRate * 4` fits in 32 bits |
| RingModel.RingCapacityIsMaxOfWrapped | src/VCX/Apps/SphereAudioVisualizer/AudioFilePlayer.cpp:63-64 | the capacity is `max((4 * sampleRate) mod 2^32, 1024)`: the 32-bit product wraps before the maximum is taken |
| RingModel.ResetIsEmpty | src/VCX/Apps/SphereAudioVisualizer/AudioFilePlayer.cpp:63-71 | a reset ring is empty, keeps the invariant and has all three counters at zero |
| RingModel.Readable | src/VCX/Apps/SphereAudioVisualizer/AudioFilePlayer.cpp:269-273 | `write - read` is the number of stored samples and never exceeds the capacity |
| RingModel.Write | src/VCX/Apps/SphereAudioVisualizer/AudioFilePlayer.cpp:275-296 | writing keeps the invariant; a zero-capacity ring or empty input changes nothing; otherwise at most `capacity` newest input samples are stored, the oldest stored samples are dropped to make room, and the drop and overrun counters grow by the number dropped and by one |
| RingModel.Read | src/VCX/Apps/SphereAudioVisualizer/AudioFilePlayer.cpp:298-309 | reading returns the oldest `min(maxSamples, readable)` samples in order and removes exactly those |
| RingModel.Discard | src/VCX/Apps/SphereAudioVisualizer/AudioFilePlayer.cpp:344-351 | discarding advances the read cursor by `min(count, readable)` and changes nothing else |
| RingModel.LatestWindow | src/VCX/Apps/SphereAudioVisualizer/AudioFilePlayer.cpp:311-342 | the window is empty and nothing changes for `fftSize == 0` or a zero-capacity ring; otherwise it has exactly `fftSize` values and copies at most `min(fftSize, readable)` samples (an empty ring gives `fftSize` zeros); with `fftSize + headroom` taken without the 64-bit wrap, see Left out |
| RingModel.Padded | src/VCX/Apps/SphereAudioVisualizer/AudioFilePlayer.cpp:322-339 | the window holds the newest `k` samples in order, oldest first, and the rest of it is zero |
| RingModel.WriteDropsOldest | src/VCX/Apps/SphereAudioVisualizer/AudioFilePlayer.cpp:275-296 | for a burst that fits the capacity, the ring afterwards holds the old samples minus the dropped oldest ones, followed by the whole burst; an overrun is counted exactly when the burst does not fit in the free space |
| RingModel.WriteContentsAt | src/VCX/Apps/SphereAudioVisualizer/AudioFilePlayer.cpp:290-294 | each stored sample after a write comes from the old contents before the old write cursor and from the burst after it |
| RingModel.WriteStored | src/VCX/Apps/SphereAudioVisualizer/AudioFilePlayer.cpp:290-295 | writing burst sample `start + i` into slot `(write + i) mod capacity` keeps the slot array in step with the abstract contents |
| RingModel.WriteContents | src/VCX/Apps/SphereAudioVisualizer/AudioFilePlayer.cpp:275-296 | after a write the ring holds the newest `min(capacity, old length + burst length)` samples of the old contents followed by the burst |
| RingModel.ReadStored | src/VCX/Apps/SphereAudioVisualizer/AudioFilePlayer.cpp:304-307 | the samples read are the slots `(read + j) mod capacity` |
| RingModel.DiscardStored | src/VCX/Apps/SphereAudioVisualizer/AudioFilePlayer.cpp:344-351 | discarding keeps the slot array in step with the contents |
| RingModel.WindowStored | src/VCX/Apps/SphereAudioVisualizer/AudioFilePlayer.cpp:322-333 | the window copies the slots ending just before the write cursor, wrapping around the end of the array |
| RingModel.WindowFromSlots | src/VCX/Apps/SphereAudioVisualizer/AudioFilePlayer.cpp:322-339 | the window equals the `count` slots before the write cursor followed by zeros |
| RingModel.WriteLongBurst | src/VCX/Apps/SphereAudioVisualizer/AudioFilePlayer.cpp:281-289 | a burst longer than the ring leaves only its last `capacity` samples, drops every old sample and advances the write cursor by the capacity |
| RingModel.WriteConservation | src/VCX/Apps/SphereAudioVisualizer/AudioFilePlayer.cpp:275-296 | every sample is accounted for: old plus written equals stored plus dropped plus skipped |
| RingModel.WriteThenLatestWindow | src/VCX/Apps/SphereAudioVisualizer/AudioFilePlayer.cpp:311-342 | right after writing a burst, the latest window of the burst's length is exactly that burst |
| RingModel.LatestWindowIgnoresHeadroom | src/VCX/Apps/SphereAudioVisualizer/AudioFilePlayer.cpp:317-324 | for `fftSize + headroom < 2^64`, the headroom argument never changes the result: the window always holds the newest `min(fftSize, readable)` samples, then zeros, counts the shortfall as underruns and leaves the cursors alone |
| RingModel.WriteThenReadAll | src/VCX/Apps/SphereAudioVisualizer/AudioFilePlayer.cpp:275-309 | without overflow, a read after a write returns the old contents followed by the burst, and empties the ring |
| RingModel.ReadAndDiscardAdvanceAlike | src/VCX/Apps/SphereAudioVisualizer/AudioFilePlayer.cpp:298-351 | reading n samples and discarding n samples leave the same ring |
| RingModel.WriteTwice | src/VCX/Apps/SphereAudioVisualizer/AudioFilePlayer.cpp:275-296 | two consecutive writes store the same samples as one write of the concatenation |
| AnalysisRingClass.AnalysisRing.constructor | src/VCX/Apps/SphereAudioVisualizer/AudioFilePlayer.hpp:83-92 | a new ring has no buffer, zero cursors and zero counters |
| AnalysisRingClass.AnalysisRing.ResetRing | src/VCX/Apps/SphereAudioVisualizer/AudioFilePlayer.cpp:63-71 | a fresh zero-filled buffer of the reset capacity, and the abstract ring equals `Reset(sampleRate)` |
| AnalysisRingClass.AnalysisRing.RingReadable | src/VCX/Apps/SphereAudioVisualizer/AudioFilePlayer.cpp:269-273 | returns the number of stored samples |
| AnalysisRingClass.AnalysisRing.GetRingFillRatio | src/VCX/Apps/SphereAudioVisualizer/AudioFilePlayer.cpp:47-52 | the ratio lies in [0, 1], is readable / capacity, and is 0 for a zero-capacity ring |
| AnalysisRingClass.AnalysisRing.WriteRing | src/VCX/Apps/SphereAudioVisualizer/AudioFilePlayer.cpp:275-296 | the array-backed write leaves the ring equal to `Write(old ring, s)` |
| AnalysisRingClass.AnalysisRing.DropOldest | src/VCX/Apps/SphereAudioVisualizer/AudioFilePlayer.cpp:283-288 | an overrun advances the read index past the dropped samples and adds one overrun and `drop` dropped samples to the counters |
| AnalysisRingClass.AnalysisRing.CommitWrite | src/VCX/Apps/SphereAudioVisualizer/AudioFilePlayer.cpp:295 | publishing the new write index makes the ring valid and equal to the abstract ring after the write |
| AnalysisRingClass.AnalysisRing.ReadRing | src/VCX/Apps/SphereAudioVisualizer/AudioFilePlayer.cpp:298-309 | copies `Read(old ring, maxSamples).samples` into the destination prefix, leaves the rest of the destination alone and advances the ring as `Read` does |
| AnalysisRingClass.AnalysisRing.GetLatestWindow | src/VCX/Apps/SphereAudioVisualizer/AudioFilePlayer.cpp:311-342 | a null destination does nothing; otherwise the destination receives `LatestWindow(...)`'s data and the ring becomes its `after` state |
| AnalysisRingClass.AnalysisRing.DiscardSamples | src/VCX/Apps/SphereAudioVisualizer/AudioFilePlayer.cpp:344-351 | the ring becomes `Discard(old ring, count)` |
| AnalysisRingClass.AnalysisRing.StoreBurst | src/VCX/Apps/SphereAudioVisualizer/AudioFilePlayer.cpp:290-294 | storing a burst into a ring with room for it puts input sample `start + k` in slot `(write + k) mod capacity` and leaves every slot holding a readable sample unchanged |
| AnalysisRingClass.AnalysisRing.CopyNewest | src/VCX/Apps/SphereAudioVisualizer/AudioFilePlayer.cpp:322-333 | the first `count` output entries are the `count` ring slots just before the write position, oldest first; the rest of the output is unchanged |
| AnalysisRingClass.AnalysisRing.ZeroFill | src/VCX/Apps/SphereAudioVisualizer/AudioFilePlayer.cpp:334-339 | entries `from` up to `to` of the output become zero; the entries before `from` and from `to` on are unchanged |
| PlayerModel.MonoMix | src/VCX/Apps/SphereAudioVisualizer/AudioFilePlayer.cpp:249-256 | one value per frame, each the mean of that frame's channels |
| PlayerModel.ToneFrames | src/VCX/Apps/SphereAudioVisualizer/AudioFilePlayer.cpp:210-212 | the sine sample is copied to every channel of its frame |
| PlayerModel.SineTone | src/VCX/Apps/SphereAudioVisualizer/AudioFilePlayer.cpp:204-214 | frame i of the fallback tone is `sin` of the i-th phase |
| PlayerModel.DecoderRead | src/VCX/Apps/SphereAudioVisualizer/AudioFilePlayer.cpp:229-231 | a failed decoder reads nothing and reports an error; otherwise the read takes `min(n, frames left)` frames, reads none exactly at the end, and reports success unless it is at the end with a non-success end status |
| PlayerModel.DecodeLoop | src/VCX/Apps/SphereAudioVisualizer/AudioFilePlayer.cpp:225-262 | the pull loop keeps the decoder's frames, plays at most `frameCount` whole frames, and plays exactly `frameCount` unless it paused |
| PlayerModel.PushChunks | src/VCX/Apps/SphereAudioVisualizer/AudioFilePlayer.cpp:248-257 | writing each run's mono mix to the ring, in order, keeps the ring invariant and its capacity |
| PlayerModel.ResetDecoder | src/VCX/Apps/SphereAudioVisualizer/AudioFilePlayer.cpp:73-79 | rewinding keeps the player invariant, sets the cursor to zero, seeks an initialised decoder to frame 0 without changing its length, and keeps the ring, the pause flag and the loop flag |
| PlayerModel.LoadOpened | src/VCX/Apps/SphereAudioVisualizer/AudioFilePlayer.cpp:144-162 | after a file opens the player satisfies its invariant, is paused at decoder frame 0 with an empty ring, and is loaded exactly when the device starts; otherwise it plays the sine tone |
| PlayerModel.Load | src/VCX/Apps/SphereAudioVisualizer/AudioFilePlayer.cpp:114-163 | loading keeps the invariant and empties the ring; it reports success exactly when the file opened and the device started |
| PlayerModel.Play | src/VCX/Apps/SphereAudioVisualizer/AudioFilePlayer.cpp:165-170 | play keeps the invariant and leaves the player paused only when it was paused and the device was neither running nor could be started; ring, cursor and decoder are unchanged |
| PlayerModel.Pause | src/VCX/Apps/SphereAudioVisualizer/AudioFilePlayer.cpp:172-174 | pause keeps the invariant, sets the pause flag, and keeps the ring, the cursor and the decoder |
| PlayerModel.Stop | src/VCX/Apps/SphereAudioVisualizer/AudioFilePlayer.cpp:176-180 | stop keeps the invariant, pauses, sets the cursor to zero, seeks an initialised decoder to frame 0 and keeps the ring |
| PlayerModel.SetLoop | src/VCX/Apps/SphereAudioVisualizer/AudioFilePlayer.cpp:182-184 | setting the loop flag keeps the invariant and changes only that flag |
| PlayerModel.SineStep | src/VCX/Apps/SphereAudioVisualizer/AudioFilePlayer.cpp:208-209 | the per-sample phase step is positive, and at most 2*pi when the sample rate is at least the tone frequency |
| PlayerModel.SineCallback | src/VCX/Apps/SphereAudioVisualizer/AudioFilePlayer.cpp:202-222 | the sine branch keeps the invariant, writes `frameCount * channels` samples, advances the cursor by `frameCount` frames and keeps the pause flag and the format |
| PlayerModel.DecoderCallback | src/VCX/Apps/SphereAudioVisualizer/AudioFilePlayer.cpp:225-262 | the decoder branch keeps the invariant, writes `frameCount` interleaved frames, and keeps the format |
| PlayerModel.HandleCallback | src/VCX/Apps/SphereAudioVisualizer/AudioFilePlayer.cpp:193-263 | each callback keeps the invariant, writes `frameCount * channels` samples and keeps the format; a paused player is left exactly as it was |
| PlayerModel.InitialInv | src/VCX/Apps/SphereAudioVisualizer/AudioFilePlayer.cpp:22-25 | the constructed player satisfies the player invariant |
| PlayerModel.LoadInv | src/VCX/Apps/SphereAudioVisualizer/AudioFilePlayer.cpp:114-163 | loading, successful or not, keeps the player invariant |
| PlayerModel.CallbackInv | src/VCX/Apps/SphereAudioVisualizer/AudioFilePlayer.cpp:193-263 | the audio callback keeps the player invariant |
| PlayerModel.LoadFailureFallsBack | src/VCX/Apps/SphereAudioVisualizer/AudioFilePlayer.cpp:130-141 | a file that does not open switches to the sine fallback at 48000 Hz stereo with an empty ring and zero length, and leaves the pause and loop flags as they were |
| PlayerModel.LoadSuccess | src/VCX/Apps/SphereAudioVisualizer/AudioFilePlayer.cpp:144-162 | an opened file takes the decoder's rate, channels and length, resets the ring and cursor, pauses, and counts as loaded exactly when the device starts |
| PlayerModel.LoadResult | src/VCX/Apps/SphereAudioVisualizer/AudioFilePlayer.cpp:114-163 | `LoadFile` returns true exactly when the file opens and the device starts, and its new state is the failure or the success state accordingly |
| PlayerModel.PlayUnpauses | src/VCX/Apps/SphereAudioVisualizer/AudioFilePlayer.cpp:165-170 | play unpauses unless the device is down and cannot be started, in which case nothing changes |
| PlayerModel.StopRewinds | src/VCX/Apps/SphereAudioVisualizer/AudioFilePlayer.cpp:176-180 | stop pauses, rewinds the cursor and the decoder, and leaves the ring alone |
| PlayerModel.SumReplicate | src/VCX/Apps/SphereAudioVisualizer/AudioFilePlayer.cpp:251-255 | a frame of n equal values sums to n times the value |
| PlayerModel.MonoOfUniform | src/VCX/Apps/SphereAudioVisualizer/AudioFilePlayer.cpp:216-219 | the mono mix of a sine frame is the sine sample itself, so the fallback pushes the same samples to the ring as to channel 0 |
| PlayerModel.FlattenAppend | src/VCX/Apps/SphereAudioVisualizer/AudioFilePlayer.cpp:259 | interleaved output of consecutive reads is the concatenation of their interleaved frames |
| PlayerModel.MonoMixAppend | src/VCX/Apps/SphereAudioVisualizer/AudioFilePlayer.cpp:249-257 | mixing consecutive reads separately equals mixing them together |
| PlayerModel.FlattenLength | src/VCX/Apps/SphereAudioVisualizer/AudioFilePlayer.cpp:196 | n interleaved frames occupy `n * channels` output slots |
| PlayerModel.FlattenIndex | src/VCX/Apps/SphereAudioVisualizer/AudioFilePlayer.cpp:211 | channel c of frame i sits at output index `i * channels + c` |
| PlayerModel.PhaseStaysInRange | src/VCX/Apps/SphereAudioVisualizer/AudioFilePlayer.cpp:208-209 | the wrapped sine phase stays in [0, 2π] |
| PlayerModel.DecodeLoopChunksPlayed | src/VCX/Apps/SphereAudioVisualizer/AudioFilePlayer.cpp:229-261 | the runs the pull loop read, joined in order, are exactly the frames it played |
| PlayerModel.PushChunksMono | src/VCX/Apps/SphereAudioVisualizer/AudioFilePlayer.cpp:248-257 | writing the runs one at a time leaves the same samples as one write of the mono mix of all of them |
| PlayerModel.DecodeLoopPushesMono | src/VCX/Apps/SphereAudioVisualizer/AudioFilePlayer.cpp:248-257 | the ring after the pull loop holds what one write of the mono mix of every frame played would leave |
| PlayerModel.DecodeLoopToEnd | src/VCX/Apps/SphereAudioVisualizer/AudioFilePlayer.cpp:237-245 | without looping the callback plays the next `min(frameCount, frames left)` frames and pauses exactly when the stream runs out first |
| PlayerModel.DecodeLoopWraps | src/VCX/Apps/SphereAudioVisualizer/AudioFilePlayer.cpp:237-241 | with looping on a non-empty stream whose end read succeeds, the callback never pauses and always plays `frameCount` frames; after a rewind the cursor equals the decoder position |
| PlayerModel.DecodeLoopCursorAfterRewind | src/VCX/Apps/SphereAudioVisualizer/AudioFilePlayer.cpp:238-241 | once the cursor equals the decoder position (after a rewind), it stays equal |
| PlayerModel.DecodeLoopFromEnd | src/VCX/Apps/SphereAudioVisualizer/AudioFilePlayer.cpp:237-241 | a looping callback that starts at the end of the stream rewinds, and the cursor then tracks the decoder |
| PlayerModel.DecodeLoopFails | src/VCX/Apps/SphereAudioVisualizer/AudioFilePlayer.cpp:231-235 | a failing decoder pauses the player and reads nothing |
| PlayerModel.DecodeLoopEndStatusStops | src/VCX/Apps/SphereAudioVisualizer/AudioFilePlayer.cpp:229-245 | when the end read does not report success, a looping callback behaves exactly as a non-looping one: it plays the next `min(frameCount, frames left)` frames and pauses exactly when the stream runs out |
| PlayerModel.PausedCallbackIsSilent | src/VCX/Apps/SphereAudioVisualizer/AudioFilePlayer.cpp:196-200 | a paused player outputs `frameCount * channels` zeros and changes nothing |
| PlayerModel.DecoderCallbackLayout | src/VCX/Apps/SphereAudioVisualizer/AudioFilePlayer.cpp:196-262 | the decoder callback outputs the played frames interleaved, then zeros; the ring gains their mono mix; the player pauses as the pull loop says |
| PlayerModel.SineCallbackLayout | src/VCX/Apps/SphereAudioVisualizer/AudioFilePlayer.cpp:202-222 | the fallback callback puts `sin(phase_i)` on every channel of frame i, writes the tone to the ring and advances the cursor by `frameCount` |
| PlayerModel.CallbackDispatch | src/VCX/Apps/SphereAudioVisualizer/AudioFilePlayer.cpp:198-227 | an unpaused callback takes the sine path when the fallback is on or no decoder is open, and the decoder path otherwise |
| FilePlayer.AudioFilePlayer.constructor | src/VCX/Apps/SphereAudioVisualizer/AudioFilePlayer.cpp:22-25 | the new player is the initial state (48000 Hz stereo, paused, sine fallback, ring reset) |
| FilePlayer.AudioFilePlayer.ResetDecoderState | src/VCX/Apps/SphereAudioVisualizer/AudioFilePlayer.cpp:73-79 | zero cursor and phase; an open decoder is rewound to frame 0 |
| FilePlayer.AudioFilePlayer.LoadFile | src/VCX/Apps/SphereAudioVisualizer/AudioFilePlayer.cpp:114-163 | the player's new state and result are those of `Load(old state, outcome, deviceOk)` |
| FilePlayer.AudioFilePlayer.LoadFailedFile | src/VCX/Apps/SphereAudioVisualizer/AudioFilePlayer.cpp:130-141 | a file that does not open leaves the player in the sine-fallback state with the default format, keeping the object invariant; the same ring object is reset to 48000 Hz and empty |
| FilePlayer.AudioFilePlayer.LoadOpenedFile | src/VCX/Apps/SphereAudioVisualizer/AudioFilePlayer.cpp:144-162 | a file that opens leaves the player in the `LoadOpened` state for its format, and the result is whether the device started |
| FilePlayer.AudioFilePlayer.StartAfterLoad | src/VCX/Apps/SphereAudioVisualizer/AudioFilePlayer.cpp:150-162 | after a successful open the player is paused; it is loaded and off the sine tone exactly when the device starts, and falls back to the sine tone otherwise |
| FilePlayer.AudioFilePlayer.Play | src/VCX/Apps/SphereAudioVisualizer/AudioFilePlayer.cpp:165-170 | from a valid player, play keeps the object invariant and the same ring object, writes only the pause and device flags, and the new state is `Play(old state)`: unpaused unless the device is down and cannot start |
| FilePlayer.AudioFilePlayer.Pause | src/VCX/Apps/SphereAudioVisualizer/AudioFilePlayer.cpp:172-174 | from a valid player, pause keeps the object invariant and the same ring object, writes only the pause flag, and the new state is `Pause(old state)` |
| FilePlayer.AudioFilePlayer.Stop | src/VCX/Apps/SphereAudioVisualizer/AudioFilePlayer.cpp:176-180 | from a valid player, stop keeps the object invariant and the same ring object, writes only the pause flag, cursor, sine phase and decoder, and the new state is `Stop(old state)`: paused and rewound |
| FilePlayer.AudioFilePlayer.SetLoop | src/VCX/Apps/SphereAudioVisualizer/AudioFilePlayer.cpp:182-184 | from a valid player, setting the loop flag keeps the object invariant and the same ring object, writes only that flag, and the new state is `SetLoop(old state, value)` |
| FilePlayer.AudioFilePlayer.Reformat | src/VCX/Apps/SphereAudioVisualizer/AudioFilePlayer.cpp:144-149 | adopting the opened format keeps the object invariant, stores the new rate, channel count and length, resets the ring for the new rate, zeroes cursor and sine phase, and seeks an initialised decoder to frame 0 |
| KissFft.Divisor | src/3rdparty/kissfft/kiss_fft.cpp:246-253 | the inner trial loop settles on a divisor of n between 2 and n |
| KissFft.FactorsAsWritten | src/3rdparty/kissfft/kiss_fft.cpp:242-258 | the factor list as written holds whole (radix, rest) pairs and is empty exactly when `n <= 1` or the first trial divisor already exceeds `n` |
| KissFft.Factors | src/3rdparty/kissfft/kiss_fft.cpp:242-258 | the corrected factor list holds whole (radix, rest) pairs and is empty exactly when `n <= 1` |
| KissFft.Plan | src/3rdparty/kissfft/kiss_fft.cpp:242-258 | for every length from 1 to `INT_MAX` the plan fits the 64-slot factor array, each pair divides the remaining length, and the last remaining length is 1 |
| KissFft.AsWrittenIsChain | src/3rdparty/kissfft/kiss_fft.cpp:242-258 | every recorded pair (p, m) splits the previous remainder as p * m |
| KissFft.AsWrittenStops | src/3rdparty/kissfft/kiss_fft.cpp:245 | the loop as written stops with a remainder of 1 or with a trial divisor larger than the remainder |
| KissFft.FactorsComplete | src/3rdparty/kissfft/kiss_fft.cpp:242-258 | with the loop running while `n > 1`, the plan is a chain that ends with remainder 1 for every n ≥ 1 |
| KissFft.PowerOfFourCompletes | src/3rdparty/kissfft/kiss_fft.cpp:245 | for powers of 4 the loop as written and the corrected loop agree and factor completely |
| KissFft.TwiceFourPowerStopsAtTwo | src/3rdparty/kissfft/kiss_fft.cpp:245 | for `2 * 4^k` the loop as written stops with 2 left unfactored |
| KissFft.FiveTwelveAndTwoThousandFortyEight | src/3rdparty/kissfft/kiss_fft.cpp:245 | the plans of 512 and 2048 as written end with m = 2 and no radix-2 stage |
| KissFft.FiveTwelveAsWritten | src/3rdparty/kissfft/kiss_fft.cpp:245 | the plan of 512 as written is [4,128, 4,32, 4,8, 4,2], which stops with m = 2 |
| KissFft.FiveTwelveCorrected | src/3rdparty/kissfft/kiss_fft.cpp:242-258 | the corrected plan of 512 ends with the pair (2, 1) |
| KissFft.PlanLength | src/3rdparty/kissfft/kiss_fft.cpp:254-256 | each step records two entries and at least halves n, so a plan of 2k entries needs n ≥ 2^k |
| KissFft.PlanFits | src/3rdparty/kissfft/kiss_fft.cpp:287 | for any `int` size both plans fit the 64-slot `factors` array |
| KissFft.NextDivisor | src/3rdparty/kissfft/kiss_fft.cpp:246-253 | the inner loop returns `Divisor(n, p)`, a divisor of n in [2, n] |
| KissFft.KfFactor | src/3rdparty/kissfft/kiss_fft.cpp:242-258 | the array written is the as-written plan, and slots after it are untouched |
| KissFft.StorePair | src/3rdparty/kissfft/kiss_fft.cpp:255-256 | storing a factor pair writes `p, m` at positions `i, i+1` and leaves every later slot unchanged |
| KissFft.TwoQuarterSteps | src/3rdparty/kissfft/kiss_fft.cpp:245-256 | two radix-4 steps on `16 m` record the pairs (4, 4m) and (4, m) before the plan of m, both as written and corrected |
| KissFft.MemNeeded | src/3rdparty/kissfft/kiss_fft.cpp:262 | `memneeded` wraps modulo 2^64 and equals the state plus nfft − 1 twiddles for positive sizes |
| KissFft.Alloc | src/3rdparty/kissfft/kiss_fft.cpp:260-283 | with caller memory the call reports `memneeded` in `*lenmem` and succeeds exactly when the buffer is large enough; otherwise it succeeds exactly when malloc does and leaves `*lenmem` alone; a configuration records nfft and the direction |
| KissFft.Stride | src/3rdparty/kissfft/kiss_fft.cpp:285-289 | a null configuration does nothing; otherwise `kf_work` receives the as-written plan, which fits the 64 slots and is a chain that stops at 1 or below its last trial divisor; for 512 and 2048 it stops at m = 2, for 1024 and 4096 at m = 1 |
| KissFft.StrideCorrected | src/3rdparty/kissfft/kiss_fft.cpp:242-289 | with the loop running while `n > 1`, the plan `kf_work` receives fits the 64 slots and factors nfft completely down to m = 1 |
| AppSelection.LastSelectionAppend | src/VCX/Apps/main.cpp:15-23 | folding the options left to right: an earlier selection is overridden by a later one |
| AppSelection.Scan | src/VCX/Apps/main.cpp:15-23 | the scan keeps the default when no remaining argument is `--app` or starts with `--app=`; otherwise its result is the default or a name some argument selects |
| AppSelection.LastSelection | src/VCX/Apps/main.cpp:15-23 | over a token list, the result is the default when no token selects, and otherwise the default or a name some token selects |
| AppSelection.Lookup | src/VCX/Apps/main.cpp:31-42 | the registry knows exactly `spherevis` and `volumefx`, and `volumefx` maps to the runner that reports it unavailable |
| AppSelection.LastOccurrenceWins | src/VCX/Apps/main.cpp:13-25 | the parse returns the value of the last `--app NAME` or `--app=NAME` option, or the default when there is none |
| AppSelection.ParseSelectedApp | src/VCX/Apps/main.cpp:13-25 | the scanning loop returns exactly the last selection, defaulting to `spherevis` |
| AppSelection.SelectionExamples | src/VCX/Apps/main.cpp:14-22 | no options gives `spherevis`; both spellings select; `--app=` selects the empty name; a trailing `--app` and a null argument are ignored; the later option wins |
| AppSelection.Launch | src/VCX/Apps/main.cpp:28-46 | `volumefx` runs the stub that exits with 1; every other name, known or unknown, runs `spherevis` and returns its exit code |
| WavFormat.Le16 | src/VCX/Apps/VolumeFX/AudioInput.cpp:127-139 | little-endian encoding inverts little-endian decoding |
| WavFormat.DecodeFmt | src/VCX/Apps/VolumeFX/AudioInput.cpp:132-139 | the decoded `fmt` fields fit their 16- and 32-bit widths |
| WavFormat.WalkChunks | src/VCX/Apps/VolumeFX/AudioInput.cpp:152-181 | a successful walk never loses a `fmt` chunk already found, returns the starting format when none is found, and returns a data payload no longer than the file |
| WavFormat.Le32 | src/VCX/Apps/VolumeFX/AudioInput.cpp:127-139 | little-endian encoding inverts little-endian decoding |
| WavFormat.S16At | src/VCX/Apps/VolumeFX/AudioInput.cpp:224-225 | a two-byte sample reads as a signed 16-bit value |
| WavFormat.DecodeEncodeFmt | src/VCX/Apps/VolumeFX/AudioInput.cpp:132-139 | decoding the 16 bytes of an encoded `fmt ` body gives back its fields |
| WavFormat.Validate | src/VCX/Apps/VolumeFX/AudioInput.cpp:183-208 | the file is accepted exactly when a `fmt ` chunk came before a `data` chunk, the format is PCM 16-bit, channels, block align and sample rate are non-zero and the data holds at least one sample |
| WavFormat.Parse | src/VCX/Apps/VolumeFX/AudioInput.cpp:109-208 | a file without `RIFF` fails with the header error; an accepted file starts with `RIFF`…`WAVE` and has a valid PCM 16-bit format and data |
| WavFormat.ChunkHeaderAt | src/VCX/Apps/VolumeFX/AudioInput.cpp:127-130 | a chunk encodes its id and little-endian size before its payload |
| WavFormat.SkipsOtherChunk | src/VCX/Apps/VolumeFX/AudioInput.cpp:146-180 | an unknown chunk is skipped together with its pad byte |
| WavFormat.ReadsFmtChunk | src/VCX/Apps/VolumeFX/AudioInput.cpp:155-167 | a `fmt ` chunk records its format and marks it found |
| WavFormat.StopsAtDataChunk | src/VCX/Apps/VolumeFX/AudioInput.cpp:168-175 | the walk stops at the first `data` chunk and returns its payload |
| WavFormat.WalkAtData | src/VCX/Apps/VolumeFX/AudioInput.cpp:168-175 | a `data` header whose payload fits yields exactly that payload |
| WavFormat.ParseEncodeWav | src/VCX/Apps/VolumeFX/AudioInput.cpp:109-208 | parsing a RIFF file with a `fmt `, an unknown and a `data` chunk gives the validation of that format and data |
| WavFormat.ParseEncodePcm16 | src/VCX/Apps/VolumeFX/AudioInput.cpp:183-208 | round trip: a valid PCM 16-bit file parses back to its format and data; a non-PCM-16 file fails as unsupported; an empty data chunk fails as having no samples |
| WavFormat.DataBeforeFmtRefused | src/VCX/Apps/VolumeFX/AudioInput.cpp:183-186 | a `data` chunk before any `fmt ` chunk is refused as a missing chunk |
| WavFormat.FrameSum | src/VCX/Apps/VolumeFX/AudioInput.cpp:218-226 | the sum of c signed 16-bit samples lies in [−32768c, 32767c] |
| WavFormat.TotalSamples | src/VCX/Apps/VolumeFX/AudioInput.cpp:204 | the sample count is the number of whole 16-bit samples in the data chunk: `2n <= |data| < 2n + 2` |
| WavFormat.FrameCount | src/VCX/Apps/VolumeFX/AudioInput.cpp:210 | the frame count is the number of whole frames: `n * channels <= samples < (n + 1) * channels` |
| WavFormat.EnvStep | src/VCX/Apps/VolumeFX/AudioInput.cpp:228-230 | one envelope step lands between the old level and the frame magnitude, rises toward a louder frame, falls toward a quieter one, and stays put on an equal one |
| WavFormat.FrameSumStops | src/VCX/Apps/VolumeFX/AudioInput.cpp:221-223 | samples beyond the data are not summed (the bound check ends the channel loop) |
| WavFormat.Magnitude | src/VCX/Apps/VolumeFX/AudioInput.cpp:218-228 | the magnitude of a frame's mean, scaled by 32768, lies in [0, 1] |
| WavFormat.Envelope | src/VCX/Apps/VolumeFX/AudioInput.cpp:210-232 | one envelope value per frame, each in [0, 1] |
| WavFormat.EnvelopeFollows | src/VCX/Apps/VolumeFX/AudioInput.cpp:228-231 | each envelope value moves from the previous one toward the frame magnitude with the attack rate when rising and the release rate when falling, staying between the two |
| WavFormat.EnvelopePrefix | src/VCX/Apps/VolumeFX/AudioInput.cpp:218-232 | the envelope of the first n frames is a prefix of the envelope of more frames |
| WavFormat.SilentEnvelope | src/VCX/Apps/VolumeFX/AudioInput.cpp:210-232 | silent audio has an all-zero envelope |
| VolumeFxAudio.SamplePosition | src/VCX/Apps/VolumeFX/AudioInput.cpp:254-262 | the sample position is never negative |
| VolumeFxAudio.Interpolate | src/VCX/Apps/VolumeFX/AudioInput.cpp:263-269 | past the last envelope point the last value is returned; before it the value lies between the two neighbouring points |
| VolumeFxAudio.SampleEnvelope | src/VCX/Apps/VolumeFX/AudioInput.cpp:249-270 | an empty envelope or a non-positive rate gives 0; a time at or before zero gives the first envelope value |
| VolumeFxAudio.GainScale | src/VCX/Apps/VolumeFX/AudioInput.cpp:304-305 | the modulation factor is 1 when the depth is not positive or the modulation is zero, and at least 1 for a non-negative modulation |
| VolumeFxAudio.InterpolateBounded | src/VCX/Apps/VolumeFX/AudioInput.cpp:263-269 | linear interpolation between envelope values stays in [0, 1] |
| VolumeFxAudio.SampleEnvelopeBounded | src/VCX/Apps/VolumeFX/AudioInput.cpp:249-270 | the sampled level stays in [0, 1] |
| VolumeFxAudio.SampleEnvelopeAtSample | src/VCX/Apps/VolumeFX/AudioInput.cpp:249-270 | at time k / rate the sampled level is exactly envelope value k |
| VolumeFxAudio.SamplePositionAtSample | src/VCX/Apps/VolumeFX/AudioInput.cpp:254-262 | time k / rate maps to sample position k |
| VolumeFxAudio.InterpolateAtIndex | src/VCX/Apps/VolumeFX/AudioInput.cpp:263-269 | interpolating at a whole index returns that envelope value |
| VolumeFxAudio.AdvanceTime | src/VCX/Apps/VolumeFX/AudioInput.cpp:275-282 | a looping clock wraps into [0, duration); a non-looping clock stops at the duration; without audio it just advances |
| VolumeFxAudio.PhaseAfter | src/VCX/Apps/VolumeFX/AudioInput.cpp:289-295 | the oscillator phase stays non-negative and wraps below 2π once it passes 2π |
| VolumeFxAudio.VisualizationGain | src/VCX/Apps/VolumeFX/AudioInput.cpp:299-306 | with auto gain the gain lies in [0.05, 8]; without it the gain is the base gain |
| VolumeFxAudio.GainScaleBounds | src/VCX/Apps/VolumeFX/AudioInput.cpp:304-305 | the modulation factor lies in [1, 3], grows with the level and is 1 at silence |
| VolumeFxAudio.AutoGainBetweenBaseAndCap | src/VCX/Apps/VolumeFX/AudioInput.cpp:299-306 | for a base gain in range the auto gain lies between the base and `min(8, 3 * base)`, equals the base at silence and never decreases as the level rises |
| VolumeFxAudio.RatioFacts | src/VCX/Apps/VolumeFX/AudioInput.cpp:384-389 | time / duration lies in [0, 1] inside the clip and is at least 1 past its end |
| VolumeFxAudio.AudioInput.ReadChunks | src/VCX/Apps/VolumeFX/AudioInput.cpp:152-181 | the chunk loop computes the same result as the chunk walk from the end of the RIFF header |
| VolumeFxAudio.AudioInput.SkipChunk | src/VCX/Apps/VolumeFX/AudioInput.cpp:176-180 | skipping a chunk moves to its body start plus its size rounded up to even |
| VolumeFxAudio.AudioInput.SumFrame | src/VCX/Apps/VolumeFX/AudioInput.cpp:219-226 | the channel loop computes the signed sum of the frame's samples, the frame sum whose absolute mean is taken afterwards |
| VolumeFxAudio.AudioInput.BuildEnvelope | src/VCX/Apps/VolumeFX/AudioInput.cpp:210-232 | the frame loop computes the envelope of all whole frames |
| VolumeFxAudio.AudioInput.ReadWav | src/VCX/Apps/VolumeFX/AudioInput.cpp:109-208 | the parsing code computes the same result as the WAV parse function |
| VolumeFxAudio.AudioInput.constructor | src/VCX/Apps/VolumeFX/AudioInput.h:51-66 | nothing loaded, loop on, gains 1, auto gain on with depth 0.35 and speed 1.2, status "No audio loaded." |
| VolumeFxAudio.AudioInput.StopPlayback | src/VCX/Apps/VolumeFX/AudioInput.cpp:45-50 | playback stops |
| VolumeFxAudio.AudioInput.StartPlayback | src/VCX/Apps/VolumeFX/AudioInput.cpp:52-68 | playing exactly when a path is set and the system player starts; a failed start sets the failure status |
| VolumeFxAudio.AudioInput.ResetForLoad | src/VCX/Apps/VolumeFX/AudioInput.cpp:84-90 | a load starts by stopping playback and clearing the envelope, rate, duration, level and clock |
| VolumeFxAudio.AudioInput.Install | src/VCX/Apps/VolumeFX/AudioInput.cpp:210-245 | an accepted file installs its envelope, rate and duration, and the status reports channels, rate and duration |
| VolumeFxAudio.AudioInput.LoadAudioFile | src/VCX/Apps/VolumeFX/AudioInput.cpp:83-247 | the load succeeds exactly when the file opens and parses; on success the envelope and timing come from the parsed data; on failure the audio is cleared and the status names the error; playback is stopped either way |
| VolumeFxAudio.AudioInput.LoadFromPath | src/VCX/Apps/VolumeFX/AudioInput.cpp:70-81 | an empty path changes nothing but the status; otherwise the load decides success, a successful load installs the envelope, rate, duration and path and starts playback (status `PlayFailed` when the player refuses), and a failed load leaves the reset state with the error status |
| VolumeFxAudio.AudioInput.AdvanceClock | src/VCX/Apps/VolumeFX/AudioInput.cpp:275-282 | the mock clock becomes `AdvanceTime(old clock, ...)` |
| VolumeFxAudio.AudioInput.AdvanceOscillator | src/VCX/Apps/VolumeFX/AudioInput.cpp:289-295 | the phase becomes `PhaseAfter(old phase, ...)` |
| VolumeFxAudio.AudioInput.Update | src/VCX/Apps/VolumeFX/AudioInput.cpp:272-307 | the base gain is clamped, the clock advances; with audio the level is the envelope sampled at the clock, without audio it follows the oscillator; the level is in [0, 1] and the gain is `VisualizationGain` of it |
| VolumeFxAudio.AudioInput.ApplyGain | src/VCX/Apps/VolumeFX/AudioInput.cpp:299-306 | the visualisation gain is recomputed from the level |
| VolumeFxAudio.AudioInput.Clear | src/VCX/Apps/VolumeFX/AudioInput.cpp:309-320 | clear stops playback and resets audio, path, timing, phase and status |
| VolumeFxAudio.AudioInput.SetLoop | src/VCX/Apps/VolumeFX/AudioInput.cpp:322-330 | sets the loop flag; a change while playing loaded audio restarts the player |
| VolumeFxAudio.AudioInput.SetBaseGain | src/VCX/Apps/VolumeFX/AudioInput.cpp:336-338 | the base gain is clamped into [0.1, 4] and kept when already in range |
| VolumeFxAudio.AudioInput.RestartPlayback | src/VCX/Apps/VolumeFX/AudioInput.cpp:403-407 | loaded audio restarts; without audio nothing changes |
| VolumeFxAudio.AudioInput.PlaybackRatio | src/VCX/Apps/VolumeFX/AudioInput.cpp:384-389 | the ratio lies in [0, 1], is 0 without a duration, time / duration inside the clip and 1 past its end |
| Spectral.ClampFftIndex | src/VCX/Apps/SphereAudioVisualizer/App.cpp:92-94 | the index is clamped into the four FFT sizes and kept when valid |
| Spectral.CurrentFftSize | src/VCX/Apps/SphereAudioVisualizer/App.cpp:96-98 | the selected size is one of 512, 1024, 2048, 4096 |
| Spectral.HalfOf | src/VCX/Apps/SphereAudioVisualizer/App.cpp:157 | half the FFT size is truncated division by 2: for a non-negative size `2h <= fftSize <= 2h + 1`, for a negative one `2h - 1 <= fftSize <= 2h <= 0` |
| Spectral.LinearBand | src/VCX/Apps/SphereAudioVisualizer/App.cpp:160-166 | a linear band is a non-empty bin range inside [0, half) |
| Spectral.LogBand | src/VCX/Apps/SphereAudioVisualizer/App.cpp:168-181 | a logarithmic band is a non-empty bin range inside [0, half) |
| Spectral.LogPointEnds | src/VCX/Apps/SphereAudioVisualizer/App.cpp:175-176 | the log-frequency interpolation yields `log fMin` at `t = 0` and `log fMax` at `t = 1` |
| Spectral.LogEdgeEnds | src/VCX/Apps/SphereAudioVisualizer/App.cpp:168-178 | when `exp` inverts `log`, band 0 starts at the bin of `max(minFrequency, 1)` and band `numBands` ends at the bin of `max(fMin, nyquist)` |
| Spectral.ComputeBandRange | src/VCX/Apps/SphereAudioVisualizer/App.cpp:156-182 | a degenerate FFT gives the range [0, 1); otherwise every band is a non-empty range within the first half of the bins |
| Spectral.LinearBandExact | src/VCX/Apps/SphereAudioVisualizer/App.cpp:161-162 | with no more bands than bins, the linear edges are `b * half / n` and `(b + 1) * half / n` |
| Spectral.LinearBandsPartition | src/VCX/Apps/SphereAudioVisualizer/App.cpp:160-166 | linear bands tile the bins: the first starts at 0, the last ends at half, and each ends where the next starts |
| Spectral.LogBandsCoverAndOverlap | src/VCX/Apps/SphereAudioVisualizer/App.cpp:177-178 | adjacent log bands leave no gap (floor of a start, ceiling of an end), and they share a bin when the edge frequency is not a whole bin |
| Spectral.BinsMax | src/VCX/Apps/SphereAudioVisualizer/App.cpp:188-192 | the max aggregate is at least 0 and at least every bin in range |
| Spectral.BinsMaxAttained | src/VCX/Apps/SphereAudioVisualizer/App.cpp:188-192 | the max aggregate is 0 or one of the bins |
| Spectral.BinsMin | src/VCX/Apps/SphereAudioVisualizer/App.cpp:993-997 | the running minimum is at most its start value and every element |
| Spectral.BinsMinAttained | src/VCX/Apps/SphereAudioVisualizer/App.cpp:993-997 | the running minimum is its start value or one of the elements |
| Spectral.SumBounds | src/VCX/Apps/SphereAudioVisualizer/App.cpp:194-198 | a sum of values in [a, b] lies between count·a and count·b |
| Spectral.MeanBounds | src/VCX/Apps/SphereAudioVisualizer/App.cpp:194-199 | the mean of values in [a, b] lies in [a, b] |
| Spectral.SumBins | src/VCX/Apps/SphereAudioVisualizer/App.cpp:194-198 | the summing loop computes the bin sum |
| Spectral.AggregateBand | src/VCX/Apps/SphereAudioVisualizer/App.cpp:184-201 | an empty range or spectrum gives 0; otherwise the range is clamped to the spectrum and the result is the max of those bins or their mean (no value when clamping leaves no bin, where C++ divides 0 by 0) |
| Spectral.AggregateMeaning | src/VCX/Apps/SphereAudioVisualizer/App.cpp:184-201 | the max aggregate bounds every bin and is one of them (or 0); the mean stays within the bins' bounds |
| Spectral.CompressionKeepsOrder | src/VCX/Apps/SphereAudioVisualizer/App.cpp:203-206 | log compression is non-negative and keeps the order of magnitudes; a non-positive strength gives 0 |
| Spectral.ApplyCompression | src/VCX/Apps/SphereAudioVisualizer/App.cpp:203-206 | with compression off or a zero magnitude the result is `log1p(0)` |
| Spectral.AgcTargetGain | src/VCX/Apps/SphereAudioVisualizer/App.cpp:209-210 | the AGC target lies in [1 / maxGain, maxGain] and is maxGain at silence |
| Spectral.AgcTau | src/VCX/Apps/SphereAudioVisualizer/App.cpp:211-212 | the attack time is used when the gain must rise, the release time otherwise, never below the minimum |
| Spectral.UpdateAgcGain | src/VCX/Apps/SphereAudioVisualizer/App.cpp:208-216 | the updated AGC gain lies in [1 / maxGain, maxGain] |
| Spectral.AgcMovesTowardTarget | src/VCX/Apps/SphereAudioVisualizer/App.cpp:208-216 | one AGC step moves the gain from the current gain toward the target and never past it |
| Spectral.WindowTypeRoundTrip | src/VCX/Apps/SphereAudioVisualizer/App.cpp:218-238 | parsing a window type's name gives it back, and every accepted string is that name |
| Spectral.TryParseWindowType | src/VCX/Apps/SphereAudioVisualizer/App.cpp:228-238 | succeeds exactly on a known name and leaves `out` unchanged on failure |
| Spectral.MappingTypeRoundTrip | src/VCX/Apps/SphereAudioVisualizer/App.cpp:240-260 | parsing a mapping type's name gives it back, and every accepted string is that name |
| Spectral.TryParseMappingType | src/VCX/Apps/SphereAudioVisualizer/App.cpp:250-260 | succeeds exactly on a known name and leaves `out` unchanged on failure |
| Spectral.TransferPresetRoundTrip | src/VCX/Apps/SphereAudioVisualizer/App.cpp:262-288 | parsing a preset's name gives it back, and every accepted string is that name |
| Spectral.TryParseTransferPreset | src/VCX/Apps/SphereAudioVisualizer/App.cpp:274-288 | succeeds exactly on a known name and leaves `out` unchanged on failure |
| Spectral.ColorModeRoundTrip | src/VCX/Apps/SphereAudioVisualizer/App.cpp:298-318 | parsing a colour mode's name gives it back, and every accepted string is that name |
| Spectral.TryParseColorMode | src/VCX/Apps/SphereAudioVisualizer/App.cpp:308-318 | succeeds exactly on a known name and leaves `out` unchanged on failure |
| Spectral.NormalizedStatsOrdered | src/VCX/Apps/SphereAudioVisualizer/App.cpp:1019-1032 | after normalisation min ≤ mean ≤ max within [0, 1], and all three are 0 without bands |
| Spectral.StatsOf | src/VCX/Apps/SphereAudioVisualizer/App.cpp:992-1005 | the statistics of an empty vector are zero; otherwise min is at most the initial minimum, max is at least 0, min <= avg <= max, and every entry lies between min and max |
| Spectral.NormalizationGain | src/VCX/Apps/SphereAudioVisualizer/App.cpp:1007-1014 | with AGC the gain lies in `[1/maxGain, maxGain]`; without it the gain is positive, scales a peak above the silence threshold to exactly 1, and is 1 otherwise |
| Spectral.BassLevel | src/VCX/Apps/SphereAudioVisualizer/App.cpp:1034-1039 | the bass level is 0 for no bands, the mean of the first three bands when there are at least three, and within `[0, 1]` when all bands are |
| Spectral.AnalysisState.EnergyStats | src/VCX/Apps/SphereAudioVisualizer/App.cpp:992-1005 | the statistics loop computes the statistics function of the band vector |
| Spectral.Scaled | src/VCX/Apps/SphereAudioVisualizer/App.cpp:1015-1017 | each band becomes its gain-scaled value clamped to [0, 1] |
| Spectral.PeakNormalizesToOne | src/VCX/Apps/SphereAudioVisualizer/App.cpp:1011-1017 | without AGC the loudest band is normalised to exactly 1, and so is the maximum statistic |
| Spectral.NormalizationExample | src/VCX/Apps/SphereAudioVisualizer/App.cpp:1011-1017 | without AGC the bands 0.2, 0.4, 0.1 normalise to 0.5, 1, 0.25 |
| Spectral.AnalysisState.ScaleBands | src/VCX/Apps/SphereAudioVisualizer/App.cpp:1015-1017 | the bands become `Scaled(old bands, gain)` |
| Spectral.AnalysisState.Normalize | src/VCX/Apps/SphereAudioVisualizer/App.cpp:1007-1039 | the bands are scaled by the AGC gain or by 1 / peak; the statistics are those of the new bands, ordered in [0, 1]; the bass level is the mean of the first three bands |
| Spectral.AnalysisState.ChooseGain | src/VCX/Apps/SphereAudioVisualizer/App.cpp:1007-1014 | the gain is the AGC update when enabled (and stored), otherwise 1 / peak above 1e-6 or 1, with the stored AGC gain reset to 1 |
| Spectral.AnalysisState.UpdateBass | src/VCX/Apps/SphereAudioVisualizer/App.cpp:1034-1039 | the bass level is the mean of the first up to three bands and lies in [0, 1] |
| Spectral.BinEdge | src/VCX/Apps/SphereAudioVisualizer/App.cpp:136-139 | a downsampling edge is `n * i / target` |
| Spectral.BinEdgeExact | src/VCX/Apps/SphereAudioVisualizer/App.cpp:136-139 | the floor of `step * i` equals the integer quotient `n * i / target` |
| Spectral.DownsampleBin | src/VCX/Apps/SphereAudioVisualizer/App.cpp:136-147 | an empty source gives 0; when downsampling, bin `i` covers a non-empty source range and is the mean of the source values in it |
| Spectral.DownsampleSpectrum | src/VCX/Apps/SphereAudioVisualizer/App.cpp:130-149 | an empty input or target gives an empty output; otherwise `target` values, each the downsampled bin |
| Spectral.DownsamplePartition | src/VCX/Apps/SphereAudioVisualizer/App.cpp:136-139 | when the target is at most the input size the edges start at 0, end at n and strictly increase, so the buckets tile the spectrum |
| Spectral.DownsampleWithinRange | src/VCX/Apps/SphereAudioVisualizer/App.cpp:130-149 | every downsampled value lies within the bounds of the input |
| ParallelCoordinates.ColumnMin | src/VCX/Labs/5-Visualization/tasks.cpp:51-59 | the running minimum starts at FLT_MAX and is at most every value of the axis |
| ParallelCoordinates.ReadAttribute | src/VCX/Labs/5-Visualization/tasks.cpp:31-42 | an axis outside 0..6 reads as 0 |
| ParallelCoordinates.AxisRange | src/VCX/Labs/5-Visualization/tasks.cpp:44-71 | an empty data set gives the range `(0, 1)`, and every range is at least the degenerate-range width |
| ParallelCoordinates.ColumnMax | src/VCX/Labs/5-Visualization/tasks.cpp:51-59 | the running maximum starts at −FLT_MAX and is at least every value of the axis |
| ParallelCoordinates.ColumnMinAttained | src/VCX/Labs/5-Visualization/tasks.cpp:51-59 | for non-empty finite data the minimum is one of the values |
| ParallelCoordinates.ColumnMaxAttained | src/VCX/Labs/5-Visualization/tasks.cpp:51-59 | for non-empty finite data the maximum is one of the values |
| ParallelCoordinates.RangesContainData | src/VCX/Labs/5-Visualization/tasks.cpp:44-71 | empty data gives [0, 1]; every value lies inside its axis range; a range narrower than 1e-4 is widened to length 1; every range is at least 1e-4 wide |
| ParallelCoordinates.Normalized | src/VCX/Labs/5-Visualization/tasks.cpp:76-79 | the normalised value lies in [0, 1] |
| ParallelCoordinates.NormalizedIsMonotone | src/VCX/Labs/5-Visualization/tasks.cpp:76-79 | normalisation keeps order, maps the range ends to 0 and 1 and is linear inside the range |
| ParallelCoordinates.AxisPoint | src/VCX/Labs/5-Visualization/tasks.cpp:84-88 | axis i sits at `origin.x + i * spacing`; value 1 is at the top and value 0 at the bottom |
| ParallelCoordinates.AxisPointOnAxis | src/VCX/Labs/5-Visualization/tasks.cpp:84-88 | normalised values map into the axis, larger values higher |
| ParallelCoordinates.Projection | src/VCX/Labs/5-Visualization/tasks.cpp:94-95 | the clamped projection parameter lies in [0, 1] |
| ParallelCoordinates.SegmentDistance2 | src/VCX/Labs/5-Visualization/tasks.cpp:90-98 | the squared distance is non-negative |
| ParallelCoordinates.PointSegmentDistance | src/VCX/Labs/5-Visualization/tasks.cpp:93 | a segment of one point gives the distance to that point |
| ParallelCoordinates.SegmentDistanceIsMinimal | src/VCX/Labs/5-Visualization/tasks.cpp:90-98 | for a segment whose squared length is at least `1e-8` (the projecting case), the distance returned is at most the distance to any point of the segment |
| ParallelCoordinates.MinSegment | src/VCX/Labs/5-Visualization/tasks.cpp:113-121 | a row's distance is the least of its six segment distances, and is attained by one of them |
| ParallelCoordinates.RowDistance | src/VCX/Labs/5-Visualization/tasks.cpp:113-121 | a row's distance is at most its distance to each of its six segments |
| ParallelCoordinates.ColumnStep | src/VCX/Labs/5-Visualization/tasks.cpp:53-58 | one more car updates each running minimum and maximum by `min` and `max` |
| ParallelCoordinates.CoordinateStates.constructor | src/VCX/Labs/5-Visualization/tasks.cpp:26-29 | every axis range starts as [0, 1] and nothing is highlighted |
| ParallelCoordinates.CoordinateStates.UpdateRanges | src/VCX/Labs/5-Visualization/tasks.cpp:44-71 | every axis range becomes `AxisRange(data, axis)` |
| ParallelCoordinates.CoordinateStates.FoldCar | src/VCX/Labs/5-Visualization/tasks.cpp:53-59 | after folding car k the arrays hold the minima and maxima of the first k + 1 cars |
| ParallelCoordinates.CoordinateStates.FinishRanges | src/VCX/Labs/5-Visualization/tasks.cpp:61-70 | the fix-up pass turns the minima and maxima into the axis ranges |
| ParallelCoordinates.CoordinateStates.NormalizeCar | src/VCX/Labs/5-Visualization/tasks.cpp:73-82 | seven values, each the car's attribute normalised against its axis range, in [0, 1] |
| ParallelCoordinates.CoordinateStates.UpdateHighlight | src/VCX/Labs/5-Visualization/tasks.cpp:100-126 | without hovering or rows nothing is highlighted; a highlighted row is the first row of least distance and lies within the threshold; when none is highlighted every row is beyond the threshold |
| ParallelCoordinates.CoordinateStates.ScanRow | src/VCX/Labs/5-Visualization/tasks.cpp:112-122 | a row strictly closer than the best so far replaces it; otherwise the best index and distance are kept |
| ParallelCoordinates.CoordinateStates.NearestRow | src/VCX/Labs/5-Visualization/tasks.cpp:105-122 | the best distance is at most every row's distance; the index is -1 (distance `FLT_MAX^2`) when no row comes below that start value, and otherwise the first row of least distance, whose distance is returned |
| SphereVolume.ClampSettings | src/VCX/Apps/SphereAudioVisualizer/SphereVolumeData.cpp:42-52 | clamped settings are in range, keep the radius layout, and settings already in range are unchanged |
| SphereVolume.BandPosition | src/VCX/Apps/SphereAudioVisualizer/SphereVolumeData.cpp:193 | the band position `(i + 1) / (count + 1)` lies strictly inside (0, 1) |
| SphereVolume.BandRadius | src/VCX/Apps/SphereAudioVisualizer/SphereVolumeData.cpp:192-200 | every band radius lies in [0.05, 1] |
| SphereVolume.PositionIncreases | src/VCX/Apps/SphereAudioVisualizer/SphereVolumeData.cpp:193 | later bands sit at larger positions |
| SphereVolume.LinearRadiiIncrease | src/VCX/Apps/SphereAudioVisualizer/SphereVolumeData.cpp:197-198 | with the linear layout later bands have strictly larger radii |
| SphereVolume.LogRadiiNondecreasing | src/VCX/Apps/SphereAudioVisualizer/SphereVolumeData.cpp:190-196 | with the log layout radii never decrease, given that `exp` is monotone |
| SphereVolume.BandGain | src/VCX/Apps/SphereAudioVisualizer/SphereVolumeData.cpp:205-213 | a band gain lies in [0.1, 3] and is 1 for a single band or zero tilt |
| SphereVolume.TiltOrdersGains | src/VCX/Apps/SphereAudioVisualizer/SphereVolumeData.cpp:205-213 | a positive tilt raises the gain toward high bands and a negative tilt toward low bands |
| SphereVolume.TiltedGainBounds | src/VCX/Apps/SphereAudioVisualizer/SphereVolumeData.cpp:209-211 | the tilted gain is 1 at the middle position or with no tilt, and within `1 +/- |tilt|` for positions in `[0, 1]` |
| SphereVolume.RadiusTable | src/VCX/Apps/SphereAudioVisualizer/SphereVolumeData.cpp:185-200 | one radius per band, each in [0.05, 1] |
| SphereVolume.GainTable | src/VCX/Apps/SphereAudioVisualizer/SphereVolumeData.cpp:186-201 | one gain per band, each in [0.1, 3] |
| SphereVolume.LinearTableIncreasing | src/VCX/Apps/SphereAudioVisualizer/SphereVolumeData.cpp:192-200 | the linear radius table is strictly increasing |
| SphereVolume.Resize | src/VCX/Apps/SphereAudioVisualizer/SphereVolumeData.cpp:185-187 | `std::vector::resize`: the prefix is kept and new slots are zero |
| SphereVolume.FillBandTables | src/VCX/Apps/SphereAudioVisualizer/SphereVolumeData.cpp:192-202 | the loop fills the radius and gain tables with `RadiusTable` and `GainTable` |
| SphereVolume.SmoothStep | src/VCX/Apps/SphereAudioVisualizer/SphereVolumeData.cpp:81-85 | smoothing 1 takes the new energy and smoothing 0 keeps the old value |
| SphereVolume.SmoothStepBetween | src/VCX/Apps/SphereAudioVisualizer/SphereVolumeData.cpp:84 | a smoothed value lies between the old value and the new energy |
| SphereVolume.Smoothed | src/VCX/Apps/SphereAudioVisualizer/SphereVolumeData.cpp:78-86 | smoothing keeps one value per band |
| SphereVolume.SmoothedCopies | src/VCX/Apps/SphereAudioVisualizer/SphereVolumeData.cpp:80-82 | with smoothing 1 the bands copy the energies, and bands without an energy become 0 |
| SphereVolume.SmoothedMovesToward | src/VCX/Apps/SphereAudioVisualizer/SphereVolumeData.cpp:78-86 | every smoothed band lies between its old value and its energy |
| SphereVolume.SmoothBands | src/VCX/Apps/SphereAudioVisualizer/SphereVolumeData.cpp:78-86 | the smoothing loop computes `Smoothed` |
| SphereVolume.SmoothingBase | src/VCX/Apps/SphereAudioVisualizer/SphereVolumeData.cpp:70-76 | the values smoothing starts from have one entry per band and are the old values when the band count did not change |
| SphereVolume.CpuParams | src/VCX/Apps/SphereAudioVisualizer/SphereVolumeData.cpp:132-133 | the CPU build uses a thickness of at least 0.01 and a global gain in [0.1, 5] |
| SphereVolume.GpuParams | src/VCX/Apps/SphereAudioVisualizer/GpuVolumeBuilder.cpp:124-127 | the GPU uniforms are clamped into range and agree with the CPU parameters for in-range settings |
| SphereVolume.CoordSpan | src/VCX/Apps/SphereAudioVisualizer/SphereVolumeData.cpp:131-140 | voxel coordinates lie in [−1, 1] with the first and last voxel on the faces |
| SphereVolume.VoxelRadiusInCube | src/VCX/Apps/SphereAudioVisualizer/SphereVolumeData.cpp:131-141 | the voxel radius is the square root of the sum of squared coordinates, and that sum lies in `[0, 3]` |
| SphereVolume.Voxel | src/VCX/Apps/SphereAudioVisualizer/SphereVolumeData.cpp:141-151 | every voxel density lies in [0, 1] |
| SphereVolume.SilentDensity | src/VCX/Apps/SphereAudioVisualizer/SphereVolumeData.cpp:142-150 | zero energies contribute zero density |
| SphereVolume.ShellTerm | src/VCX/Apps/SphereAudioVisualizer/SphereVolumeData.cpp:144-149 | one band's shell contributes 0 when its energy or its gain is 0 |
| SphereVolume.SilentVoxel | src/VCX/Apps/SphereAudioVisualizer/SphereVolumeData.cpp:141-151 | silence yields an empty volume |
| SphereVolume.ShellDensity | src/VCX/Apps/SphereAudioVisualizer/SphereVolumeData.cpp:142-150 | the band loop computes the summed shell density |
| SphereVolume.ComputeVoxel | src/VCX/Apps/SphereAudioVisualizer/SphereVolumeData.cpp:140-152 | one voxel's value is `Voxel(...)` |
| SphereVolume.FillRow | src/VCX/Apps/SphereAudioVisualizer/SphereVolumeData.cpp:139-153 | the x loop fills one row with voxel values and leaves every other row alone |
| SphereVolume.FillSlice | src/VCX/Apps/SphereAudioVisualizer/SphereVolumeData.cpp:137-154 | the y loop fills one slice and leaves every other slice alone |
| SphereVolume.FillVolume | src/VCX/Apps/SphereAudioVisualizer/SphereVolumeData.cpp:135-155 | the z loop fills every voxel of the cube with its density |
| SphereVolume.SphereVolumeData.CurrentShells | src/VCX/Apps/SphereAudioVisualizer/SphereVolumeData.cpp:143-149 | the tables a build reads have one radius and gain per band |
| SphereVolume.SphereVolumeData.constructor | src/VCX/Apps/SphereAudioVisualizer/SphereVolumeData.cpp:34-36 | construction regenerates: a non-zero volume size, one band, zero smoothed energy, slice 0 |
| SphereVolume.SphereVolumeData.EnsureBandTables | src/VCX/Apps/SphereAudioVisualizer/SphereVolumeData.cpp:180-203 | at least one band; radius and gain tables rebuilt for the layout and tilt; smoothed energies zeroed |
| SphereVolume.SphereVolumeData.SetSettings | src/VCX/Apps/SphereAudioVisualizer/SphereVolumeData.cpp:42-52 | settings are stored clamped and the band tables are rebuilt for them |
| SphereVolume.SphereVolumeData.Regenerate | src/VCX/Apps/SphereAudioVisualizer/SphereVolumeData.cpp:54-62 | a zero size becomes 32; a fresh cube of that size; the slice index is clamped to the last slice; tables rebuilt |
| SphereVolume.SphereVolumeData.SetSliceIndex | src/VCX/Apps/SphereAudioVisualizer/SphereVolumeData.cpp:100-108 | the slice index is clamped to the last slice, or 0 for an empty volume |
| SphereVolume.SphereVolumeData.BuildVolume | src/VCX/Apps/SphereAudioVisualizer/SphereVolumeData.cpp:126-156 | every voxel of the volume becomes its density for the current tables and the energies |
| SphereVolume.SphereVolumeData.SmoothEnergies | src/VCX/Apps/SphereAudioVisualizer/SphereVolumeData.cpp:70-86 | the band count follows the energies (at least 1), tables are rebuilt only when it changes, and the smoothed energies move toward the new energies by the clamped smoothing factor |
| SphereVolume.SphereVolumeData.UpdateVolume | src/VCX/Apps/SphereAudioVisualizer/SphereVolumeData.cpp:64-98 | an empty volume returns zero timings; otherwise the energies are smoothed, the whole volume is rebuilt from the smoothed energies and the two timings are returned |
| SphereVolume.DispatchGroups | src/VCX/Apps/SphereAudioVisualizer/GpuVolumeBuilder.cpp:160 | the work groups of 8 cover the edge with less than one group to spare |
| SphereVolume.CappedBands | src/VCX/Apps/SphereAudioVisualizer/GpuVolumeBuilder.cpp:72-75 | the GPU band count lies in [1, 256] and equals the requested count when that is in range |
| SphereVolume.GpuVolumeBuilder.constructor | src/VCX/Apps/SphereAudioVisualizer/GpuVolumeBuilder.hpp:45-54 | no texture, no bands, linear layout, zero timings |
| SphereVolume.GpuVolumeBuilder.EnsureResources | src/VCX/Apps/SphereAudioVisualizer/GpuVolumeBuilder.cpp:40-60 | the size is clamped into [32, 256] and the texture is reallocated only when the size changes |
| SphereVolume.GpuVolumeBuilder.UpdateBandTables | src/VCX/Apps/SphereAudioVisualizer/GpuVolumeBuilder.cpp:71-97 | the count is capped; unchanged count and layout keep everything; otherwise the tables are rebuilt and smoothing restarts from zero |
| SphereVolume.GpuVolumeBuilder.UpdateSmoothedEnergies | src/VCX/Apps/SphereAudioVisualizer/GpuVolumeBuilder.cpp:100-113 | one value per band, moved toward the energies by the clamped smoothing factor |
| SphereVolume.GpuVolumeBuilder.DispatchBuild | src/VCX/Apps/SphereAudioVisualizer/GpuVolumeBuilder.cpp:115-171 | without a texture nothing changes and zero timings come back; otherwise the band count is the capped energy count, the radius table follows the layout, the gains are rebuilt exactly when the tables are, the smoothed energies are `Smoothed` from the old or restarted values with the clamped factor, the uniforms carry the size, band count, clamped parameters and group count, and the build time is `elapsedNs · 10⁻⁶` ms with no upload time |

## Left out

- Device and file I/O: miniaudio's device, `ma_decoder_init_file` and the system sound player (`PlaySound`) are outcomes passed in as parameters (`outcome`, `deviceOk`, `playOk`, the file bytes); logging, error strings other than the status kinds, path resolution and `std::wstring` conversion are not modelled.
- Concurrency: the mutex and the atomics of `AudioFilePlayer` are not modelled; every operation is one atomic step.
- Floating point: `float` is exact `real`; rounding, NaN and infinity are not modelled. In `tasks.cpp` "finite" means at most `FLT_MAX` in magnitude.
- Transcendentals: `exp`, `log`, `log1p`, `sqrt` and `sin` are uninterpreted function parameters. The window coefficients (`BuildWindowCoeffs`, `ApplyWindow`, App.cpp:100-128), the FFT butterflies and the twiddles in `kiss_fft_alloc` use `cos`/`sin` and are not modelled.
- ParallelCoordinates.SegmentDistance2: the distance is compared squared instead of through `glm::length`, which is monotone and gives the same comparisons; the threshold is squared as well.
- PlayerModel.HandleCallback: the callback is modelled on values (a `Player` record), not as a method of the class, and its decoder is a finite list of frames.
- PlayerModel.HandleCallback: a looping decoder over an empty stream whose end-of-stream read succeeds would spin forever in the source; the model requires a non-empty stream in that case.
- PlayerModel.DecoderRead: the status of a read that finds no frames left is the decoder's `endOk` field, because miniaudio itself is not part of this model. The 4-argument `ma_decoder_read_pcm_frames` called at AudioFilePlayer.cpp:229 is the miniaudio 0.11 interface, whose read of zero frames at the end reports `MA_AT_END`. That is `endOk` false: the error check at line 231 then pauses before the loop branch at 237-241 is reached, so a looping file stops at its end (`DecodeLoopEndStatusStops`).
- PlayerModel.DecodeLoopWraps: holds only for a decoder whose end-of-stream read reports success (`endOk`); under miniaudio 0.11 the loop branch is unreachable.
- PlayerModel.DecodeLoopCursorAfterRewind: as for DecodeLoopWraps, only for a decoder whose end-of-stream read reports success.
- PlayerModel.DecodeLoopFromEnd: as for DecodeLoopWraps, only for a decoder whose end-of-stream read reports success.
- PlayerModel.SineStep: the phase step is `2π · 220 / sampleRate`; the frequency is fixed.
- Spectral.AggregateBand: a mean over zero bins (a range that clamping empties) is NaN in C++ and `None` here.
- The band loop of `UpdateAudioAnalysis` (App.cpp:985-990) is not a member of its own; its three steps, `ComputeBandRange`, `AggregateBand` and `ApplyCompression`, are modelled.
- The FFT size table is `512, 1024, 2048, 4096`, as the size labels at App.cpp:680 list; the header that defines it is not part of this model.
- KissFft.KfFactor: the `p * p` product at kiss_fft.cpp:253 is taken in unbounded integers. In C it overflows `int` (undefined behaviour) for a prime n above 46339² = 2147302921, such as 2147483647, where the trial divisor reaches 46341; the model does not capture that overflow. It cannot happen for the offered sizes 512 to 4096, whose divisors never exceed 4.
- KissFft.Stride: returns the pairs `kf_factor` recorded. When the plan stops at m = 2 (512, 2048), `kf_work` goes on to read the next, uninitialised slots of `factors[64]`; that read is not modelled.
- `AudioFilePlayer::ReadSamples` and `GetAvailableSamples` (AudioFilePlayer.cpp:54-61) are thin wrappers of `ReadRing` and `RingReadable` and have no members of their own; the trivial getters of both players are omitted.
- `AudioInput::SetAutoGainEnabled`, `SetAutoGainDepth` and `SetAutoGainSpeed` (AudioInput.cpp:344-362) only store their argument and are not modelled.
- SphereVolume.SphereVolumeData.BuildVolume: requires the volume to be allocated for the current size. `SetSettings` does not reallocate, and the application always calls `Regenerate` after it.
- SphereVolume.SphereVolumeData.constructor: takes its initial settings as a parameter; the header's default settings are not part of this model. The SphereVolumeData.hpp in the repository is older than SphereVolumeData.cpp: it declares no `_bandCount` and its Settings has `NumShells`, `Thickness` and `GlobalGain`, so the initial `bandCount := 0` before `Regenerate()` is a reconstruction from the uses in SphereVolumeData.cpp:51-71.
- RingModel.LatestWindow: `fftSize + headroom` at AudioFilePlayer.cpp:318 is a `std::size_t` sum that wraps modulo 2^64; the model takes it unbounded. A headroom near 2^64 would shorten the window in the source; the only caller clamps headroom to `[0, 2 * fftSize]` (App.cpp:942), so the wrap is never reached there.
- SphereVolume.FillVolume: stores each density as a real; the store into the R8 texture at SphereVolumeData.cpp:152, which quantises the value in `[0, 1]` to a byte, is not modelled.
- SphereVolume.SphereVolumeData.Regenerate: the `size == 0 ? 0 : size - 1` guard is unreachable after a zero size becomes 32 and is not modelled separately.
- SphereVolume.GpuVolumeBuilder.EnsureResources: the OpenGL texture is a counter of allocations; the zero-size branch after the clamp is unreachable and is not modelled.
- GPU work: shader compilation, uniform upload, the compute dispatch itself, `UploadVolumeTexture`, `UpdateSliceTexture` and the GPU timer query are not modelled; the timer's reading is the `elapsedNs` parameter and the CPU timings are the `buildMs` / `uploadMs` parameters.
- SphereVolume.MathLib: `exp`, `log` and `sqrt` of the volume code are parameters; only `LogRadiiNondecreasing` assumes anything about them.
- AppSelection.ParseSelectedApp: requires that the argument after `--app` is not null, since `std::string` of a null `char *` is undefined behaviour.
- The VolumeFX application's own spectrum and volume code (`src/VCX/Apps/VolumeFX/App.cpp`, `VolumeSim`, `DensityField`, the renderers) is not part of this model; neither are the YAML configuration, the ImGui panels and the drawing code of `tasks.cpp`.
- Enumerations cast from out-of-range integers in C++ are not representable here; each datatype has exactly its named cases.

## Findings

| source | as written | input that shows it | evidently intended | confidence | as-written member | corrected member |
|---|---|---|---|---|---|---|
| src/3rdparty/kissfft/kiss_fft.cpp:245 | the factor loop runs `while (n > 1 && p <= n)`, so once the trial divisor 4 exceeds a remainder of 2 or 3 the loop stops without recording it | nfft = 512 gives [4,128, 4,32, 4,8, 4,2] and stops with m = 2; nfft = 2048 likewise; both are FFT sizes the analyser offers | the loop runs while `n > 1`, as upstream KISS FFT's `do … while (n > 1)` does, so every plan ends with m = 1 | not executed | KissFft.FiveTwelveAndTwoThousandFortyEight | KissFft.StrideCorrected |
