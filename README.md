# Ultimate Gain Stage: a verified model of the level matcher

Ultimate Gain Stage is an audio plug-in used in pairs. A **Before** instance sits ahead of a
processing chain and an **After** instance sits behind it. They share a pair ID (1 to 16).
Every block, the Before instance publishes its audio to a process-wide registry slot. The
After instance reads that block back, optionally delayed by a latency offset. It measures
both sides (RMS or held peak, in dB). When the difference exceeds a tolerance and the Before
side is still alive, it steers a one-pole-smoothed compensation gain toward that difference,
clamped to ±40 dB. It then routes the audio: the reference, the scaled difference
("delta"), or the compensated signal.

The model has seven modules:

| file | module | what it holds |
|---|---|---|
| `ring.dfy` | `Ring` | the circular-buffer arithmetic: the modular cursor, `RingWrite`/`RingRead` on sequences, the delayed read start, and window sums |
| `numerics.dfy` | `Numerics` | `sqrt`, `log10`, `exp` and dB→gain as an uninterpreted `Math` bundle, plus truncation, clamping and `uint64_t` wrap-around |
| `audio.dfy` | `Audio` | views of an `array2<real>` audio buffer as per-channel sequences; `std::vector::resize` |
| `parameters.dfy` | `Parameters` | the enums and their integer encodings, `rmsWindowToSamples`, defaults and ranges |
| `shared_buffer.dfy` | `SharedBuffer` | `SharedAudioData` and `SharedBufferManager` as classes over `seq` fields, with write/read loops |
| `analysis.dfy` | `Analysis` | `GainAnalyzer` (squared-sample ring, RMS window, peak hold) and `GainSmoother` (attack/release filter), with pure specifications and lemmas |
| `processor.dfy` | `Processor` | the per-block processor: trims, Before/After dispatch, gating, routing, telemetry, destructor |

The stateful parts are classes whose methods update fields in place:
- the registry slots;
- the analysers;
- the smoother;
- the processor with its telemetry fields.

Loops become `while` loops with invariants. Each method is proved against a pure
specification function (`RingWrite`, `ReadInto`, `PeakHoldStep`, `SmoothStep`, `RoutedSample`
and others). The lemmas state the promised properties about those functions.

Each `GainAnalyzer` records the block it last measured in the ghost field `lastBlock`. Its
contract describes the new history, cursor, peak-hold state and RMS in terms of that block.
The processor's contracts say which block each analyser measured and what reading was
published from it.

An After-mode block is summed up in one predicate, `AfterModeBlock`, made of four parts:
- `ReferenceReadOver`: the reference block after the read;
- `Configured`: the windows and the smoother after stage 1, with the smoother still at the sample rate it had;
- `Compensated`: the measurements, the gate and the gain step;
- `Rendered`: the audio and the delta and output readings.

The reference block is only grown, never shrunk. A host block shorter than the reference
therefore reads the partner's samples into the first positions only. The rest of the
reference keeps its samples from an earlier block, or stays silent after a grow. The before
analyser measures the whole reference block, tail included, as
`beforeAnalyzer_.process(referenceBuffer_)` does (Source/PluginProcessor.cpp:245).

The level getters (`GetBeforeLeveldB`, …, `IsCompensating`) read the stored fields. The
constructor fixes their initial values, and the block methods state what each block stores
in them.

## Model

| member | source | states |
|---|---|---|
| Parameters.EncodingsRoundTrip | Source/Parameters.h:70-87 | the choice indices decode to the enums and back: Before=0/After=1, RMS=0/Peak=1, Ms50/Ms100/Ms300=0/1/2 |
| Parameters.InstanceModeFromIndex | Source/PluginProcessor.cpp:159-164 | a mode index casts to Before exactly when it is 0 |
| Parameters.MeasurementModeFromIndex | Source/PluginProcessor.cpp:248-251 | a measurement index casts to RMS exactly when it is 0 |
| Parameters.RmsWindowFromIndex | Source/PluginProcessor.cpp:232 | every window index casts to an enum value with that index, including values outside the three named ones |
| Parameters.RmsWindowToSamples | Source/Parameters.h:89-98 | for a non-negative rate, the largest whole number of samples not exceeding the rate times the window length (50, 100 or 300 ms, an unlisted choice counting as 100 ms); a negative rate gives no positive count |
| Parameters.RmsWindowsOrdered | Source/Parameters.h:93-95 | for a non-negative sample rate the three windows are non-negative and ordered 50 ≤ 100 ≤ 300 ms |
| Parameters.RmsWindowsAt48k | Source/Parameters.h:93-95 | at 48 kHz the windows are 2400, 4800 and 14400 samples |
| Parameters.DefaultsInRange | Source/Parameters.h:31-68 | every default parameter lies in its declared range; the default mode is Before and the default window is 100 ms |
| Numerics.Trunc | Source/Parameters.h:93 | a `static_cast<int>` of a real truncates toward zero: the result is within 1 of the input, on the same side of zero |
| Numerics.TruncMonotone | Source/Parameters.h:93-95 | truncation of non-negative reals is monotone |
| Numerics.LimitInt | Source/GainAnalyzer.h:26 | `jlimit` on integers returns a value in [lower, upper], the input itself when it already lies there, and otherwise one of the bounds |
| Numerics.LimitReal | Source/PluginProcessor.cpp:272 | `jlimit` on reals, with the same three facts |
| Numerics.Sqrt | Source/GainAnalyzer.h:83 | `std::sqrt` of a non-negative value is non-negative, and of 0 is 0 |
| Numerics.Exp | Source/GainAnalyzer.h:157-158 | `std::exp` of a negative value lies strictly between 0 and 1 |
| Numerics.DecibelsToGain | Source/PluginProcessor.cpp:201 | dB→gain is 0 at or below -100 dB, positive above, and 1 at 0 dB |
| Audio.Resized | Source/SharedBuffer.h:40 | `resize(n, 0)` keeps the common prefix, zero-fills the new tail and has length n |
| Ring.Zeros | Source/SharedBuffer.h:29-33 | a silent channel vector of the given length |
| Ring.Cursor | Source/SharedBuffer.h:87 | stepping `pos = (pos + 1) % size` k times from any start stays in [0, size) |
| Ring.CursorStep | Source/SharedBuffer.h:87 | one more `(pos + 1) % size` step moves the cursor from k to k+1 steps |
| Ring.CursorZero | Source/SharedBuffer.h:83 | the cursor starts at the write position |
| Ring.ReadStart | Source/SharedBuffer.h:109-112 | the delayed read start `writePos - n - latency`, wrapped into [0, size) |
| Ring.ReadStartAfterWrite | Source/SharedBuffer.h:91-112 | after a write of `len` samples, the read start of `n` samples at latency `l` is the write start advanced by `len - n - l` |
| Ring.RingWriteAt | Source/SharedBuffer.h:84-88 | a ring write of at most `size` samples leaves sample k at slot `(start + k) % size` |
| Ring.RingWriteElsewhere | Source/SharedBuffer.h:84-88 | slots the cursor never visits keep their old value |
| Ring.RingWriteBeyondSize | Source/SharedBuffer.h:84-88 | slots at or beyond the logical size (after a shrinking resize) are never written |
| Ring.RingRead | Source/SharedBuffer.h:119-124 | sample i of a ring read is the slot `(start + i) % size` |
| Ring.ReadBackWindow | Source/SharedBuffer.h:91-124 | reading `n` samples at latency `l` right after a write returns exactly `src[len-n-l .. len-l]` |
| Ring.WriteThenReadRoundTrip | Source/SharedBuffer.h:91-124 | writing up to `size` samples and reading the same count at latency 0 returns them in order |
| Ring.CursorRebase | Source/SharedBuffer.h:83-87 | walking i steps from a cursor already k steps along equals walking k+i steps |
| Ring.RingSumIsSumOfRead | Source/GainAnalyzer.h:78-81 | the window loop's running sum equals the sum of the ring read over the window |
| Ring.WindowSumAfterWrite | Source/GainAnalyzer.h:54-81 | right after writing `src`, a window of `n` entries, no more than were written, sums the last `n` written values |
| Ring.RingWriteZeros | Source/SharedBuffer.h:84-88 | writing silence into a silent ring keeps it silent |
| Ring.RingWriteNonNegative | Source/GainAnalyzer.h:54 | writing non-negative values into a non-negative ring keeps it non-negative |
| Ring.SumNonNegative | Source/GainAnalyzer.h:80 | a sum of non-negative entries is non-negative |
| Ring.SumZeros | Source/GainAnalyzer.h:80 | a sum of zeros is zero |
| SharedBuffer.Live | Source/SharedBuffer.h:135-141 | a live slot has its flag set; with a clock that has not gone backwards, it is live iff its flag is set and fewer than 1000 ms have passed since its last write |
| SharedBuffer.SharedAudioData.constructor | Source/SharedBuffer.h:15-33 | a new slot holds two 48000-sample silent channels, 2 channels at 48 kHz, cursor and sequence 0, inactive, last write at 0 |
| SharedBuffer.SharedAudioData.Resize | Source/SharedBuffer.h:35-41 | sets the size and channel count; only the first `channels` channel vectors are resized, the rest and every counter stay as they were |
| SharedBuffer.SharedAudioData.Clear | Source/SharedBuffer.h:43-49 | zeroes every channel vector at its own length and resets cursor and sequence to 0; nothing else changes |
| SharedBuffer.SharedAudioData.Write | Source/SharedBuffer.h:72-95 | the slot ends in `Wrote` of its old state: channel `ch < min(channels, 2)` gets the ring write of its first `numSamples` samples at the old cursor, and the other channel is unchanged; the cursor advances by `numSamples` modulo the size; the sequence grows by 1 modulo 2^64; size, channel count and rate are kept; the slot is stamped live at `now` |
| SharedBuffer.SharedAudioData.WriteChannels | Source/SharedBuffer.h:78-89 | the channel loop: each of the first `min(channels, 2)` channels gets its ring write and the others are unchanged |
| SharedBuffer.SharedAudioData.WriteChannel | Source/SharedBuffer.h:80-88 | the inner loop: one channel becomes the ring write of the source row, and no other channel changes |
| SharedBuffer.SharedAudioData.Advance | Source/SharedBuffer.h:91-95 | the cursor moves `numSamples` steps, the sequence grows by 1 modulo 2^64, the time is `now` and the flag is set |
| SharedBuffer.SharedBufferManager.constructor | Source/SharedBuffer.h:163-169 | sixteen fresh default slots |
| SharedBuffer.SharedBufferManager.Footprint | Source/SharedBuffer.h:69-72 | a valid pair ID touches exactly its own slot; an invalid one touches nothing |
| SharedBuffer.SharedBufferManager.Slot | Source/SharedBuffer.h:61-65 | pair ID k names slot k-1 of the registry |
| SharedBuffer.SharedBufferManager.WriteSamples | Source/SharedBuffer.h:67-96 | an invalid pair ID changes nothing; otherwise the pair's slot ends in `Wrote` of its old state, as for `Write` |
| SharedBuffer.SharedBufferManager.ReadSamples | Source/SharedBuffer.h:98-126 | an invalid pair ID leaves `dest` as it was; otherwise `dest` becomes `ReadInto` its old contents: the first `min(destChannels, numChannels)` channels take `numSamples` samples from the delayed read start, and everything else is unchanged |
| SharedBuffer.ReadInto | Source/SharedBuffer.h:114-125 | the read result has the shape of the destination |
| SharedBuffer.ReadIntoIdempotent | Source/SharedBuffer.h:98-126 | reading twice gives the same destination as reading once (the read does not touch the registry) |
| SharedBuffer.SharedBufferManager.IsBeforeInstanceActive | Source/SharedBuffer.h:128-142 | true iff the pair ID is valid, the flag is set and `(now - lastWrite)` as `uint64_t` is below 1000 |
| SharedBuffer.SharedBufferManager.SetBeforeInstanceInactive | Source/SharedBuffer.h:144-148 | a valid slot has its flag cleared and nothing else changes; afterwards the pair is inactive at every time |
| SharedBuffer.SharedBufferManager.PrepareBuffer | Source/SharedBuffer.h:150-160 | a valid slot gets size `trunc(sr * 1.0)`, the channel count and sample rate, silent channels (resized only for the first `channels`), cursor and sequence 0; liveness is kept; an invalid ID changes nothing |
| SharedBuffer.PreparedSlotUsable | Source/SharedBuffer.h:150-160 | a prepared slot with a positive size can take writes and reads of its channel count |
| SharedBuffer.PublishThenReadBack | Source/SharedBuffer.h:67-126 | round trip through the registry: after `writeSamples` of n ≤ size samples, `readSamples` of n samples at latency 0 returns them, channel by channel, in order |
| SharedBuffer.ReadIntoRoundTrip | Source/SharedBuffer.h:109-124 | at the sequence level, reading back a just-written channel yields exactly the written samples |
| Analysis.FlattenLength | Source/GainAnalyzer.h:42-57 | a block of `c` channels of `n` samples each feeds `c*n` samples to the history |
| Analysis.Squares | Source/GainAnalyzer.h:54 | the squared samples keep the block's length |
| Analysis.SquaresAt | Source/GainAnalyzer.h:54 | entry i is the square of sample i |
| Analysis.SquaresNonNegative | Source/GainAnalyzer.h:54 | every history entry written is non-negative |
| Analysis.BlockPeak | Source/GainAnalyzer.h:39-51 | the block peak (a max of absolute values starting at 0) is non-negative |
| Analysis.BlockPeakIsMaximum | Source/GainAnalyzer.h:39-51 | the block peak bounds every sample's magnitude and is 0 or attained by some sample |
| Analysis.SilentBlockPeak | Source/GainAnalyzer.h:39-51 | a silent block has peak 0 |
| Analysis.RootMeanSquare | Source/GainAnalyzer.h:83 | `sqrt(sum / (window*channels))` is non-negative for a non-negative sum and 0 for a zero sum |
| Analysis.SilentWindowReadsFloor | Source/GainAnalyzer.h:83-92 | a silent window reads RMS 0, which is -100 dB |
| Analysis.SilentSamplesReadFloor | Source/GainAnalyzer.h:42-92 | after a silent run at least as long as the RMS window, the analyser reads -100 dB whatever the history held |
| Analysis.SilentSamplesSumZero | Source/GainAnalyzer.h:42-81 | after such a silent run the window sum is 0 |
| Analysis.SilenceSquaresToZero | Source/GainAnalyzer.h:52-54 | silent samples square to a zero sum |
| Analysis.FlattenZeros | Source/GainAnalyzer.h:42-57 | a block that is silent on every channel flattens to silence |
| Analysis.PeakHoldStep | Source/GainAnalyzer.h:59-71 | after a block the held peak is at least the block peak and is either the block peak or the old peak; while the countdown is positive the peak never falls; it falls only once the countdown has run out, to the block peak, with the counter untouched; a rise restarts the countdown at the hold length |
| Analysis.PeakHeldDuringCountdown | Source/GainAnalyzer.h:59-67 | after a loud block, quieter blocks keep the peak while the countdown is still positive, and the counter drops by the block length each time |
| Analysis.PeakDecaysAfterHold | Source/GainAnalyzer.h:59-71 | the loud peak survives exactly the block that exhausts the countdown, and the next quieter block replaces it |
| Analysis.GainAnalyzer.constructor | Source/GainAnalyzer.h:100-107 | `Defaulted`: 48 kHz, empty history, window and hold of 4800 samples, cursor, counter, RMS and peak 0 |
| Analysis.GainAnalyzer.Prepare | Source/GainAnalyzer.h:14-22 | the history is resized (not cleared) to `trunc(sr*0.5)`; cursor, RMS, peak and counter become 0; window and hold length are kept |
| Analysis.GainAnalyzer.SetRMSWindowSamples | Source/GainAnalyzer.h:24-27 | stores `clamp(n, 1, historyLength)` and nothing else; with a non-empty history the analyser can then process |
| Analysis.GainAnalyzer.SetPeakHoldSamples | Source/GainAnalyzer.h:29-32 | stores the hold length and nothing else |
| Analysis.GainAnalyzer.Process | Source/GainAnalyzer.h:34-84 | the history is the ring write of the block's squared samples, channel after channel, from the old cursor; the cursor advances by `channels*samples` modulo the history length; the peak-hold state takes one `PeakHoldStep` with the block peak; the RMS is `RootMeanSquare` of the window sum behind the cursor |
| Analysis.GainAnalyzer.WriteBlock | Source/GainAnalyzer.h:42-57 | the sample loop's effect on history and cursor; it returns the block peak, and the history stays non-negative |
| Analysis.GainAnalyzer.WriteSquares | Source/GainAnalyzer.h:42-57 | the outer loop over channels writes the flattened block's squares and tracks the block peak |
| Analysis.GainAnalyzer.WriteChannel | Source/GainAnalyzer.h:44-56 | the inner loop appends one channel's squares to the ring write and folds its samples into the peak |
| Analysis.GainAnalyzer.UpdatePeakHold | Source/GainAnalyzer.h:59-71 | the peak-hold state becomes `PeakHoldStep` of the old state |
| Analysis.GainAnalyzer.UpdateRMS | Source/GainAnalyzer.h:73-83 | the RMS becomes `RootMeanSquare` of the window sum |
| Analysis.GainAnalyzer.SumWindow | Source/GainAnalyzer.h:73-81 | the window loop returns the sum of the `window` entries ending at the cursor, which is non-negative |
| Analysis.ReadStartIsWindowStart | Source/GainAnalyzer.h:75-76 | `pos = writePos - window`, plus the length when negative, is the ring read start of the window |
| Analysis.WindowSeesLatestSamples | Source/GainAnalyzer.h:54-81 | right after a block, the window sums the squares of the block's last `window` samples |
| Analysis.RingSumNonNegative | Source/GainAnalyzer.h:78-81 | a window over a non-negative history sums to a non-negative value |
| Analysis.WindowSum | Source/GainAnalyzer.h:73-81 | the RMS numerator, the sum of the window behind the cursor, is non-negative over a non-negative history |
| Analysis.GainAnalyzer.GetRMSLevel | Source/GainAnalyzer.h:86 | the RMS reading is never negative |
| Analysis.GainAnalyzer.GetPeakLevel | Source/GainAnalyzer.h:87 | the peak reading is never negative |
| Analysis.GainAnalyzer.GetRMSdB | Source/GainAnalyzer.h:89-92 | -100 dB when the RMS is ≤ 0, `20*log10(rms)` otherwise |
| Analysis.GainAnalyzer.GetPeakdB | Source/GainAnalyzer.h:94-97 | -100 dB when the held peak is ≤ 0, `20*log10(peak)` otherwise |
| Analysis.Coefficient | Source/GainAnalyzer.h:157-158 | `exp(-1 / (sr * ms * 0.001))` lies strictly between 0 and 1 for a positive rate and time |
| Analysis.SmoothStepContracts | Source/GainAnalyzer.h:131-143 | the attack coefficient applies below the current value and the release coefficient otherwise; the new value's distance to the target is that coefficient times the old distance; it lies between the old value and the target; a target equal to the current value is a fixed point |
| Analysis.StepDistance | Source/GainAnalyzer.h:133-140 | a blend's distance to the target is `c` times the old distance |
| Analysis.StepDown | Source/GainAnalyzer.h:135 | with c in [0,1], a blend toward a lower target lands between the two |
| Analysis.StepUp | Source/GainAnalyzer.h:139 | with c in [0,1], a blend toward a higher target lands between the two |
| Analysis.PowerBounds | Source/GainAnalyzer.h:131-143 | powers of a coefficient in [0,1] stay in [0,1] |
| Analysis.SmoothRunDown | Source/GainAnalyzer.h:133-135 | k steps toward a lower fixed target leave distance `attack^k` times the initial one |
| Analysis.SmoothRunUp | Source/GainAnalyzer.h:137-139 | k steps toward a higher or equal fixed target leave distance `release^k` times the initial one |
| Analysis.StepDownScaled | Source/GainAnalyzer.h:133-135 | one attack step multiplies a scaled distance by the attack coefficient |
| Analysis.StepUpScaled | Source/GainAnalyzer.h:137-139 | one release step multiplies a scaled distance by the release coefficient |
| Analysis.GainSmoother.constructor | Source/GainAnalyzer.h:161-166 | `Defaulted`: 48 kHz, 50/200 ms, coefficients 0.99/0.999, gain 0 dB |
| Analysis.GainSmoother.UpdateCoefficients | Source/GainAnalyzer.h:153-159 | with a sample rate ≤ 0 both coefficients stay as they were; otherwise both are recomputed from their times |
| Analysis.GainSmoother.Prepare | Source/GainAnalyzer.h:113-117 | stores the rate and recomputes the coefficients by the same rule; times and gain are kept |
| Analysis.GainSmoother.SetAttackTime | Source/GainAnalyzer.h:119-123 | stores the attack time and recomputes the coefficients by the same rule |
| Analysis.GainSmoother.SetReleaseTime | Source/GainAnalyzer.h:125-129 | stores the release time and recomputes the coefficients by the same rule |
| Analysis.GainSmoother.Process | Source/GainAnalyzer.h:131-143 | returns and stores `SmoothStep` of the old gain, which lies between the old gain and the target |
| Analysis.GainSmoother.Reset | Source/GainAnalyzer.h:147-150 | the smoothed gain becomes 0 dB |
| Processor.ParameterFallbacks | Source/PluginProcessor.cpp:159-171 | a missing mode parameter means Before and a missing pair ID means 1; Before iff missing or index 0; an in-range pair ID names a registry slot, since the parameter's maximum equals the registry capacity |
| Processor.TrimRule | Source/PluginProcessor.cpp:198-203 | the input trim (and, by the same rule, the output trim): a trim of at most 0.001 dB leaves samples exactly as they were; a larger one multiplies them by its linear gain; at or below -100 dB that silences them; above it signs are kept |
| Processor.Target | Source/PluginProcessor.cpp:270-271 | the target lies in [-40, 40] dB; unarmed it is 0 dB; armed it is the level difference when that is within 40 dB, and 40 dB of the difference's sign otherwise |
| Processor.GateAndTarget | Source/PluginProcessor.cpp:265-272 | the target always lies in [-40, 40]; unpaired or within tolerance means no compensation and a 0 dB target; when armed, the target is the difference, or the nearer bound when the difference exceeds 40 dB |
| Processor.CompensationStaysInRange | Source/PluginProcessor.cpp:271-275 | a smoothing step from inside [-40, 40] toward an in-range target stays inside |
| Processor.RoutingPriority | Source/PluginProcessor.cpp:281-327 | listen-before wins; then solo over delta-enabled; the delta is measured iff listen-before is off and a delta switch is on; compensation gain applies iff neither listen-before nor solo is on |
| Processor.SettledCompensationIsTransparent | Source/PluginProcessor.cpp:265-327 | with levels within tolerance and the smoother at 0 dB, the smoother stays at 0 dB and compensation passes samples through unchanged |
| Processor.DeltaOf | Source/PluginProcessor.cpp:293-305 | the difference block has the processed block's shape and holds `(after - before) * gain` at every sample |
| Processor.MatchedBlocksMeasureFloor | Source/PluginProcessor.cpp:295-308 | identical processed and reference blocks give an all-zero delta block, which the delta analyser reads at -100 dB once the block covers its window |
| Processor.ApplyGain | Source/PluginProcessor.cpp:323-327 | every sample of every channel is multiplied by the gain |
| Processor.ApplyTrim | Source/PluginProcessor.cpp:198-203 | every sample becomes `Trim` of its old value, so the block becomes `TrimBlock` of the old block |
| Processor.CopyBlock | Source/PluginProcessor.cpp:281-287 | every channel takes the source channel's first samples |
| Processor.WriteDeltaRoute | Source/PluginProcessor.cpp:310-321 | solo outputs the delta block; otherwise the compensation gain is applied |
| Processor.MakeDelta | Source/PluginProcessor.cpp:293-305 | a fresh block of the processed block's shape holding `(after - before) * gain`, equal to `DeltaOf` |
| Processor.Measure | Source/PluginProcessor.cpp:245-246 | an analyser call: the analyser stays ready, keeps its history length and window, and has measured the given block |
| Processor.GainStageProcessor.constructor | Source/PluginProcessor.h:80-97 | defaults: parameters at their defaults, 48 kHz and 512 samples, all four levels at -100 dB, gain reduction 0, not compensating, not clipping; four fresh default analysers and a fresh default smoother (`Defaulted`), and an empty reference block |
| Processor.GainStageProcessor.GetInstanceMode | Source/PluginProcessor.cpp:159-164 | Before exactly when the mode parameter is missing or its index is 0 |
| Processor.GainStageProcessor.GetPairID | Source/PluginProcessor.cpp:166-171 | 1 when the pair-ID parameter is missing; an in-range parameter names a registry slot |
| Processor.GainStageProcessor.IsPaired | Source/PluginProcessor.cpp:173-182 | always true in Before mode; in After mode, true iff the pair ID names a slot that is live at `now` |
| Processor.GainStageProcessor.PairingExpires | Source/PluginProcessor.cpp:173-182 | in After mode, with a clock that has not gone backwards, paired iff the partner's flag is set and its last write was under 1000 ms ago |
| Processor.GainStageProcessor.IsClipping | Source/PluginProcessor.h:54-97 | always false: the flag starts false and is never raised |
| Processor.GainStageProcessor.IsWarning | Source/PluginProcessor.h:55 | true iff the gain reduction exceeds 10 dB in magnitude, which leaves it between 10 and 40 dB from zero |
| Processor.GainStageProcessor.ProcessBlock | Source/PluginProcessor.cpp:184-214 | outputs beyond the inputs are silenced; with bypass nothing else changes (processor, analysers, smoother, reference block and the pair's slot). Before mode (`BeforeModeBlock`): the audio is only input-trimmed, the before analyser measured the trimmed block and published its RMS reading, and the pair's slot ends in `Wrote` of its old state with that block, live at `now`; the other analysers, the smoother, the reference block and the After-mode telemetry are unchanged. After mode (`AfterModeBlock`): the reference block is its old contents, or silence when it was shorter than the block, with the slot's delayed read of the block length written over its first samples; both RMS windows are the chosen window clamped to their histories and the smoother keeps its sample rate and runs on the attack and release parameters with coefficients recomputed at that rate; each output sample is the routed, input- and output-trimmed sample; the before analyser measured the whole reference and the after analyser the cleared, input-trimmed block, and both levels follow the measurement mode; the gate is `ShouldCompensate` and the gain one `SmoothStep`; the delta analyser measured `DeltaOf` that block and the reference iff the route measures the delta, and otherwise the delta level is kept; the output analyser measured the final block; the pair's slot is unchanged. The frame keeps the parameters, sample rate and block size |
| Processor.GainStageProcessor.ProcessTrimmed | Source/PluginProcessor.cpp:198-213 | the input trim followed by the mode's path: `BeforeModeBlock` and the Before-mode frame, or `AfterModeBlock` (the smoother's sample rate kept) with the slot unchanged, as stated for `ProcessBlock` |
| Processor.GainStageProcessor.ClearExtraOutputs | Source/PluginProcessor.cpp:192-193 | channels from the input count up to the output count become silent and the others are unchanged, so the block becomes `ClearedBlock` of the old block |
| Processor.GainStageProcessor.TrimAndPublish | Source/PluginProcessor.cpp:198-208 | Before mode (`BeforeModeBlock`): the audio is input-trimmed, the trimmed block is measured and published, and the slot ends in `Wrote` of its old state with it; the after, delta and output analysers, the smoother, the reference block and the After-mode telemetry are unchanged |
| Processor.GainStageProcessor.TrimAndCompare | Source/PluginProcessor.cpp:198-212 | After mode: `AfterModeBlock` of `ProcessAfterMode`, with the smoother's sample rate kept and the after analyser and the delta block taken from `TrimBlock` of the incoming block; the pair's slot is unchanged |
| Processor.GainStageProcessor.ProcessBeforeMode | Source/PluginProcessor.cpp:216-224 | the pair's slot ends in `Wrote` of its old state with the whole block (ring writes of up to two channels, the other kept, cursor advance, sequence plus 1 modulo 2^64, time stamp, size, channel count and rate kept) and is live at `now`; the before analyser measured the block and its RMS reading is the before level; the audio is untouched |
| Processor.GainStageProcessor.PublishBlock | Source/PluginProcessor.cpp:220 | the pair's slot ends in `Wrote` of its old state with the whole block, and the pair is live at `now` |
| Processor.GainStageProcessor.MeasureBefore | Source/PluginProcessor.cpp:222-223 | the before analyser measures the block and its RMS reading is published |
| Processor.GainStageProcessor.ProcessAfterMode | Source/PluginProcessor.cpp:226-338 | `AfterModeBlock`: the reference block is its old contents, or silence when it was shorter, with the slot's delayed read written over its first samples (`ReferenceReadOver`); both RMS windows are the chosen window clamped to their histories, and the smoother keeps its sample rate, takes the attack and release parameters as its times and recomputes its coefficients at that rate (`Configured`); both analysers measured their blocks and the readings follow the measurement mode, the gate is `ShouldCompensate` of the pairing at the start of the block and the gain one `SmoothStep` toward the clamped target (`Compensated`); each output sample is the output-trimmed `RoutedSample`, the delta level is updated iff the route measures the delta, and the output level is the output block's RMS reading (`Rendered`) |
| Processor.GainStageProcessor.ConfigureAndFetch | Source/PluginProcessor.cpp:232-243 | `Configured` at the smoother's unchanged sample rate, then `ReferenceReadOver` of the sized old reference block with the slot as it was at the start |
| Processor.GainStageProcessor.AnalyseAndRender | Source/PluginProcessor.cpp:245-337 | from a configured state with the reference read over `sized`, the measurement, gate, routing and output stages establish `AfterModeBlock`, keeping the read and the configuration |
| Processor.GainStageProcessor.MeasureAndCompensate | Source/PluginProcessor.cpp:245-275 | `Compensated`: both measurements, then the gate and one smoothing step; the configuration, the smoother's rate included, is kept |
| Processor.GainStageProcessor.RenderOutput | Source/PluginProcessor.cpp:277-337 | `Rendered`: routing, the output trim and the output measurement |
| Processor.GainStageProcessor.ConfigureAfterBlock | Source/PluginProcessor.cpp:232-238 | both RMS windows become the chosen window length clamped to their histories, which are kept; the smoother keeps its sample rate, takes the attack and release times and recomputes both coefficients at that rate (`Configured`) |
| Processor.GainStageProcessor.FetchReference | Source/PluginProcessor.cpp:240-243 | the reference block is at least the block's shape; it is the same block when it was long enough; it is the old contents, or silence when grown, with the slot's delayed read written over its first samples |
| Processor.GainStageProcessor.GrowReference | Source/PluginProcessor.cpp:240-241 | a reference shorter than the block is replaced by a fresh silent one of the block's shape; otherwise the same block is kept with its contents (`SizedReference`) |
| Processor.GainStageProcessor.ReadReference | Source/PluginProcessor.cpp:243 | the whole reference block is `ReadInto` of its old contents: the first samples of every channel both have are the slot's samples from the delayed read start, and every other sample keeps its value |
| Processor.GainStageProcessor.ReadOverHolds | Source/PluginProcessor.cpp:243 | a reference block read over any base holds, in its first samples of every channel both have, the slot's samples from the delayed read start (`ReferenceFromSlot`) |
| Processor.GainStageProcessor.MeasureLevels | Source/PluginProcessor.cpp:245-263 | the reference and the block are measured; both levels are RMS readings, or both are peak readings; the configuration, the smoother's rate included, is kept |
| Processor.GainStageProcessor.UpdateCompensation | Source/PluginProcessor.cpp:265-275 | the gate is `ShouldCompensate` and the published gain is one `SmoothStep` toward the clamped target |
| Processor.GainStageProcessor.RouteAudio | Source/PluginProcessor.cpp:277-327 | each sample becomes `RoutedSample` of the route; the delta analyser measures `DeltaOf` exactly when the route measures the delta, and is otherwise untouched |
| Processor.GainStageProcessor.RouteDelta | Source/PluginProcessor.cpp:288-322 | the delta block is measured and published; solo outputs it, otherwise compensation is applied |
| Processor.GainStageProcessor.MeasureDelta | Source/PluginProcessor.cpp:307-308 | the delta analyser measures the delta block and its RMS reading is published |
| Processor.GainStageProcessor.FinishOutput | Source/PluginProcessor.cpp:329-337 | the output trim, then the output analyser measures the result and its RMS reading is published |
| Processor.GainStageProcessor.Dispose | Source/PluginProcessor.cpp:37-43 | a Before instance leaves its pair inactive at every time; an After instance leaves the registry unchanged |

## Left out

- Float arithmetic: samples, levels and coefficients are exact reals. There is no rounding, no `float`/`double` distinction, and no denormals, so `ScopedNoDenormals` has nothing to do.
- `sqrt`, `log10`, `exp` and `juce::Decibels::decibelsToGain` are fields of a `Math` bundle. They carry only these facts:
  - sqrt of a non-negative number is non-negative, and sqrt 0 is 0;
  - exp of a negative number lies in (0, 1);
  - dB→gain is 0 at or below -100 dB, positive above, and 1 at 0 dB.
- `std::atomic` loads and stores, memory ordering, and races between instances: each operation runs alone, and the atomics are plain fields.
- `SharedBufferManager::getInstance`: the singleton is the `registry` object handed to the processor's constructor.
- `juce::Time::currentTimeMillis`: this is the `now` parameter, in milliseconds, in [0, 2^64).
- The host parameter tree (`createParameterLayout`, the parameter lookups in the constructor, `listenAfter`, which the processor never reads): the processor holds a `Params` snapshot. A missing mode or pair-ID parameter is `None`. Every other parameter is assumed present.
- Editor, look-and-feel, state save/restore, bus-layout checks and the MIDI/program stubs.
- `prepareToPlay` is not part of this model. The block methods require `Ready()`:
  - every analyser has a non-empty history and a window within it;
  - the smoother runs at a positive sample rate;
  - the reference block has at least one channel.

  `prepareToPlay` establishes this only for a sample rate of at least 9600 Hz. It resets only the before and after analysers' windows. The delta and output analysers keep their default window of 4800 samples, but their history is `trunc(sr * 0.5)` samples.
- Analysis.GainAnalyzer.Process: below 9600 Hz the delta and output analysers' window exceeds their history, and the model does not cover that case. In the source, the sum runs over 4800 positions of a shorter history, so some entries count more than once, and it is divided by `4800 * channels`. Also, `pos = writePos - 4800 + size` can stay negative. `(pos + i) % rmsBuffer_.size()` then converts a negative `pos + i` to `size_t`, so that term is read from `(2^64 + pos + i) % size` rather than from the wrapped window position.
- `getBuffer`'s debug assertion is not modelled; `Slot` requires a valid pair ID instead.
- SharedBuffer.SharedBufferManager.WriteSamples: requires that every written channel vector is at least the slot size, that the size is positive and that the cursor lies within it (`Writable`). The same holds for ReadSamples (`Readable`). `resize` only resizes the first `channels` vectors, so the source indexes past a shorter vector when those conditions fail.
- Processor.GainStageProcessor.ProcessAfterMode: requires `CanFetch`. The reference block must have at least as many channels as the block, because `copyFrom` and the delta loop read reference channel `ch` for every processed channel.
- Analysis.GainAnalyzer.Process: requires a non-empty history (the source takes `% 0` otherwise) and a block with at least one channel (the source divides by `windowSize * numChannels`).
- Processor.Measure: states only which block the analyser measured. The analyser's new history, cursor, peak and RMS are stated by `GainAnalyzer.Process`, not repeated at each call site.
- Processor.GainStageProcessor.MeasureLevels: likewise for both analysers.
- Processor.GainStageProcessor.ProcessBeforeMode: likewise for the before analyser.
- Processor.GainStageProcessor.RouteAudio: likewise for the delta analyser.
- Processor.GainStageProcessor.FinishOutput: likewise for the output analyser.
- Processor.GainStageProcessor.ProcessBlock: states which block each analyser measured and what was published from it, but not the analysers' new histories, cursors and peak-hold state. Those are stated once, by `GainAnalyzer.Process`.
- SharedBuffer.SharedBufferManager.PrepareBuffer: requires a non-negative sample rate for a valid pair ID, so that the truncated ring size is non-negative. The source accepts any rate, and a negative one becomes a huge `size_t`.
- Analysis.GainAnalyzer.Prepare: requires a non-negative sample rate, for the same reason for the history length.
- Analysis.GainSmoother.SetAttackTime: requires a positive time, so that the coefficient is `exp` of a negative number. The source accepts any time, and a zero time divides by zero.
- Analysis.GainSmoother.SetReleaseTime: requires a positive time, as `SetAttackTime` does.
- Analysis.Coefficient: requires a positive `timeMs`, as `SetAttackTime` does. The positive sample rate it also requires is the source's own guard in `updateCoefficients`.
- Processor.MakeDelta: the temporary `deltaBuffer` is a fresh array allocated per block, as in the source, with no allocator behaviour.
- Processor.GainStageProcessor.GrowReference: `setSize(..., keepExisting=false, clearExtraSpace=true, avoidReallocating=true)` becomes a fresh silent block of the block's shape. Reallocation is not observable in the model.
