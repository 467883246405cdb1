# pw-comp compressor core in Dafny

pw-comp is a PipeWire filter: a peak-detecting soft-knee stereo audio
compressor written in Go. This project models its signal-processing core
and proves properties of that model.

The core has two compressor engines with the same object shape:

- `SoftKneeCompressor` in `dsp/compressor.go` computes its gain curve in
  the log2 domain with `FastLog2`, `FastSqrt` and `FastPower2`. It is
  modelled in module `DspCompressor`.
- `SoftKneeCompressor` in `compressor.go` (package `main`) blends between
  no compression below `kneeLower` and full compression above `kneeUpper`
  with a smoothstep. It is modelled in module `Compressor`.

Both engines have:

- user parameters, clamped by the setters;
- cached coefficients, recomputed by `updateParameters`: the linear
  threshold, the knee, the slope, the automatic makeup gain and the
  attack and release factors;
- one peak envelope per channel;
- a per-sample step `processSampleInternal`;
- a block loop `ProcessBlock`, which sanitises its input in place, writes
  the output block and publishes meters;
- `Reset` and `GetMeters`.

The rest of the model:

- `Engine` holds the logic the two files share line for line: the
  envelope step, the time constants, automatic makeup, sanitising, and
  the block meters with their uint64 block counter.
- `Approximations` models `FastLog2`: a constructive `math.Frexp` and the
  Horner evaluation of the `cl2Continuous5` quartic.
- `Conversions` models `dsp/conversions.go`.
- `Signals` models the test buffer generators and stereo
  (de)interleaving of `test_signals.go`.
- `Analysis` models the measurements of `test_analysis.go`.
- `AudioBridge` models the two entry points of `main.go`:
  `processAudioBuffer` on an interleaved stereo buffer, and the dispatch
  of `process_channel_go`.
- `GoRuntime` holds the Go semantics the code relies on:
  - float64 values as `Float`, which is an exact real, NaN, +Inf or
    -Inf, with IEEE rules for the special values;
  - `Outcome`, which is either a returned value or a Go panic;
  - `MathLib`, which holds `math.Exp`, `math.Pow`, `math.Log10`,
    `math.Sqrt`, `FastSqrt` and `FastPower2` as uninterpreted functions. The laws
    the proofs use are listed in `Sound`, plus `PowBelowOne` where a gain must
    stay strictly below 1. `SoundWitness` shows that they are consistent.

How each engine is specified:

- Each class is specified by functions on values. `Process` is one
  sample step. `Run` is the block loop over a sanitised block, and
  returns outputs, gains, the final envelope and the meters.
- The methods are proved against these functions: `ProcessSample`,
  `ProcessBlock` and `processAudioBuffer`.
- The properties are proved about `Process` and `Run` as lemmas.
- `Valid()` says that every cached coefficient matches the parameters it
  is derived from. Every setter keeps it.

Behaviour the model keeps as the Go code has it:

- An infinite sample given to `ProcessSample` is not sanitised; only NaN
  is. It drives the envelope to +Inf. The envelope stays there until
  another infinite sample (Inf - Inf is NaN, which resets it to 0) or
  `Reset`. `Engine.EnvelopeInfinity` states this.
- `FastLog2(+Inf)` is -Inf, because `math.Frexp(+Inf)` returns +Inf and
  the negative leading coefficient drives the Horner steps to -Inf. The
  log2-domain engine therefore leaves an infinite envelope uncompressed
  (`DspCompressor.GainOfInfinitePeak`).
- `DBToLinear`'s doc comment says it uses `FastLog2`. The code calls
  `math.Pow(2, db * log2Of10Div20)`, and the model follows the code.

## Model

| member | source | states |
|---|---|---|
| Approximations.LdexpIsProduct | dsp/approximations.go:31-32 | the repeated doubling or halving that defines Ldexp is f * 2^e |
| Approximations.Pow2 | dsp/approximations.go:31-32 | every integer power of two is positive |
| Approximations.LdexpMonotone | dsp/approximations.go:31-32 | for a fixed exponent Ldexp is strictly increasing in the mantissa |
| Approximations.LdexpPositive | dsp/approximations.go:31-32 | a positive mantissa gives a positive Ldexp for every exponent |
| Approximations.LdexpNegate | dsp/approximations.go:31-32 | negating the mantissa negates Ldexp |
| Approximations.LdexpShift | dsp/approximations.go:31-32 | doubling the mantissa equals raising the exponent by one |
| Approximations.LdexpGrowing | dsp/approximations.go:31-32 | for a positive mantissa, a larger exponent gives a larger value |
| Approximations.SmallerExponent | dsp/approximations.go:31-32 | with mantissas in [0.5, 1), a smaller exponent gives a smaller value |
| Approximations.FrexpUnique | dsp/approximations.go:31-32 | the decomposition x = frac * 2^exp with 0.5 <= frac < 1 is unique |
| Approximations.Frexp | dsp/approximations.go:31-32 | for x > 0 the result satisfies 0.5 <= frac < 1 and x = frac * 2^exp |
| Approximations.FrexpOfLdexp | dsp/approximations.go:31-32 | frexp(ldexp(f, e)) = (f, e) for every mantissa f in [0.5, 1) |
| Approximations.FrexpFloat | dsp/approximations.go:31-32 | math.Frexp on every float64: NaN, the infinities and 0 come back with exponent 0; any other x gives a mantissa of magnitude in [0.5, 1) with the sign of x and x = Ldexp(frac, exp) |
| Approximations.Horner | dsp/approximations.go:35-38 | Horner steps on finite values stay finite; a NaN mantissa gives NaN |
| Approximations.HornerStep | dsp/approximations.go:35-38 | one Horner step is acc := acc * frac + c |
| Approximations.HornerOnMantissa | dsp/approximations.go:9-15 | the four Horner assignments compute c0 f^4 + c1 f^3 + c2 f^2 + c3 f + c4 with the cl2Continuous5 coefficients |
| Approximations.FastLog2 | dsp/approximations.go:24-43 | -Inf for x <= 0, including -Inf; NaN for NaN; finite for a finite x > 0 |
| Approximations.FastLog2Positive | dsp/approximations.go:31-42 | for x > 0 the result is (exp - 1) + the expanded quartic of the frexp mantissa |
| Approximations.FrexpDoubling | dsp/approximations.go:31-32 | doubling x keeps the mantissa and raises the exponent by one |
| Approximations.FastLog2Doubling | dsp/approximations.go:31-42 | FastLog2(2x) = FastLog2(x) + 1 exactly for x > 0 |
| Approximations.FastLog2OfInfinity | dsp/approximations.go:26-42 | FastLog2(+Inf) is -Inf |
| Approximations.HornerAtInfinity | dsp/approximations.go:35-38 | Horner steps against an infinite mantissa keep a -Inf accumulator at -Inf |
| Conversions.DBToLinear | dsp/conversions.go:15-19 | 2^(db * log2(10)/20) is positive and is 1 at 0 dB |
| Conversions.DBToLinearIncreasing | dsp/conversions.go:15-19 | more decibels give a strictly larger amplitude |
| Conversions.LinearToDB | dsp/conversions.go:27-38 | -144 for linear <= 0, NaN for NaN, finite for every finite value |
| Conversions.LinearToDBPositive | dsp/conversions.go:37 | for linear > 0 the result is FastLog2(linear) * 6.020599913 |
| Conversions.LinearToDBOfInfinity | dsp/conversions.go:27-38 | +Inf goes through FastLog2 to -Inf dB |
| Conversions.LinearToDBDoubling | dsp/conversions.go:37 | doubling a positive level adds exactly 6.020599913 dB |
| Conversions.LinearToDBSafe | dsp/conversions.go:42-48 | -144 for NaN and both infinities, LinearToDB's value otherwise, always finite |
| Conversions.GoInt | dsp/conversions.go:54 | int(x) truncates toward zero: \|int(x)\| <= \|x\| < \|int(x)\| + 1, with the sign of x |
| Conversions.GoIntOfInteger | dsp/conversions.go:54 | an integer value survives int() unchanged |
| Conversions.ShiftLeftOne | dsp/conversions.go:55 | uint64(1) << s stays below 2^64 |
| Conversions.ShiftLeftOneExact | dsp/conversions.go:55 | below 64 the shift is exactly 2^s |
| Conversions.FastPow2 | dsp/conversions.go:52-60 | the result is positive |
| Conversions.FastPow2OfInteger | dsp/conversions.go:52-56 | an integer x in [0, 64) gives exactly 2^x |
| Conversions.FastPow2Doubling | dsp/conversions.go:52-56 | each integer step up on the fast path doubles the result |
| Conversions.FastPow2OffFastPath | dsp/conversions.go:52-60 | 64 and above, negative values and non-integers go to math.Pow(2, x) |
| Conversions.FastPow | dsp/conversions.go:65-72 | a positive base gives a positive power |
| Conversions.FastPowPositive | dsp/conversions.go:65-72 | exponent 0 gives exactly 1 for a positive base |
| Conversions.FastPowDoubling | dsp/conversions.go:65-72 | doubling a positive base adds the exponent inside 2^(exponent * FastLog2(base)) |
| Engine.WrappingIncrement | dsp/compressor.go:251 | atomic.AddUint64 is the uint64 successor: below 2^64 and never the old value |
| Engine.DefaultSettings | dsp/compressor.go:67-85 | the constructor defaults are within the setters' clamped ranges for a positive rate |
| Engine.Refreshed | dsp/compressor.go:371-376 | updateParameters changes only the makeup gain, and only with autoMakeup on, where it becomes AutoMakeupDB |
| Engine.InputLevel | dsp/compressor.go:391-394 | \|sample\| with NaN replaced by 0 is a level, and equals \|v\| for a finite sample |
| Engine.EnvelopeStep | dsp/compressor.go:396-404 | the envelope after one step is never NaN |
| Engine.EnvelopeBetween | dsp/compressor.go:396-400 | with coefficients in [0, 1], attack on a louder input and release otherwise, the new peak lies between the old peak and the input level |
| Engine.EnvelopeKeepsLevel | dsp/compressor.go:396-404 | a level (finite >= 0, or +Inf) stays a level |
| Engine.EnvelopeStrictlyBetween | dsp/compressor.go:396-400 | with coefficients in (0, 1) the envelope moves strictly towards a different input and does not reach it |
| Engine.EnvelopeInfinity | dsp/compressor.go:396-404 | an infinite peak survives finite input, an infinite input makes the peak infinite, and two infinities reset it to 0 |
| Engine.AttackFactor | dsp/compressor.go:354 | 1 - exp(-ln2 / (attackMs * 0.001 * rate)) lies strictly in (0, 1) |
| Engine.ReleaseFactor | dsp/compressor.go:355 | exp(-ln2 / (releaseMs * 0.001 * rate)) lies strictly in (0, 1) |
| Engine.AutoMakeupDB | dsp/compressor.go:371-374 | -thresholdDB * (1 - 1/ratio) lies between 0 and -thresholdDB and is 0 at ratio 1 |
| Engine.AutoMakeupOfDefaults | dsp/compressor.go:69-70 | -20 dB at 4:1 gives +15 dB of makeup |
| Engine.Sanitize | dsp/compressor.go:215-217 | NaN and both infinities become 0; finite samples are kept |
| Engine.SanitizeAll | dsp/compressor.go:213-217 | every sample of the block is sanitised, in order |
| Engine.Output | dsp/compressor.go:411 | sample * gain * makeup, exactly, for a finite sample |
| Engine.MaxAbs | dsp/compressor.go:219-223 | the running maximum of \|x\| from 0 is at least 0 |
| Engine.MaxAbsIsMax | dsp/compressor.go:219-223 | MaxAbs bounds every \|x\| in the block and is attained, or 0 for an empty block |
| Engine.MaxAbsSnoc | dsp/compressor.go:221-223 | one more sample updates the maximum only when \|x\| is strictly larger |
| Engine.MinGain | dsp/compressor.go:239-241 | the running minimum from 1.0 is at most 1 |
| Engine.MinGainIsMin | dsp/compressor.go:239-241 | MinGain bounds every gain from below and is attained, or is 1.0 |
| Engine.MinGainSnoc | dsp/compressor.go:239-241 | one more gain updates the minimum only when it is strictly smaller |
| Engine.PublishMeters | dsp/compressor.go:245-256 | channel 0 writes the left meters and bumps the block counter, channel 1 writes the right meters, other channels publish nothing |
| Engine.SilentMeters | dsp/compressor.go:210-241 | a silent block meters 0 at the input, and all-unit gains meter 1.0 |
| Engine.UpdateEnvelope | dsp/compressor.go:396-404 | computes EnvelopeStep of the old peak and the input level |
| Engine.LevelsUpdate | dsp/compressor.go:396-404 | replacing one envelope by a level keeps every envelope a level |
| Engine.SanitizeInput | dsp/compressor.go:215-217 | in[i] is overwritten with its sanitised value and nothing else in the array changes |
| Engine.ArraysStep | dsp/compressor.go:213-242 | storing out[i] keeps the block loop's array invariant, with or without in/out aliasing |
| Engine.MeterWords.constructor | dsp/compressor.go:67-85 | a new compressor starts with every meter at 0 and no block counted |
| Engine.MeterWords.Publish | dsp/compressor.go:245-256 | the meter words after the stores are PublishMeters of the old ones |
| DspCompressor.KneeFactor | dsp/compressor.go:364-366 | (2 * log2(10)/20 * kneeDB)^2 is at least 0 and is 0 for a hard knee |
| DspCompressor.SoftKnee | dsp/compressor.go:446-455 | 0.5 (t - sqrt(t^2 + kneeFactor)) (1 - 1/ratio) is exactly 0 at ratio 1 |
| DspCompressor.SoftKneeNeverAmplifies | dsp/compressor.go:446-455 | at or above the threshold (t <= 0) the log2 gain is never positive |
| DspCompressor.GainLog2 | dsp/compressor.go:420-455 | a log2 gain reaches FastPower2 exactly when the peak is above 0 and the headroom is not positive; it is the soft-knee value of the headroom, and 0 at ratio 1 |
| DspCompressor.GainLog2NonPositive | dsp/compressor.go:446-455 | the log2 gain handed to FastPower2 is never positive |
| DspCompressor.CalculateGain | dsp/compressor.go:420-459 | 1.0 for peak <= 0 and for positive headroom (thresholdLog2 - FastLog2(peak) > 0), else FastPower2 of the log2 gain |
| DspCompressor.GainOfInfinitePeak | dsp/compressor.go:424-440 | an infinite peak gets gain 1.0, through FastLog2(+Inf) = -Inf |
| DspCompressor.UnitRatioGain | dsp/compressor.go:420-459 | at ratio 1 the gain is 1.0 or FastPower2(0) |
| DspCompressor.Process | dsp/compressor.go:382-414 | in bypass the step returns (sample, 1.0) and keeps the peak; a finite sample gives a finite output |
| DspCompressor.ProcessKeepsLevel | dsp/compressor.go:391-404 | the envelope after one step is a level |
| DspCompressor.ProcessEnvelopeBounds | dsp/compressor.go:396-400 | outside bypass a finite envelope moves towards the sample's level and never past it |
| DspCompressor.Run | dsp/compressor.go:213-242 | one output and one gain per sample |
| DspCompressor.RunOutputsFinite | dsp/compressor.go:227-232 | every output of the block loop is finite |
| DspCompressor.RunKeepsLevel | dsp/compressor.go:213-242 | the envelope stays a level over a block |
| DspCompressor.RunBypass | dsp/compressor.go:383-385 | in bypass the block comes out sanitised, every gain is 1.0 and the envelope is unchanged |
| DspCompressor.RunMeters | dsp/compressor.go:210-241 | the meters are MaxAbs of the inputs, MaxAbs of the outputs and MinGain of the gains |
| DspCompressor.RunSnoc | dsp/compressor.go:213-242 | one more sample extends the trace by one loop iteration |
| DspCompressor.SilentStep | dsp/compressor.go:391-413 | a zero sample against a zero envelope gives output 0, gain 1.0 and envelope 0 |
| DspCompressor.SilentEnvelope | dsp/compressor.go:396-404 | the envelope step from 0 towards 0 stays at 0 |
| DspCompressor.SilentGain | dsp/compressor.go:421-423 | a zero peak gets gain 1.0 |
| DspCompressor.SilentOutput | dsp/compressor.go:411 | a zero sample outputs 0 |
| DspCompressor.SilentSnoc | dsp/compressor.go:213-242 | one more zero sample keeps a silent trace silent |
| DspCompressor.SilentRun | dsp/compressor.go:213-242 | zeros against a zero envelope give zeros, unit gains and meters (0, 0, 1.0) |
| DspCompressor.SilenceAfterReset | dsp/compressor.go:260-267 | after Reset an all-zero block outputs zeros with meters (0, 0, 1.0) |
| DspCompressor.ProcessChannel | dsp/compressor.go:391-413 | the step on an in-range channel returns Process's output and gain, and only peak[channel] changes |
| DspCompressor.SampleStep | dsp/compressor.go:214-232 | one loop pass: in[i] is sanitised in place, out[i] is the sanitised output, and only peak[channel] moves |
| DspCompressor.InvStep | dsp/compressor.go:213-242 | one iteration keeps the loop invariant |
| DspCompressor.InvDone | dsp/compressor.go:213-242 | after the last iteration the arrays and the envelope are those of Run |
| DspCompressor.SampleLoop | dsp/compressor.go:210-242 | the loop writes Run's outputs, sanitises the input unless it is the output, moves only peak[channel], and returns Run's meters |
| DspCompressor.SoftKneeCompressor.GetMeters | dsp/compressor.go:270-286 | reports the published meters, the block counter and the sample rate |
| DspCompressor.SoftKneeCompressor.CoefficientsInRange | dsp/compressor.go:353-356 | valid parameters give attack and release factors strictly in (0, 1) and a knee factor >= 0 |
| DspCompressor.SoftKneeCompressor.constructor | dsp/compressor.go:67-85 | -20 dB, 4:1, 6 dB knee, 10 / 100 ms, auto makeup (+15 dB), bypass off, zero envelopes and meters |
| DspCompressor.SoftKneeCompressor.UpdateTimeConstants | dsp/compressor.go:353-356 | attack and release factors recomputed from the times and the rate |
| DspCompressor.SoftKneeCompressor.UpdateParameters | dsp/compressor.go:359-378 | every cached value matches the parameters, and the parameters change only as Refreshed says |
| DspCompressor.SoftKneeCompressor.UpdateLevels | dsp/compressor.go:360-366 | the linear threshold, its reciprocal and the knee factor |
| DspCompressor.SoftKneeCompressor.UpdateMakeup | dsp/compressor.go:368-376 | the slope reciprocal, the automatic makeup gain (only with autoMakeup on) and its linear value |
| DspCompressor.SoftKneeCompressor.SetThreshold | dsp/compressor.go:88-94 | stores dB and refreshes the derived values |
| DspCompressor.SoftKneeCompressor.SetRatio | dsp/compressor.go:97-107 | stores max(ratio, 1.0) and refreshes |
| DspCompressor.SoftKneeCompressor.SetKnee | dsp/compressor.go:110-120 | stores max(knee, 0.0) and refreshes |
| DspCompressor.SoftKneeCompressor.SetAttack | dsp/compressor.go:123-133 | stores max(time, 0.1) and recomputes only the time constants |
| DspCompressor.SoftKneeCompressor.SetRelease | dsp/compressor.go:136-146 | stores max(time, 1.0) and recomputes only the time constants |
| DspCompressor.SoftKneeCompressor.SetMakeupGain | dsp/compressor.go:149-156 | stores the dB value and turns autoMakeup off |
| DspCompressor.SoftKneeCompressor.SetAutoMakeup | dsp/compressor.go:159-165 | stores the flag and refreshes, so that makeup follows threshold and ratio when on |
| DspCompressor.SoftKneeCompressor.SetBypass | dsp/compressor.go:168-173 | stores the flag and nothing else |
| DspCompressor.SoftKneeCompressor.SetSampleRate | dsp/compressor.go:176-188 | a rate <= 0 or the current rate changes nothing; otherwise it stores the rate and recomputes only the time constants |
| DspCompressor.SoftKneeCompressor.ProcessSampleInternal | dsp/compressor.go:382-414 | bypass or a channel out of range returns (sample, 1.0) with every peak unchanged; otherwise it returns Process's result and only peak[channel] changes |
| DspCompressor.SoftKneeCompressor.ProcessSample | dsp/compressor.go:191-198 | processSampleInternal's output, with the same effect on the envelopes |
| DspCompressor.SoftKneeCompressor.ProcessSamples | dsp/compressor.go:210-242 | writes Run's outputs, sanitises the input in place unless it is the output, moves only peak[channel], and returns the block's meters |
| DspCompressor.SoftKneeCompressor.ProcessBlock | dsp/compressor.go:201-257 | a bad channel or a length mismatch changes nothing; otherwise the outputs, the sanitised input, the envelope and the meters are those of Run and PublishMeters |
| DspCompressor.SoftKneeCompressor.Reset | dsp/compressor.go:260-267 | every envelope is 0 and nothing else changes |
| Compressor.DBToAmplitude | compressor.go:194 | math.Pow(10, db/20) is positive and is 1 at 0 dB |
| Compressor.DBToAmplitudeIncreasing | compressor.go:194-199 | more decibels give a strictly larger amplitude |
| Compressor.KneeOfValid | compressor.go:194-200 | kneeWidth = kneeUpper - kneeLower; kneeLower < threshold < kneeUpper for a soft knee, all three equal for a hard knee |
| Compressor.KneeOf | compressor.go:194-200 | the linear threshold of thresholdDB, positive knee boundaries with kneeWidth = kneeUpper - kneeLower, and all three equal to the threshold for a 0 dB knee |
| Compressor.Slope | compressor.go:322 | 1 - 1/ratio lies in [0, 1) and is 0 exactly at ratio 1 |
| Compressor.SmoothStepRange | compressor.go:328-329 | smoothFactor k^2 (3 - 2k) lies in [0, 1] on [0, 1], strictly inside for k in (0, 1), and is 0 at 0 and 1 at 1 |
| Compressor.SmoothStepLow | compressor.go:329 | k^2 (3 - 2k) >= 0 for k in [0, 1], and > 0 once k > 0 |
| Compressor.SmoothStepHigh | compressor.go:329 | k^2 (3 - 2k) <= 1 for k in [0, 1], and < 1 while k < 1 |
| Compressor.SmoothStepComplement | compressor.go:329 | 1 - k^2 (3 - 2k) = (1 - k)^2 (1 + 2k) |
| Compressor.CalculateGain | compressor.go:319-333 | 1.0 for peak <= kneeLower; (threshold/peak)^(1 - 1/ratio) at or above kneeUpper; the blend strictly inside the knee; NaN for NaN only |
| Compressor.BlendBetween | compressor.go:328-332 | inside the knee the width is positive, kneePos lies in (0, 1), and the gain lies between compressedGain and 1.0, strictly when compressedGain < 1 |
| Compressor.QuotientInside | compressor.go:328 | 0 < a < w gives 0 < a/w < 1 for the knee position |
| Compressor.Interpolate | compressor.go:332 | 1 + (g - 1) s for s in (0, 1) lies between g and 1 |
| Compressor.BlendContinuous | compressor.go:320-332 | the blend is 1.0 at kneeLower and equals the upper branch at kneeUpper |
| Compressor.HardKneeSkipsBlend | compressor.go:197-200 | with knee 0 every peak that is not NaN takes the first or the second branch, so the division by kneeWidth is never reached |
| Compressor.GainRange | compressor.go:319-333 | for a level the gain lies in [0, 1], and is positive for a finite peak |
| Compressor.UnitRatioGain | compressor.go:319-333 | at ratio 1 every peak that is not NaN gets gain exactly 1.0 |
| Compressor.GainNonIncreasing | compressor.go:319-333 | over finite levels a louder peak never gets more gain: flat part, smoothstep blend and full compression together are non-increasing |
| Compressor.SmoothStepMonotone | compressor.go:328-329 | the smoothstep k^2 (3 - 2k) is non-decreasing on [0, 1] |
| Compressor.GainBelowOne | compressor.go:319-333 | with a ratio above 1, every level above kneeLower (+Inf included) gets a gain strictly below 1, for the soft and the hard knee updateParameters builds |
| Compressor.GainValue | compressor.go:239-242 | a NaN gain is replaced by 1.0; a finite gain passes unchanged |
| Compressor.Process | compressor.go:215-247 | in bypass the step returns (sample, 1.0) and keeps the peak; a finite sample gives a finite output |
| Compressor.ProcessKeepsLevel | compressor.go:224-237 | the envelope after one step is a level |
| Compressor.ProcessEnvelopeBounds | compressor.go:229-233 | outside bypass a finite envelope moves towards the sample's level and never past it |
| Compressor.ProcessGainRange | compressor.go:239-242 | against a level the gain of a step lies in [0, 1] |
| Compressor.Run | compressor.go:272-301 | one output and one gain per sample |
| Compressor.RunOutputsFinite | compressor.go:286-291 | every output of the block loop is finite |
| Compressor.RunKeepsLevel | compressor.go:272-301 | the envelope stays a level over a block |
| Compressor.RunBypass | compressor.go:216-218 | in bypass the block comes out sanitised, every gain is 1.0 and the envelope is unchanged |
| Compressor.RunMeters | compressor.go:269-300 | the meters are MaxAbs of the inputs, MaxAbs of the outputs and MinGain of the gains |
| Compressor.RunSnoc | compressor.go:272-301 | one more sample extends the trace by one loop iteration |
| Compressor.ProcessChannel | compressor.go:224-246 | the step on an in-range channel returns Process's output and gain, and only peak[channel] changes |
| Compressor.SampleStep | compressor.go:273-291 | one loop pass: in[i] is sanitised in place, out[i] is the sanitised output, and only peak[channel] moves |
| Compressor.InvStep | compressor.go:272-301 | one iteration keeps the loop invariant |
| Compressor.InvDone | compressor.go:272-301 | after the last iteration the arrays and the envelope are those of Run |
| Compressor.SampleLoop | compressor.go:269-301 | the loop writes Run's outputs, sanitises the input unless it is the output, moves only peak[channel], and returns Run's meters |
| Compressor.SoftKneeCompressor.GetMeters | compressor.go:346-362 | reports the published meters, the block counter and the sample rate |
| Compressor.SoftKneeCompressor.CoefficientsInRange | compressor.go:187-190 | valid parameters give attack and release factors strictly in (0, 1) and a valid knee |
| Compressor.SoftKneeCompressor.KneeAroundThreshold | compressor.go:193-200 | kneeWidth = kneeUpper - kneeLower; kneeLower < threshold < kneeUpper for knee > 0, and all equal for knee 0 |
| Compressor.SoftKneeCompressor.constructor | compressor.go:63-81 | -20 dB, 4:1, 6 dB knee, 10 / 100 ms, auto makeup (+15 dB), bypass off, zero envelopes and meters |
| Compressor.SoftKneeCompressor.UpdateTimeConstants | compressor.go:187-190 | attack and release factors recomputed from the times and the rate |
| Compressor.SoftKneeCompressor.UpdateParameters | compressor.go:193-211 | every cached value matches the parameters, and the parameters change only as Refreshed says |
| Compressor.SoftKneeCompressor.UpdateLevels | compressor.go:194-200 | the linear threshold, its reciprocal and the knee boundaries are KneeOf of the parameters |
| Compressor.SoftKneeCompressor.UpdateMakeup | compressor.go:202-209 | the slope reciprocal, the automatic makeup gain (only with autoMakeup on) and its linear value |
| Compressor.SoftKneeCompressor.SetThreshold | compressor.go:84-90 | stores dB and refreshes the derived values |
| Compressor.SoftKneeCompressor.SetRatio | compressor.go:93-103 | stores max(ratio, 1.0) and refreshes |
| Compressor.SoftKneeCompressor.SetKnee | compressor.go:106-116 | stores max(knee, 0.0) and refreshes |
| Compressor.SoftKneeCompressor.SetAttack | compressor.go:119-129 | stores max(time, 0.1) and recomputes only the time constants |
| Compressor.SoftKneeCompressor.SetRelease | compressor.go:132-142 | stores max(time, 1.0) and recomputes only the time constants |
| Compressor.SoftKneeCompressor.SetMakeupGain | compressor.go:145-152 | stores the dB value and turns autoMakeup off |
| Compressor.SoftKneeCompressor.SetAutoMakeup | compressor.go:155-161 | stores the flag and refreshes, so that makeup follows threshold and ratio when on |
| Compressor.SoftKneeCompressor.SetBypass | compressor.go:164-169 | stores the flag and nothing else |
| Compressor.SoftKneeCompressor.SetSampleRate | compressor.go:172-184 | a rate <= 0 or the current rate changes nothing; otherwise it stores the rate and recomputes only the time constants |
| Compressor.SoftKneeCompressor.ProcessSampleInternal | compressor.go:215-247 | bypass or a channel out of range returns (sample, 1.0) with every peak unchanged; otherwise it returns Process's result and only peak[channel] changes |
| Compressor.SoftKneeCompressor.ProcessSample | compressor.go:250-257 | processSampleInternal's output, with the same effect on the envelopes |
| Compressor.SoftKneeCompressor.ProcessSamples | compressor.go:269-301 | writes Run's outputs, sanitises the input in place unless it is the output, moves only peak[channel], and returns the block's meters |
| Compressor.SoftKneeCompressor.ProcessBlock | compressor.go:260-316 | a bad channel or a length mismatch changes nothing; otherwise the outputs, the sanitised input, the envelope and the meters are those of Run and PublishMeters |
| Compressor.SoftKneeCompressor.Reset | compressor.go:336-343 | every envelope is 0 and nothing else changes |
| Signals.Interleaved | test_signals.go:80-84 | an interleaved pair has twice the length of each channel |
| Signals.Evens | test_signals.go:95-101 | the left half has length n/2 |
| Signals.Odds | test_signals.go:95-102 | the right half has length n/2 |
| Signals.NewBuffer | test_signals.go:45 | make returns a fresh buffer of zeros |
| Signals.GenerateDC | test_signals.go:44-51 | panics exactly for a negative length; otherwise `length` copies of the level |
| Signals.GenerateStep | test_signals.go:55-62 | panics exactly for a negative length or start; otherwise 0 before the start and the amplitude from there on |
| Signals.GenerateImpulse | test_signals.go:65-72 | panics exactly for a negative length or position; otherwise 0 except the amplitude at the position, when that is inside the buffer |
| Signals.InterleaveChannels | test_signals.go:75-87 | panics exactly on a length mismatch; otherwise slot 2i holds left[i] and slot 2i + 1 holds right[i] |
| Signals.DeinterleaveChannels | test_signals.go:90-105 | panics exactly on an odd length; otherwise left takes the even slots and right the odd ones |
| Signals.DeinterleaveInterleave | test_signals.go:75-105 | deinterleaving an interleaved pair gives the pair back |
| Signals.InterleaveDeinterleave | test_signals.go:75-105 | interleaving the two halves of an even-length buffer gives the buffer back |
| Signals.StepEnds | test_signals.go:55-62 | a step from 0 is a DC buffer, and a step at the end is silence |
| Analysis.PeakMagnitudeIsAbs | test_analysis.go:23-26 | negating when `abs < 0` is math.Abs, with NaN kept |
| Analysis.PeakOf | test_analysis.go:20-32 | 0 for an empty buffer; never NaN and never below 0 |
| Analysis.PeakOfIsMax | test_analysis.go:20-32 | the peak is never NaN, is at least 0, bounds \|s\| of every non-NaN sample, and is 0 or attained |
| Analysis.FindPeak | test_analysis.go:20-32 | the loop returns the peak, a non-NaN upper bound of every non-NaN magnitude, and 0 for an empty buffer |
| Analysis.SumSquaresNonNegative | test_analysis.go:11-14 | the sum of squares is never -Inf or a negative finite value; it is finite when every sample is, and not NaN when no sample is |
| Analysis.SumSquares | test_analysis.go:11-14 | 0 for an empty buffer; NaN as soon as any sample is NaN |
| Analysis.RMS | test_analysis.go:6-17 | 0 for an empty buffer; never -Inf; NaN as soon as any sample is NaN |
| Analysis.RMSOfFinite | test_analysis.go:6-17 | the RMS of finite samples is finite and at least 0 |
| Analysis.CalculateRMS | test_analysis.go:6-17 | the loop computes 0 for an empty buffer, else sqrt(sum / n) |
| Analysis.LinearToDBFS | test_analysis.go:36-41 | -Inf for a value <= 0, 20 log10(v) for finite v > 0, NaN for NaN |
| Analysis.DBFSRoundTrip | test_analysis.go:36-46 | DBFSToLinear(LinearToDBFS(v)) = v for every positive finite v |
| Analysis.MeasureGainReduction | test_analysis.go:49-64 | panics exactly on a length mismatch; the two RMS values; the reduction is 0 unless both RMS values are above 0 |
| Analysis.GainReductionOfFinite | test_analysis.go:49-64 | for finite buffers every result is finite, the reduction is 20 log10(in) - 20 log10(out) when both are positive, and a buffer against itself shows 0 |
| AudioBridge.Drive | main.go:60-65 | one output per sample and one envelope per compressor channel |
| AudioBridge.Stream | main.go:60-65 | one output per sample of the channel |
| AudioBridge.LaneSnoc | main.go:60-65 | one more sample extends the lane of its own channel only |
| AudioBridge.StreamSnoc | main.go:60-65 | one more sample extends a mono stream by one Process step |
| AudioBridge.DrivePerChannel | main.go:58-65 | frame-major order hands each stereo channel exactly its own samples in time order, so its outputs and envelope are those of a mono stream |
| AudioBridge.DrivePassThrough | main.go:60-65 | a channel without an envelope gets its samples back unchanged |
| AudioBridge.DriveKeepsOtherEnvelopes | main.go:60-65 | envelopes past the stereo pair are never touched |
| AudioBridge.LaneAt | main.go:62 | lane ch holds the samples in slots ch, ch + 2, ... |
| AudioBridge.LanesAreDeinterleaved | main.go:54-62 | on whole frames, lanes 0 and 1 are the left and right halves of DeinterleaveChannels |
| AudioBridge.StereoBufferIsTwoStreams | main.go:48-66 | a stereo buffer comes out as the interleaving of two independent mono streams |
| AudioBridge.DriveSnoc | main.go:62-63 | one more sample is one more ProcessSample call |
| AudioBridge.FrameIndex | main.go:62 | slot i * channels + ch belongs to channel ch |
| AudioBridge.ProcessAudioBuffer | main.go:48-66 | no compressor or a partial frame changes nothing; otherwise the buffer becomes Drive's outputs and the envelopes Drive's envelopes |
| AudioBridge.ProcessFrame | main.go:61-64 | the inner loop processes the channels of frame i in order |
| AudioBridge.ProcessOne | main.go:62-63 | audio[index] is replaced by ProcessSample(audio[index], ch) |
| AudioBridge.ProcessChannelGo | main.go:68-85 | no compressor changes nothing; a positive rate goes to SetSampleRate; then the block goes to ProcessBlock with its full contract |

## Left out

- Floating-point rounding, float32 conversions, float64 overflow and
  signed zero: samples are exact reals or IEEE special values, and
  parameters are exact reals. The output `float32(...)` cast in
  processSampleInternal is the identity here.
- SetThreshold, SetRatio, SetKnee, SetAttack, SetRelease, SetMakeupGain and
  SetSampleRate, in both engines: they take finite reals only, so a NaN or
  an infinite argument cannot be expressed. In Go the clamps are written
  with `<` (dsp/compressor.go:101, 114, 127, 140 and compressor.go:97, 110,
  123, 136), so NaN passes through them, and main.go:140-144 hands
  command-line values straight to the setters. For example, `SetRatio(NaN)`
  stores NaN; with auto makeup on, the makeup gain becomes NaN and every
  output sample is NaN. The model does not capture this.
- The mutex, and the atomic loads and stores of the meters: access is
  sequential, and the meter words are a separate object (`Engine.MeterWords`).
- `FastSqrt` and `FastPower2` are not part of this model's source. They
  are uninterpreted functions, and `FastSqrt` is only known to be
  non-negative. Both are real-to-real, so they never return NaN or an
  infinity. As a result, the NaN-gain guard at dsp/compressor.go:407
  never fires in the model. It also means that on the `ProcessSample`
  path of the log2 engine, "a finite sample gives a finite output" rests
  on `FastPower2` always returning a finite value.
- DspCompressor.CalculateGain: the log2 engine's gain is not proved to lie
  in (0, 1] or to be non-increasing in the peak. Both depend on how
  `FastSqrt`, `FastPower2` and `FastLog2` behave, and the first two are
  uninterpreted here. What is proved is that the log2 gain handed to
  `FastPower2` is never positive (`DspCompressor.GainLog2NonPositive`). `math.Exp`, `math.Pow`, `math.Log10` and `math.Sqrt` are
  uninterpreted too, with the laws listed in `GoRuntime.Sound` and
  `GoRuntime.PowBelowOne`.
- `GenerateSine` and `GenerateInterleavedStereoSine`, because `math.Sin`
  is a floating-point routine.
- The getters of both engines return single fields. They are modelled by
  `Parameters()`, which has no contract of its own.
- `DBFSToLinear` of test_analysis.go computes `math.Pow(10, dbfs/20)`,
  the same expression as `Compressor.DBToAmplitude`, and is modelled by
  that function.
- main.go's package-level `compressor` variable is a parameter that may
  be null, and its `channels` is the constant 2, which main.go never
  reassigns.
- The `unsafe.Slice` conversion in process_channel_go: the C buffers are
  Dafny arrays of the given length.
- The TUI, the PipeWire/cgo wrapper, command-line parsing and `main()`.
- The compressor's `channels` argument must be at least 0 in the
  constructor; Go's `make` would panic otherwise.
- The constructors require a positive sample rate. main.go passes its
  constant 48000 and the tests pass positive constants. A rate <= 0 would
  make the time constants divide by zero or go negative.
- MathLib accessors read 0 at a point outside their map. `Sound` does not
  require the maps to be total: `FastPower2` is unconstrained, and `Pow`,
  `Log10`, `Exp` and `Sqrt` are unconstrained away from the points the laws
  of `Sound` mention. The fallback 0 is therefore just one more
  interpretation of these functions, and no proof depends on it.
- ProcessBlock in both engines: `inp` and `out` are either the same array
  or two disjoint ones. The two C buffers that process_channel_go receives
  could also overlap partially, and the model does not cover that case.
- Conversions.FastPow: the branch for a base <= 0 is `math.Pow(base,
  exponent)`. Nothing beyond that definition is stated about it, because
  `math.Pow` is uninterpreted.
