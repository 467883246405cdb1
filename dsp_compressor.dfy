/** dsp/compressor.go: the compressor whose gain curve is computed in the log2
    domain with FastLog2, FastSqrt and FastPower2. */
module DspCompressor {
  import opened GoRuntime
  import opened Approximations
  import opened Conversions
  import opened Engine

  datatype Option<T> = None | Some(value: T)

  /** kneeFactor = (2 * log2(10)/20 * kneeDB)^2, the knee width squared in
      log2 units; zero for a hard knee. */
  function KneeFactor(kneeDB: real): (r: real)
    ensures r >= 0.0
    ensures kneeDB == 0.0 ==> r == 0.0
  {
    var k := 2.0 * Log2Of10Div20 * kneeDB;
    k * k
  }

  /** What calculateGain reads: the threshold in dB, the ratio and the knee factor. */
  datatype Curve = Curve(lib: MathLib, thresholdDB: real, ratio: real, kneeFactor: real)

  /** thresholdLog2 - FastLog2(peak): positive when the peak is below the threshold. */
  function Headroom(c: Curve, peak: Float): Float {
    Sub(Finite(c.thresholdDB * Log2Of10Div20), FastLog2(peak))
  }

  /** The soft-knee curve in the log2 domain for a headroom t:
      0.5 * (t - sqrt(t^2 + kneeFactor)) * (1 - 1/ratio). At ratio 1 it is 0. */
  function SoftKnee(c: Curve, t: real): (r: real)
    requires c.ratio >= 1.0
    ensures c.ratio == 1.0 ==> r == 0.0
  {
    var gainLog2 := 0.5 * (t - c.lib.FastSqrt(t * t + c.kneeFactor));
    var slope := 1.0 - 1.0 / c.ratio;
    assert c.ratio == 1.0 ==> gainLog2 * slope == gainLog2 * 0.0 == 0.0;
    gainLog2 * slope
  }

  /** For t <= 0 (a peak at or above the threshold) the curve never
      amplifies, because FastSqrt is never negative. */
  lemma SoftKneeNeverAmplifies(c: Curve, t: real)
    requires c.ratio >= 1.0 && Sound(c.lib) && t <= 0.0
    ensures SoftKnee(c, t) <= 0.0
  {
    var gainLog2 := 0.5 * (t - c.lib.FastSqrt(t * t + c.kneeFactor));
    var slope := 1.0 - 1.0 / c.ratio;
    assert 0.0 <= slope;
    NonPositiveTimesFraction(gainLog2, slope, gainLog2 * slope);
  }

  lemma NonPositiveTimesFraction(g: real, s: real, p: real)
    requires 0.0 <= s && p == g * s
    ensures g <= 0.0 ==> p <= 0.0
  {
    if g <= 0.0 {
      assert -p == (-g) * s;
    }
  }

  /** The log2 gain that calculateGain hands to FastPower2, or None when it
      returns 1.0 early: for peak <= 0 and for a peak below the threshold.
      A NaN headroom arises only from a NaN peak, which the envelope never
      holds; processSampleInternal would turn its NaN gain into 1.0. */
  function GainLog2(c: Curve, peak: Float): (r: Option<real>)
    requires c.ratio >= 1.0
    ensures r.Some? <==> !LessEq(peak, Finite(0.0)) && Headroom(c, peak).Finite?
                         && Headroom(c, peak).v <= 0.0
    ensures r.Some? ==> peak.Finite? && peak.v > 0.0 && r.value == SoftKnee(c, Headroom(c, peak).v)
    ensures r.Some? && c.ratio == 1.0 ==> r.value == 0.0
  {
    FastLog2OfInfinity();
    if LessEq(peak, Finite(0.0)) then None
    else
      var temp := Headroom(c, peak);
      if Less(Finite(0.0), temp) then None
      else if !temp.Finite? then None
      else Some(SoftKnee(c, temp.v))
  }

  /** The log2 gain handed to FastPower2 is never positive. */
  lemma GainLog2NonPositive(c: Curve, peak: Float)
    requires c.ratio >= 1.0 && Sound(c.lib) && GainLog2(c, peak).Some?
    ensures GainLog2(c, peak).value <= 0.0
  {
    SoftKneeNeverAmplifies(c, Headroom(c, peak).v);
  }

  /** calculateGain: 1.0 when GainLog2 says no compression, else FastPower2
      of the log2 gain. */
  function CalculateGain(c: Curve, peak: Float): (r: real)
    requires c.ratio >= 1.0
    ensures LessEq(peak, Finite(0.0)) ==> r == 1.0
    ensures Less(Finite(0.0), Headroom(c, peak)) ==> r == 1.0
    ensures GainLog2(c, peak).Some? ==> r == c.lib.FastPower2(GainLog2(c, peak).value)
  {
    match GainLog2(c, peak)
    case None => 1.0
    case Some(g) => c.lib.FastPower2(g)
  }

  /** An infinite peak is "below" the threshold: FastLog2(+Inf) is -Inf, the
      headroom is +Inf and the gain is 1.0. */
  lemma GainOfInfinitePeak(c: Curve)
    requires c.ratio >= 1.0
    ensures GainLog2(c, PosInf) == None
    ensures CalculateGain(c, PosInf) == 1.0
  {
    FastLog2OfInfinity();
    assert Headroom(c, PosInf) == PosInf;
  }

  /** At ratio 1 the curve hands exactly 0 to FastPower2 whatever the peak. */
  lemma UnitRatioGain(c: Curve, peak: Float)
    requires c.ratio == 1.0
    ensures CalculateGain(c, peak) == 1.0 || CalculateGain(c, peak) == c.lib.FastPower2(0.0)
  {
  }

  /** The coefficients one processing step reads. */
  datatype Coefficients = Coefficients(curve: Curve, bypass: bool, attack: real,
                                       release: real, makeup: real)

  predicate CoefficientsValid(k: Coefficients) {
    k.curve.ratio >= 1.0 && 0.0 <= k.attack <= 1.0 && 0.0 <= k.release <= 1.0
  }

  /** processSampleInternal for a channel in range: bypass passes the sample
      through with gain 1.0; otherwise the envelope moves, the gain follows
      the new peak and the output is sample * gain * makeup. */
  function Process(k: Coefficients, peak: Float, sample: Float): (r: StepResult)
    requires k.curve.ratio >= 1.0
    ensures k.bypass ==> r == StepResult(sample, 1.0, peak)
    ensures sample.Finite? ==> r.out.Finite?
  {
    if k.bypass then StepResult(sample, 1.0, peak)
    else
      var p := EnvelopeStep(peak, InputLevel(sample), k.attack, k.release);
      var g := CalculateGain(k.curve, p);
      StepResult(Output(sample, g, k.makeup), g, p)
  }

  /** With valid coefficients the envelope stays a level. */
  lemma ProcessKeepsLevel(k: Coefficients, peak: Float, sample: Float)
    requires CoefficientsValid(k) && IsLevel(peak)
    ensures IsLevel(Process(k, peak, sample).peak)
  {
    if !k.bypass {
      EnvelopeKeepsLevel(peak, InputLevel(sample), k.attack, k.release);
    }
  }

  /** Outside bypass a finite envelope moves towards the level of a finite
      sample and never past it: attack when the sample is louder, release
      otherwise. */
  lemma ProcessEnvelopeBounds(k: Coefficients, peak: Float, sample: Float)
    requires k.curve.ratio >= 1.0 && !k.bypass && peak.Finite? && sample.Finite?
    ensures var r := Process(k, peak, sample);
            peak.v < AbsReal(sample.v) && 0.0 <= k.attack <= 1.0
            ==> r.peak.Finite? && peak.v <= r.peak.v <= AbsReal(sample.v)
    ensures var r := Process(k, peak, sample);
            AbsReal(sample.v) <= peak.v && 0.0 <= k.release <= 1.0
            ==> r.peak.Finite? && AbsReal(sample.v) <= r.peak.v <= peak.v
  {
    EnvelopeBetween(peak, InputLevel(sample), k.attack, k.release);
  }

  function Run(k: Coefficients, peak: Float, xs: seq<Float>): (r: Trace)
    requires k.curve.ratio >= 1.0
    ensures |r.outs| == |xs| && |r.gains| == |xs|
    decreases |xs|
  {
    if |xs| == 0 then Trace([], [], peak, 0.0, 0.0, 1.0)
    else
      var t := Run(k, peak, xs[..|xs| - 1]);
      var x := xs[|xs| - 1];
      Extend(t, x, Process(k, t.peak, x))
  }

  /** Every output of the loop is finite. */
  lemma {:induction false} RunOutputsFinite(k: Coefficients, peak: Float, xs: seq<Float>)
    requires k.curve.ratio >= 1.0
    ensures AllFinite(Run(k, peak, xs).outs)
    decreases |xs|
  {
    if |xs| > 0 {
      RunOutputsFinite(k, peak, xs[..|xs| - 1]);
    }
  }

  /** With valid coefficients the envelope stays a level over a block. */
  lemma {:induction false} RunKeepsLevel(k: Coefficients, peak: Float, xs: seq<Float>)
    requires CoefficientsValid(k) && IsLevel(peak)
    ensures IsLevel(Run(k, peak, xs).peak)
    decreases |xs|
  {
    if |xs| > 0 {
      RunKeepsLevel(k, peak, xs[..|xs| - 1]);
      var t := Run(k, peak, xs[..|xs| - 1]);
      ProcessKeepsLevel(k, t.peak, xs[|xs| - 1]);
    }
  }

  /** In bypass the loop only sanitises: the block comes out sanitised, every
      gain is 1.0 and the envelope does not move. */
  lemma {:induction false} RunBypass(k: Coefficients, peak: Float, xs: seq<Float>)
    requires k.curve.ratio >= 1.0 && k.bypass
    ensures var t := Run(k, peak, xs);
            t.outs == SanitizeAll(xs) && t.gains == Ones(|xs|) && t.peak == peak
    decreases |xs|
  {
    if |xs| > 0 {
      RunBypass(k, peak, xs[..|xs| - 1]);
      OnesSnoc(|xs|);
    }
  }

  /** The meters the loop keeps are the block's peak input and output
      magnitude and its smallest gain. */
  lemma {:induction false} RunMeters(k: Coefficients, peak: Float, xs: seq<Float>)
    requires k.curve.ratio >= 1.0
    ensures var t := Run(k, peak, xs);
            && t.maxIn == MaxAbs(xs) && t.maxOut == MaxAbs(t.outs)
            && t.minGain == MinGain(t.gains)
    decreases |xs|
  {
    if |xs| > 0 {
      var init := xs[..|xs| - 1];
      RunMeters(k, peak, init);
      var t := Run(k, peak, init);
      var s := Process(k, t.peak, xs[|xs| - 1]);
      MaxAbsSnoc(t.outs, Sanitize(s.out));
      MinGainSnoc(t.gains, s.gain);
    }
  }

  /** Run over one more sample extends the trace t of the first i samples
      by the step s of sample i. */
  lemma RunSnoc(k: Coefficients, peak: Float, xs: seq<Float>, i: nat, t: Trace, s: StepResult)
    requires k.curve.ratio >= 1.0 && i < |xs|
    requires t == Run(k, peak, xs[..i]) && s == Process(k, t.peak, xs[i])
    ensures Run(k, peak, xs[..i + 1]) == Extend(t, xs[i], s)
  {
    assert xs[..i + 1][..i] == xs[..i];
  }

  /** A zero sample against a zero envelope: output 0, gain 1.0, envelope 0. */
  lemma SilentStep(k: Coefficients, z: Float)
    requires k.curve.ratio >= 1.0 && z.Finite? && z.v == 0.0
    ensures Process(k, z, z) == StepResult(z, 1.0, z)
  {
    if !k.bypass {
      SilentEnvelope(z, k.attack, k.release);
      SilentGain(k.curve, z);
      SilentOutput(z, k.makeup);
    }
  }

  lemma SilentEnvelope(z: Float, attack: real, release: real)
    requires z.Finite? && z.v == 0.0
    ensures EnvelopeStep(z, z, attack, release) == z
  {
  }

  lemma SilentGain(c: Curve, z: Float)
    requires c.ratio >= 1.0 && z.Finite? && z.v == 0.0
    ensures CalculateGain(c, z) == 1.0
  {
  }

  lemma SilentOutput(z: Float, makeup: real)
    requires z.Finite? && z.v == 0.0
    ensures Output(z, 1.0, makeup) == z
  {
  }

  /** One more zero sample keeps a silent trace silent. */
  lemma SilentSnoc(k: Coefficients, z: Float, xs: seq<Float>)
    requires k.curve.ratio >= 1.0 && z.Finite? && z.v == 0.0
    requires |xs| > 0 && xs[|xs| - 1] == z
    requires Run(k, z, xs[..|xs| - 1]) == Trace(xs[..|xs| - 1], Ones(|xs| - 1), z, 0.0, 0.0, 1.0)
    ensures Run(k, z, xs) == Trace(xs, Ones(|xs|), z, 0.0, 0.0, 1.0)
  {
    var n := |xs|;
    var t := Run(k, z, xs[..n - 1]);
    assert Run(k, z, xs) == Extend(t, z, Process(k, t.peak, z));
    SilentStep(k, z);
    assert Magnitude(z) == 0.0;
    assert Extend(t, z, StepResult(z, 1.0, z))
        == Trace(t.outs + [z], t.gains + [1.0], z, 0.0, 0.0, 1.0);
    SnocLast(xs);
    OnesSnoc(n);
  }

  /** A block of zeros against a zero envelope leaves the block unchanged,
      every gain 1.0 and the envelope at 0. */
  lemma {:induction false} SilentRun(k: Coefficients, z: Float, xs: seq<Float>)
    requires k.curve.ratio >= 1.0 && z.Finite? && z.v == 0.0
    requires forall i :: 0 <= i < |xs| ==> xs[i] == z
    ensures Run(k, z, xs) == Trace(xs, Ones(|xs|), z, 0.0, 0.0, 1.0)
    decreases |xs|
  {
    if |xs| > 0 {
      SilentRun(k, z, xs[..|xs| - 1]);
      SilentSnoc(k, z, xs);
    }
  }

  /** After Reset a silent block stays silent. */
  lemma SilenceAfterReset(k: Coefficients, n: nat)
    requires k.curve.ratio >= 1.0
    ensures Run(k, Finite(0.0), Zeros(n)) == Trace(Zeros(n), Ones(n), Finite(0.0), 0.0, 0.0, 1.0)
  {
    SilentRun(k, Finite(0.0), Zeros(n));
  }

  /** processSampleInternal for a channel in range of the envelopes: bypass
      passes the sample through with gain 1.0; otherwise the envelope of the
      channel moves towards the input level, the gain follows the new envelope
      and the output is sample * gain * makeup. Only peak[channel] changes. */
  method ProcessChannel(k: Coefficients, peak: array<Float>, channel: int, sample: Float)
    returns (out: Float, gain: real)
    requires k.curve.ratio >= 1.0 && 0 <= channel < peak.Length
    modifies peak
    ensures var s := Process(k, old(peak[channel]), sample);
            out == s.out && gain == s.gain && peak[..] == old(peak[..])[channel := s.peak]
  {
    if k.bypass {
      return sample, 1.0;
    }
    var next := UpdateEnvelope(peak[channel], InputLevel(sample), k.attack, k.release);
    peak[channel] := next;
    gain := CalculateGain(k.curve, next);
    out := Output(sample, gain, k.makeup);
  }

  /** ProcessChannel on envelopes that are all levels keeps them levels. */
  method StepLevels(k: Coefficients, peak: array<Float>, channel: int, sample: Float)
    returns (out: Float, gain: real)
    requires CoefficientsValid(k) && 0 <= channel < peak.Length && AllLevels(peak[..])
    modifies peak
    ensures AllLevels(peak[..])
    ensures var s := Process(k, old(peak[channel]), sample);
            out == s.out && gain == s.gain && peak[..] == old(peak[..])[channel := s.peak]
  {
    ProcessKeepsLevel(k, peak[channel], sample);
    LevelsUpdate(peak[..], channel, Process(k, peak[channel], sample).peak);
    out, gain := ProcessChannel(k, peak, channel, sample);
  }

  /** One pass of ProcessBlock's loop, meters aside: inp[i] is sanitised in
      place, goes through processSampleInternal, and the sanitised output is
      stored in out[i]. The input and output may be the same array. */
  method SampleStep(k: Coefficients, inp: array<Float>, out: array<Float>,
                    peak: array<Float>, channel: int, i: int)
    returns (x: Float, processed: Float, gain: real)
    requires k.curve.ratio >= 1.0
    requires inp != peak && out != peak && inp.Length == out.Length
    requires 0 <= channel < peak.Length && 0 <= i < inp.Length
    modifies inp, out, peak
    ensures x == Sanitize(old(inp[i]))
    ensures var s := Process(k, old(peak[channel]), x);
            && processed == Sanitize(s.out) && gain == s.gain
            && peak[..] == old(peak[..])[channel := s.peak]
            && out[..] == old(out[..])[i := processed]
            && (inp != out ==> inp[..] == old(inp[..])[i := x])
  {
    x := SanitizeInput(inp, i);
    processed, gain := ProcessChannel(k, peak, channel, x);
    if processed.NaN? || IsInf(processed) {
      processed := Finite(0.0);
    }
    out[i] := processed;
  }

  /** What ProcessBlock's loop has done after i samples of the block inp0
      (whose sanitised form is xs), stated on the contents of the input, output
      and envelope arrays: the trace t is Run on the first i samples, the
      arrays are as ArraysInv says and the envelope of the channel is the
      trace's. */
  ghost predicate LoopInv(k: Coefficients, inp0: seq<Float>, xs: seq<Float>, p0: Float,
                          peaks0: seq<Float>, channel: int, alias: bool, i: int, t: Trace,
                          inpNow: seq<Float>, outNow: seq<Float>, peakNow: seq<Float>)
  {
    && k.curve.ratio >= 1.0
    && 0 <= channel < |peaks0|
    && 0 <= i <= |xs|
    && t == Run(k, p0, xs[..i])
    && ArraysInv(inp0, xs, alias, i, t.outs, inpNow, outNow)
    && peakNow == peaks0[channel := t.peak]
  }

  /** One iteration keeps LoopInv: sample i is sanitised, processed against
      the channel's envelope, and its output stored. */
  lemma InvStep(k: Coefficients, inp0: seq<Float>, xs: seq<Float>, p0: Float,
                peaks0: seq<Float>, channel: int, alias: bool, i: int, t: Trace,
                inpOld: seq<Float>, outOld: seq<Float>, peakOld: seq<Float>,
                inpNew: seq<Float>, outNew: seq<Float>, peakNew: seq<Float>,
                x: Float, processed: Float, gain: real)
    requires LoopInv(k, inp0, xs, p0, peaks0, channel, alias, i, t, inpOld, outOld, peakOld)
    requires xs == SanitizeAll(inp0) && i < |inp0|
    requires x == Sanitize(inpOld[i])
    requires var s := Process(k, peakOld[channel], x);
             && processed == Sanitize(s.out) && gain == s.gain
             && peakNew == peakOld[channel := s.peak]
    requires outNew == outOld[i := processed]
    requires !alias ==> inpNew == inpOld[i := x]
    requires alias ==> inpNew == outNew
    ensures x == xs[i]
    ensures LoopInv(k, inp0, xs, p0, peaks0, channel, alias, i + 1,
                    Extend(t, x, Process(k, t.peak, x)), inpNew, outNew, peakNew)
  {
    var s := Process(k, t.peak, x);
    RunSnoc(k, p0, xs, i, t, s);
    ArraysStep(inp0, xs, alias, i, t.outs, inpOld, outOld, inpNew, outNew, processed);
  }

  /** After the last sample LoopInv gives the whole result. */
  lemma InvDone(k: Coefficients, inp0: seq<Float>, xs: seq<Float>, p0: Float,
                peaks0: seq<Float>, channel: int, alias: bool, t: Trace,
                inpNow: seq<Float>, outNow: seq<Float>, peakNow: seq<Float>)
    requires LoopInv(k, inp0, xs, p0, peaks0, channel, alias, |inp0|, t, inpNow, outNow, peakNow)
    ensures t == Run(k, p0, xs)
    ensures outNow == t.outs && peakNow == peaks0[channel := t.peak]
    ensures !alias ==> inpNow == xs
  {
    assert xs[..|xs|] == xs;
  }

  /** ProcessBlock's loop over one block with the coefficients k: every
      non-finite input is zeroed in place, the sample goes through
      processSampleInternal (the envelope of the channel moves unless k
      bypasses), the output is sanitised and stored, and the block's input
      peak, output peak and smallest gain are tracked. The input and output
      may be the same array. */
  method SampleLoop(k: Coefficients, inp: array<Float>, out: array<Float>,
                    peak: array<Float>, channel: int)
    returns (maxInput: real, maxOutput: real, minGain: real)
    requires k.curve.ratio >= 1.0
    requires inp != peak && out != peak && inp.Length == out.Length
    requires 0 <= channel < peak.Length
    modifies inp, out, peak
    ensures var xs := SanitizeAll(old(inp[..]));
            var t := Run(k, old(peak[channel]), xs);
            && out[..] == t.outs
            && (inp != out ==> inp[..] == xs)
            && peak[..] == old(peak[..])[channel := t.peak]
            && maxInput == MaxAbs(xs) && maxOutput == MaxAbs(t.outs)
            && minGain == MinGain(t.gains)
  {
    ghost var inp0 := inp[..];
    ghost var xs := SanitizeAll(inp0);
    ghost var p0 := peak[channel];
    ghost var peaks0 := peak[..];
    maxInput, maxOutput := 0.0, 0.0;
    minGain := 1.0;
    ghost var t := Trace([], [], p0, 0.0, 0.0, 1.0);
    var i := 0;
    while i < inp.Length
      invariant LoopInv(k, inp0, xs, p0, peaks0, channel, inp == out, i, t, inp[..], out[..], peak[..])
      invariant maxInput == t.maxIn && maxOutput == t.maxOut && minGain == t.minGain
    {
      ghost var inpOld, outOld, peakOld := inp[..], out[..], peak[..];
      var x, processed, gain := SampleStep(k, inp, out, peak, channel, i);
      InvStep(k, inp0, xs, p0, peaks0, channel, inp == out, i, t,
              inpOld, outOld, peakOld, inp[..], out[..], peak[..], x, processed, gain);
      var absIn := Magnitude(x);
      if absIn > maxInput {
        maxInput := absIn;
      }
      var absOut := Magnitude(processed);
      if absOut > maxOutput {
        maxOutput := absOut;
      }
      if gain < minGain {
        minGain := gain;
      }
      t := Extend(t, x, Process(k, t.peak, x));
      i := i + 1;
    }
    InvDone(k, inp0, xs, p0, peaks0, channel, inp == out, t, inp[..], out[..], peak[..]);
    RunMeters(k, p0, xs);
  }

  /** The log2-domain soft-knee compressor. The mutex becomes sequential access. */
  class SoftKneeCompressor {
    const lib: MathLib

    var thresholdDB: real
    var ratio: real
    var kneeDB: real
    var attackMs: real
    var releaseMs: real
    var makeupGainDB: real
    var autoMakeup: bool
    var bypass: bool

    const peak: array<Float>
    var attackFactor: real
    var releaseFactor: real

    var threshold: real
    var thresholdRecip: real
    var kneeFactor: real
    var makeupGainLin: real
    var slopeRecip: real
    var sampleRate: real
    const channels: int
    const meters: MeterWords

    /** The user parameters, as the getters report them. */
    function Parameters(): Settings
      reads this
    {
      Settings(thresholdDB, ratio, kneeDB, attackMs, releaseMs, makeupGainDB, autoMakeup,
               bypass, sampleRate)
    }

    /** GetMeters: the last published meters, the block counter and the rate. */
    function GetMeters(): (m: MeterStats)
      reads this, meters
      ensures m.blocks == meters.processedBlocks && m.sampleRate == sampleRate
    {
      meters.Stats(sampleRate)
    }

    function Coeffs(): Coefficients
      reads this
    {
      Coefficients(Curve(lib, thresholdDB, ratio, kneeFactor), bypass, attackFactor,
                   releaseFactor, makeupGainLin)
    }

    /** The attack and release factors match the times and the sample rate. */
    ghost predicate TimeConstantsValid()
      reads this
    {
      Sound(lib) && SettingsValid(Parameters())
      && attackFactor == AttackFactor(lib, attackMs, sampleRate)
      && releaseFactor == ReleaseFactor(lib, releaseMs, sampleRate)
    }

    /** Every cached value matches the parameters it is derived from. */
    ghost predicate ParamsValid()
      reads this
    {
      TimeConstantsValid()
      && threshold == DBToLinear(lib, thresholdDB) && thresholdRecip == 1.0 / threshold
      && kneeFactor == KneeFactor(kneeDB) && slopeRecip == 1.0 / ratio - 1.0
      && (autoMakeup ==> makeupGainDB == AutoMakeupDB(thresholdDB, ratio))
      && makeupGainLin == DBToLinear(lib, makeupGainDB) && channels == peak.Length
    }

    ghost predicate Valid()
      reads this, peak, meters
    {
      ParamsValid() && meters.processedBlocks < Uint64Modulus
      && AllLevels(peak[..])
    }

    lemma CoefficientsInRange()
      requires ParamsValid()
      ensures CoefficientsValid(Coeffs()) && 0.0 < Coeffs().attack < 1.0
              && 0.0 < Coeffs().release < 1.0 && Coeffs().curve.kneeFactor >= 0.0
    {
    }

    /** NewSoftKneeCompressor: -20 dB, 4:1, 6 dB knee, 10 ms / 100 ms, auto
        makeup on (hence +15 dB), bypass off, silent envelopes and meters. */
    constructor (lib: MathLib, sampleRate: real, channels: int)
      requires Sound(lib) && sampleRate > 0.0 && channels >= 0
      ensures Valid() && fresh(peak) && fresh(meters) && this.lib == lib
      ensures this.channels == channels
      ensures Parameters() == DefaultSettings(sampleRate).(makeupGainDB := 15.0)
      ensures forall j :: 0 <= j < peak.Length ==> peak[j] == Finite(0.0)
      ensures GetMeters() == MeterStats(0.0, 0.0, 0.0, 0.0, 0.0, 0.0, 0, sampleRate)
    {
      this.lib := lib;
      thresholdDB := -20.0;
      ratio := 4.0;
      kneeDB := 6.0;
      attackMs := 10.0;
      releaseMs := 100.0;
      makeupGainDB := 0.0;
      autoMakeup := true;
      bypass := false;
      this.sampleRate := sampleRate;
      this.channels := channels;
      peak := new Float[channels](_ => Finite(0.0));
      meters := new MeterWords();
      new;
      UpdateParameters();
    }

    /** updateTimeConstants */
    method UpdateTimeConstants()
      requires Sound(lib) && SettingsValid(Parameters())
      modifies this`attackFactor, this`releaseFactor
      ensures TimeConstantsValid()
    {
      attackFactor := AttackFactor(lib, attackMs, sampleRate);
      releaseFactor := ReleaseFactor(lib, releaseMs, sampleRate);
    }

    /** updateParameters: every cached value is recomputed, and with auto
        makeup on the makeup gain follows threshold and ratio. */
    method UpdateParameters()
      requires Sound(lib) && SettingsValid(Parameters())
      requires channels == peak.Length
      modifies this`threshold, this`thresholdRecip, this`kneeFactor, this`slopeRecip,
               this`makeupGainDB, this`makeupGainLin, this`attackFactor, this`releaseFactor
      ensures ParamsValid()
      ensures Parameters() == Refreshed(old(Parameters()))
    {
      UpdateLevels();
      UpdateMakeup();
      UpdateTimeConstants();
    }

    /** The first lines of updateParameters: the linear threshold, its
        reciprocal and the knee factor. */
    method UpdateLevels()
      requires Sound(lib)
      modifies this`threshold, this`thresholdRecip, this`kneeFactor
      ensures threshold == DBToLinear(lib, thresholdDB) && thresholdRecip == 1.0 / threshold
      ensures kneeFactor == KneeFactor(kneeDB)
    {
      threshold := DBToLinear(lib, thresholdDB);
      thresholdRecip := 1.0 / threshold;
      kneeFactor := KneeFactor(kneeDB);
    }

    /** The rest of updateParameters before the time constants: the slope
        reciprocal, the automatic makeup gain and its linear value. */
    method UpdateMakeup()
      requires Sound(lib) && SettingsValid(Parameters())
      modifies this`slopeRecip, this`makeupGainDB, this`makeupGainLin
      ensures slopeRecip == 1.0 / ratio - 1.0
      ensures makeupGainDB == if autoMakeup then AutoMakeupDB(thresholdDB, ratio)
                              else old(makeupGainDB)
      ensures makeupGainLin == DBToLinear(lib, makeupGainDB)
    {
      slopeRecip := 1.0 / ratio - 1.0;
      if autoMakeup {
        makeupGainDB := AutoMakeupDB(thresholdDB, ratio);
      }
      makeupGainLin := DBToLinear(lib, makeupGainDB);
    }

    method SetThreshold(dB: real)
      requires Valid()
      modifies this`thresholdDB, this`threshold, this`thresholdRecip, this`kneeFactor,
               this`slopeRecip, this`makeupGainDB, this`makeupGainLin, this`attackFactor,
               this`releaseFactor
      ensures Valid()
      ensures Parameters() == Refreshed(old(Parameters()).(thresholdDB := dB))
    {
      thresholdDB := dB;
      UpdateParameters();
    }

    /** SetRatio clamps the ratio to at least 1. */
    method SetRatio(value: real)
      requires Valid()
      modifies this`ratio, this`threshold, this`thresholdRecip, this`kneeFactor,
               this`slopeRecip, this`makeupGainDB, this`makeupGainLin, this`attackFactor,
               this`releaseFactor
      ensures Valid()
      ensures Parameters()
           == Refreshed(old(Parameters()).(ratio := if value < 1.0 then 1.0 else value))
    {
      var r := value;
      if r < 1.0 {
        r := 1.0;
      }
      ratio := r;
      UpdateParameters();
    }

    /** SetKnee clamps the knee width to at least 0 dB. */
    method SetKnee(value: real)
      requires Valid()
      modifies this`kneeDB, this`threshold, this`thresholdRecip, this`kneeFactor,
               this`slopeRecip, this`makeupGainDB, this`makeupGainLin, this`attackFactor,
               this`releaseFactor
      ensures Valid()
      ensures Parameters()
           == Refreshed(old(Parameters()).(kneeDB := if value < 0.0 then 0.0 else value))
    {
      var k := value;
      if k < 0.0 {
        k := 0.0;
      }
      kneeDB := k;
      UpdateParameters();
    }

    /** SetAttack clamps the attack time to at least 0.1 ms. */
    method SetAttack(timeMs: real)
      requires Valid()
      modifies this`attackMs, this`attackFactor, this`releaseFactor
      ensures Valid()
      ensures Parameters() == old(Parameters()).(attackMs := if timeMs < 0.1 then 0.1 else timeMs)
    {
      var t := timeMs;
      if t < 0.1 {
        t := 0.1;
      }
      attackMs := t;
      UpdateTimeConstants();
      RetimedValid();
    }

    /** SetRelease clamps the release time to at least 1 ms. */
    method SetRelease(timeMs: real)
      requires Valid()
      modifies this`releaseMs, this`attackFactor, this`releaseFactor
      ensures Valid()
      ensures Parameters() == old(Parameters()).(releaseMs := if timeMs < 1.0 then 1.0 else timeMs)
    {
      var t := timeMs;
      if t < 1.0 {
        t := 1.0;
      }
      releaseMs := t;
      UpdateTimeConstants();
      RetimedValid();
    }

    /** A change of the attack time, the release time or the sample rate keeps
        Valid() once the time constants are recomputed. */
    twostate lemma RetimedValid()
      requires old(Valid()) && TimeConstantsValid()
      requires thresholdDB == old(thresholdDB) && ratio == old(ratio) && kneeDB == old(kneeDB)
      requires makeupGainDB == old(makeupGainDB) && autoMakeup == old(autoMakeup)
      requires threshold == old(threshold) && thresholdRecip == old(thresholdRecip)
      requires kneeFactor == old(kneeFactor) && slopeRecip == old(slopeRecip)
      requires makeupGainLin == old(makeupGainLin) && unchanged(peak, meters)
      ensures Valid()
    {
    }

    /** SetMakeupGain stores the gain and switches auto makeup off. */
    method SetMakeupGain(dB: real)
      requires Valid()
      modifies this`makeupGainDB, this`autoMakeup, this`threshold, this`thresholdRecip,
               this`kneeFactor, this`slopeRecip, this`makeupGainLin, this`attackFactor,
               this`releaseFactor
      ensures Valid()
      ensures Parameters() == old(Parameters()).(makeupGainDB := dB, autoMakeup := false)
    {
      makeupGainDB := dB;
      autoMakeup := false;
      UpdateParameters();
    }

    method SetAutoMakeup(enable: bool)
      requires Valid()
      modifies this`autoMakeup, this`threshold, this`thresholdRecip, this`kneeFactor,
               this`slopeRecip, this`makeupGainDB, this`makeupGainLin, this`attackFactor,
               this`releaseFactor
      ensures Valid()
      ensures Parameters() == Refreshed(old(Parameters()).(autoMakeup := enable))
    {
      autoMakeup := enable;
      UpdateParameters();
    }

    method SetBypass(value: bool)
      requires Valid()
      modifies this`bypass
      ensures Valid()
      ensures Parameters() == old(Parameters()).(bypass := value)
    {
      bypass := value;
    }

    /** SetSampleRate ignores a non-positive or unchanged rate; otherwise it
        stores the rate and recomputes only the time constants. */
    method SetSampleRate(rate: real)
      requires Valid()
      modifies this`sampleRate, this`attackFactor, this`releaseFactor
      ensures Valid()
      ensures Parameters() == if rate > 0.0 then old(Parameters()).(sampleRate := rate)
                              else old(Parameters())
      ensures rate <= 0.0 || rate == old(sampleRate)
              ==> attackFactor == old(attackFactor) && releaseFactor == old(releaseFactor)
    {
      if rate <= 0.0 {
        return;
      }
      if sampleRate != rate {
        sampleRate := rate;
        UpdateTimeConstants();
        RetimedValid();
      }
    }

    /** processSampleInternal: bypass or a channel out of range returns the
        sample with gain 1.0; otherwise only peak[channel] moves. */
    method ProcessSampleInternal(sample: Float, channel: int) returns (out: Float, gain: real)
      requires Valid()
      modifies peak
      ensures Valid()
      ensures bypass || channel < 0 || channel >= channels
              ==> out == sample && gain == 1.0 && peak[..] == old(peak[..])
      ensures 0 <= channel < channels
              ==> var s := Process(Coeffs(), old(peak[channel]), sample);
                  out == s.out && gain == s.gain && peak[..] == old(peak[..])[channel := s.peak]
    {
      CoefficientsInRange();
      if bypass {
        return sample, 1.0;
      }
      if channel < 0 || channel >= channels {
        return sample, 1.0;
      }
      out, gain := StepLevels(Coeffs(), peak, channel, sample);
    }

    /** ProcessSample: processSampleInternal's output. */
    method ProcessSample(sample: Float, channel: int) returns (out: Float)
      requires Valid()
      modifies peak
      ensures Valid()
      ensures bypass || channel < 0 || channel >= channels
              ==> out == sample && peak[..] == old(peak[..])
      ensures 0 <= channel < channels
              ==> var s := Process(Coeffs(), old(peak[channel]), sample);
                  out == s.out && peak[..] == old(peak[..])[channel := s.peak]
    {
      var gain;
      out, gain := ProcessSampleInternal(sample, channel);
    }

    /** The sample loop of ProcessBlock: sanitises and processes every sample
        in order and returns the block's input peak, output peak and smallest
        gain. */
    method ProcessSamples(inp: array<Float>, out: array<Float>, channel: int)
      returns (maxInput: real, maxOutput: real, minGain: real)
      requires Valid() && inp != peak && out != peak
      requires 0 <= channel < channels && inp.Length == out.Length
      modifies inp, out, peak
      ensures Valid()
      ensures var xs := SanitizeAll(old(inp[..]));
              var t := Run(Coeffs(), old(peak[channel]), xs);
              && out[..] == t.outs
              && (inp != out ==> inp[..] == xs)
              && peak[..] == old(peak[..])[channel := t.peak]
              && maxInput == MaxAbs(xs) && maxOutput == MaxAbs(t.outs)
              && minGain == MinGain(t.gains)
    {
      CoefficientsInRange();
      ghost var xs := SanitizeAll(inp[..]);
      RunKeepsLevel(Coeffs(), peak[channel], xs);
      LevelsUpdate(peak[..], channel, Run(Coeffs(), peak[channel], xs).peak);
      maxInput, maxOutput, minGain := SampleLoop(Coeffs(), inp, out, peak, channel);
    }

    /** ProcessBlock: nothing happens for a channel out of range or a length
        mismatch. Otherwise non-finite inputs are zeroed in place, every
        output is written (sanitised), only peak[channel] moves, and the
        block's meters are published for channels 0 and 1. The input and
        output may be the same array. */
    method ProcessBlock(inp: array<Float>, out: array<Float>, channel: int)
      requires Valid() && inp != peak && out != peak
      modifies inp, out, peak, meters
      ensures Valid()
      ensures channel < 0 || channel >= channels || inp.Length != out.Length
              ==> inp[..] == old(inp[..]) && out[..] == old(out[..])
                  && peak[..] == old(peak[..]) && GetMeters() == old(GetMeters())
      ensures 0 <= channel < channels && inp.Length == out.Length
              ==> var xs := SanitizeAll(old(inp[..]));
                  var t := Run(Coeffs(), old(peak[channel]), xs);
                  && out[..] == t.outs
                  && (inp != out ==> inp[..] == xs)
                  && peak[..] == old(peak[..])[channel := t.peak]
                  && GetMeters() == PublishMeters(old(GetMeters()), channel, MaxAbs(xs),
                                                  MaxAbs(t.outs), MinGain(t.gains))
    {
      if channel < 0 || channel >= channels || inp.Length != out.Length {
        return;
      }
      var maxInput, maxOutput, minGain := ProcessSamples(inp, out, channel);
      meters.Publish(channel, maxInput, maxOutput, minGain, sampleRate);
    }

    /** Reset sets every envelope to 0 and touches nothing else. */
    method Reset()
      requires Valid()
      modifies peak
      ensures Valid()
      ensures forall j :: 0 <= j < peak.Length ==> peak[j] == Finite(0.0)
    {
      var i := 0;
      while i < peak.Length
        invariant 0 <= i <= peak.Length
        invariant forall j :: 0 <= j < i ==> peak[j] == Finite(0.0)
        invariant forall j :: i <= j < peak.Length ==> peak[j] == old(peak[j])
      {
        peak[i] := Finite(0.0);
        i := i + 1;
      }
    }
  }
}
