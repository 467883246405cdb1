/** The per-sample and per-block logic that dsp/compressor.go and compressor.go
    share line for line: the peak envelope, time constants, automatic makeup,
    sample sanitising and the block meters. */
module Engine {
  import opened GoRuntime

  /** math.Ln2 */
  const Ln2: real := 0.693147180559945309417232121458176568

  /** uint64 values lie below 2^64. */
  const Uint64Modulus: nat := 0x1_0000_0000_0000_0000

  /** atomic.AddUint64(&n, 1): the uint64 successor, which wraps to 0 at 2^64 - 1. */
  function WrappingIncrement(n: nat): (r: nat)
    requires n < Uint64Modulus
    ensures r < Uint64Modulus && r != n
    ensures n + 1 < Uint64Modulus ==> r == n + 1
    ensures n + 1 == Uint64Modulus ==> r == 0
  {
    if n + 1 == Uint64Modulus then 0 else n + 1
  }

  /** The user parameters of a compressor (what the getters return). */
  datatype Settings = Settings(
    thresholdDB: real,
    ratio: real,
    kneeDB: real,
    attackMs: real,
    releaseMs: real,
    makeupGainDB: real,
    autoMakeup: bool,
    bypass: bool,
    sampleRate: real)

  /** What the setters and the constructor guarantee: the clamped ranges and a
      positive sample rate. */
  predicate SettingsValid(s: Settings) {
    s.ratio >= 1.0 && s.kneeDB >= 0.0 && s.attackMs >= 0.1 && s.releaseMs >= 1.0
    && s.sampleRate > 0.0
  }

  /** The defaults of NewSoftKneeCompressor. */
  function DefaultSettings(sampleRate: real): (s: Settings)
    ensures sampleRate > 0.0 ==> SettingsValid(s)
  {
    Settings(-20.0, 4.0, 6.0, 10.0, 100.0, 0.0, true, false, sampleRate)
  }

  /** updateParameters' effect on the settings: with autoMakeup on, the
      makeup gain follows the threshold and the ratio. */
  function Refreshed(s: Settings): (r: Settings)
    requires s.ratio >= 1.0
    ensures r.(makeupGainDB := s.makeupGainDB) == s
    ensures s.autoMakeup ==> r.makeupGainDB == AutoMakeupDB(s.thresholdDB, s.ratio)
    ensures !s.autoMakeup ==> r == s
  {
    if s.autoMakeup then s.(makeupGainDB := AutoMakeupDB(s.thresholdDB, s.ratio)) else s
  }

  /** The meter snapshot returned by GetMeters. */
  datatype MeterStats = MeterStats(
    inputL: real,
    inputR: real,
    outputL: real,
    outputR: real,
    gainReductionL: real,
    gainReductionR: real,
    blocks: nat,
    sampleRate: real)

  /** A peak envelope value: a non-negative level, or +Inf after an infinite
      sample reached processSampleInternal. */
  predicate IsLevel(x: Float) {
    (x.Finite? && x.v >= 0.0) || x.PosInf?
  }

  /** math.Abs of the sample, with NaN replaced by 0. */
  function InputLevel(sample: Float): (r: Float)
    ensures IsLevel(r)
    ensures sample.Finite? ==> r == Finite(AbsReal(sample.v))
    ensures IsInf(sample) ==> r == PosInf
    ensures sample.NaN? ==> r == Finite(0.0)
  {
    var level := Abs(sample);
    if level.NaN? then Finite(0.0) else level
  }

  /** A fraction t = d * a, a in [0, 1], of a positive d lies in [0, d],
      strictly inside for a in (0, 1). */
  lemma ScaleFraction(d: real, a: real, t: real)
    requires d > 0.0 && 0.0 <= a <= 1.0 && t == d * a
    ensures 0.0 <= t <= d
    ensures 0.0 < a < 1.0 ==> 0.0 < t < d
  {
    assert d - d * a == d * (1.0 - a);
  }

  /** x + t with t = (y - x) * a lies between x and y for a in [0, 1],
      strictly inside for a in (0, 1) and x != y. */
  lemma Interpolate(x: real, y: real, a: real, t: real)
    requires 0.0 <= a <= 1.0 && t == (y - x) * a
    ensures x <= y ==> x <= x + t <= y
    ensures y <= x ==> y <= x + t <= x
    ensures x < y && 0.0 < a < 1.0 ==> x < x + t < y
    ensures y < x && 0.0 < a < 1.0 ==> y < x + t < x
  {
    if x < y {
      ScaleFraction(y - x, a, t);
    } else if y < x {
      ScaleFraction(x - y, a, -t);
    } else {
      assert t == 0.0;
    }
  }

  /** One envelope step: attack towards a louder input, release otherwise, in
      IEEE arithmetic; a NaN result (from Inf - Inf or Inf * 0) resets to 0. */
  function EnvelopeStep(peak: Float, level: Float, attack: real, release: real): (r: Float)
    ensures r != NaN
  {
    var next :=
      if Less(peak, level) then Add(peak, Mul(Sub(level, peak), Finite(attack)))
      else Add(level, Mul(Sub(peak, level), Finite(release)));
    if next.NaN? then Finite(0.0) else next
  }

  /** With a coefficient in [0, 1] a finite envelope moves towards the input
      and never past it: attack for a louder input, release otherwise. */
  lemma EnvelopeBetween(peak: Float, level: Float, attack: real, release: real)
    ensures peak.Finite? && level.Finite? && peak.v < level.v && 0.0 <= attack <= 1.0
            ==> var r := EnvelopeStep(peak, level, attack, release);
                r.Finite? && peak.v <= r.v <= level.v
    ensures peak.Finite? && level.Finite? && level.v <= peak.v && 0.0 <= release <= 1.0
            ==> var r := EnvelopeStep(peak, level, attack, release);
                r.Finite? && level.v <= r.v <= peak.v
  {
    if peak.Finite? && level.Finite? {
      var p, x := peak.v, level.v;
      if p < x && 0.0 <= attack <= 1.0 {
        var t := (x - p) * attack;
        Interpolate(p, x, attack, t);
        assert EnvelopeStep(peak, level, attack, release) == Finite(p + t);
      } else if x <= p && 0.0 <= release <= 1.0 {
        var t := (p - x) * release;
        Interpolate(x, p, release, t);
        assert EnvelopeStep(peak, level, attack, release) == Finite(x + t);
      }
    }
  }

  /** With coefficients in [0, 1] a level stays a level. */
  lemma EnvelopeKeepsLevel(peak: Float, level: Float, attack: real, release: real)
    requires IsLevel(peak) && IsLevel(level)
    requires 0.0 <= attack <= 1.0 && 0.0 <= release <= 1.0
    ensures IsLevel(EnvelopeStep(peak, level, attack, release))
  {
    EnvelopeBetween(peak, level, attack, release);
  }

  /** For coefficients strictly inside (0, 1) a finite envelope moves strictly
      towards a different input and never reaches it in one step. */
  lemma EnvelopeStrictlyBetween(p: real, x: real, attack: real, release: real)
    requires 0.0 < attack < 1.0 && 0.0 < release < 1.0 && p != x
    ensures var r := EnvelopeStep(Finite(p), Finite(x), attack, release);
            r.Finite? && (p < x ==> p < r.v < x) && (x < p ==> x < r.v < p)
  {
    if p < x {
      var t := (x - p) * attack;
      Interpolate(p, x, attack, t);
      assert EnvelopeStep(Finite(p), Finite(x), attack, release) == Finite(p + t);
    } else {
      var t := (p - x) * release;
      Interpolate(x, p, release, t);
      assert EnvelopeStep(Finite(p), Finite(x), attack, release) == Finite(x + t);
    }
  }

  /** How +Inf behaves: an infinite peak survives finite input, an infinite
      input makes a finite peak infinite, and two infinities reset to 0. */
  lemma EnvelopeInfinity(p: real, x: real, attack: real, release: real)
    requires 0.0 < attack && 0.0 < release
    ensures EnvelopeStep(PosInf, Finite(x), attack, release) == PosInf
    ensures EnvelopeStep(Finite(p), PosInf, attack, release) == PosInf
    ensures EnvelopeStep(PosInf, PosInf, attack, release) == Finite(0.0)
  {
  }

  /** attackFactor = 1 - exp(-ln2 / (attackMs * 0.001 * sampleRate)). */
  function AttackFactor(lib: MathLib, attackMs: real, sampleRate: real): (r: real)
    requires Sound(lib) && attackMs > 0.0 && sampleRate > 0.0
    ensures 0.0 < r < 1.0
  {
    var samples := attackMs * 0.001 * sampleRate;
    assert samples > 0.0;
    1.0 - lib.Exp(-Ln2 / samples)
  }

  /** releaseFactor = exp(-ln2 / (releaseMs * 0.001 * sampleRate)). */
  function ReleaseFactor(lib: MathLib, releaseMs: real, sampleRate: real): (r: real)
    requires Sound(lib) && releaseMs > 0.0 && sampleRate > 0.0
    ensures 0.0 < r < 1.0
  {
    var samples := releaseMs * 0.001 * sampleRate;
    assert samples > 0.0;
    lib.Exp(-Ln2 / samples)
  }

  /** The automatic makeup gain: minus the reduction that the ratio applies to
      a signal at 0 dB, i.e. -thresholdDB * (1 - 1/ratio). It lies between 0
      and -thresholdDB and is 0 at ratio 1. */
  function AutoMakeupDB(thresholdDB: real, ratio: real): (r: real)
    requires ratio >= 1.0
    ensures ratio == 1.0 ==> r == 0.0
    ensures thresholdDB <= 0.0 ==> 0.0 <= r <= -thresholdDB
    ensures thresholdDB >= 0.0 ==> -thresholdDB <= r <= 0.0
  {
    var slope := 1.0 - 1.0 / ratio;
    assert 0.0 <= slope < 1.0;
    if thresholdDB <= 0.0 then
      assert -thresholdDB * slope <= -thresholdDB * 1.0;
      -(thresholdDB * slope)
    else
      assert thresholdDB * slope <= thresholdDB * 1.0;
      -(thresholdDB * slope)
  }

  /** The -20 dB, 4:1 defaults give +15 dB of makeup. */
  lemma AutoMakeupOfDefaults()
    ensures AutoMakeupDB(-20.0, 4.0) == 15.0
  {
  }

  /** ProcessBlock's input check: NaN and both infinities become 0. */
  function Sanitize(x: Float): (r: Float)
    ensures r.Finite?
    ensures x.Finite? ==> r == x
    ensures !x.Finite? ==> r == Finite(0.0)
  {
    if x.NaN? || IsInf(x) then Finite(0.0) else x
  }

  function SanitizeAll(xs: seq<Float>): (r: seq<Float>)
    ensures |r| == |xs|
    ensures forall i :: 0 <= i < |xs| ==> r[i] == Sanitize(xs[i])
  {
    if |xs| == 0 then [] else SanitizeAll(xs[..|xs| - 1]) + [Sanitize(xs[|xs| - 1])]
  }

  predicate AllFinite(xs: seq<Float>) {
    forall i :: 0 <= i < |xs| ==> xs[i].Finite?
  }

  /** sample * gain * makeup in float64 (the float32 rounding is not modelled). */
  function Output(sample: Float, gain: real, makeup: real): (r: Float)
    ensures sample.Finite? ==> r.Finite? && r.v == sample.v * gain * makeup
  {
    Mul(Mul(sample, Finite(gain)), Finite(makeup))
  }

  /** |x| of a sample as the meters read it; they only ever see sanitised,
      hence finite, samples. */
  function Magnitude(x: Float): (r: real)
    ensures r >= 0.0
  {
    if x.Finite? then AbsReal(x.v) else 0.0
  }

  /** The largest magnitude, starting from 0 and keeping the running value
      unless |x| is strictly larger, as ProcessBlock's meter loop does. */
  function MaxAbs(xs: seq<Float>): (r: real)
    ensures r >= 0.0
    decreases |xs|
  {
    if |xs| == 0 then 0.0
    else
      var m := MaxAbs(xs[..|xs| - 1]);
      var a := Magnitude(xs[|xs| - 1]);
      if a > m then a else m
  }

  /** MaxAbs is the largest magnitude, or 0 for an empty block: an upper
      bound of every |x| that is attained. */
  lemma {:induction false} MaxAbsIsMax(xs: seq<Float>)
    ensures forall i :: 0 <= i < |xs| ==> Magnitude(xs[i]) <= MaxAbs(xs)
    ensures MaxAbs(xs) == 0.0 || exists i :: 0 <= i < |xs| && MaxAbs(xs) == Magnitude(xs[i])
    decreases |xs|
  {
    if |xs| > 0 {
      var init := xs[..|xs| - 1];
      MaxAbsIsMax(init);
      assert forall i :: 0 <= i < |init| ==> xs[i] == init[i];
      var m := MaxAbs(init);
      if m != 0.0 {
        var j :| 0 <= j < |init| && m == Magnitude(init[j]);
        assert xs[j] == init[j];
      }
    }
  }

  /** The smallest gain, starting from 1.0 as ProcessBlock's minGain does. */
  function MinGain(gains: seq<real>): (r: real)
    ensures r <= 1.0
    decreases |gains|
  {
    if |gains| == 0 then 1.0
    else
      var m := MinGain(gains[..|gains| - 1]);
      var g := gains[|gains| - 1];
      if g < m then g else m
  }

  /** MinGain is the smallest gain, or 1.0 when no gain is below it: a lower
      bound of every gain that is attained. */
  lemma {:induction false} MinGainIsMin(gains: seq<real>)
    ensures forall i :: 0 <= i < |gains| ==> MinGain(gains) <= gains[i]
    ensures MinGain(gains) == 1.0 || exists i :: 0 <= i < |gains| && MinGain(gains) == gains[i]
    decreases |gains|
  {
    if |gains| > 0 {
      var init := gains[..|gains| - 1];
      MinGainIsMin(init);
      assert forall i :: 0 <= i < |init| ==> gains[i] == init[i];
      var m := MinGain(init);
      if m != 1.0 {
        var j :| 0 <= j < |init| && m == init[j];
        assert gains[j] == init[j];
      }
    }
  }

  /** One more sample updates the running maximum as the meter loop does. */
  lemma MaxAbsSnoc(xs: seq<Float>, x: Float)
    ensures MaxAbs(xs + [x]) == if Magnitude(x) > MaxAbs(xs) then Magnitude(x) else MaxAbs(xs)
  {
    assert (xs + [x])[..|xs|] == xs;
  }

  /** MaxAbsSnoc for the prefixes of one block. */
  lemma MaxAbsPrefix(xs: seq<Float>, i: nat)
    requires i < |xs|
    ensures MaxAbs(xs[..i + 1])
         == if Magnitude(xs[i]) > MaxAbs(xs[..i]) then Magnitude(xs[i]) else MaxAbs(xs[..i])
  {
    assert xs[..i + 1] == xs[..i] + [xs[i]];
    MaxAbsSnoc(xs[..i], xs[i]);
  }

  /** One more gain updates the running minimum as the meter loop does. */
  lemma MinGainSnoc(gains: seq<real>, g: real)
    ensures MinGain(gains + [g]) == if g < MinGain(gains) then g else MinGain(gains)
  {
    assert (gains + [g])[..|gains|] == gains;
  }

  /** The meter stores at the end of ProcessBlock: channel 0 writes the left
      meters and bumps the uint64 block counter, channel 1 writes the right
      meters, any other channel publishes nothing. */
  function PublishMeters(m: MeterStats, channel: int, maxInput: real, maxOutput: real,
                         minGain: real): (r: MeterStats)
    requires m.blocks < Uint64Modulus
    ensures r.blocks < Uint64Modulus && r.sampleRate == m.sampleRate
    ensures channel == 0 <==> r.blocks != m.blocks
    ensures channel != 0 && channel != 1 ==> r == m
    ensures channel == 0 ==> r.inputR == m.inputR && r.outputR == m.outputR
                             && r.gainReductionR == m.gainReductionR
    ensures channel == 1 ==> r.inputL == m.inputL && r.outputL == m.outputL
                             && r.gainReductionL == m.gainReductionL
  {
    if channel == 0 then
      m.(inputL := maxInput, outputL := maxOutput, gainReductionL := minGain,
         blocks := WrappingIncrement(m.blocks))
    else if channel == 1 then
      m.(inputR := maxInput, outputR := maxOutput, gainReductionR := minGain)
    else m
  }

  /** n silent samples. */
  function Zeros(n: nat): (r: seq<Float>)
    ensures |r| == n && forall i :: 0 <= i < n ==> r[i] == Finite(0.0)
  {
    if n == 0 then [] else Zeros(n - 1) + [Finite(0.0)]
  }

  /** n unit gains. */
  function Ones(n: nat): (r: seq<real>)
    ensures |r| == n && forall i :: 0 <= i < n ==> r[i] == 1.0
  {
    if n == 0 then [] else Ones(n - 1) + [1.0]
  }

  /** A silent block meters 0 at the input and all-unit gains meter 1.0. */
  lemma SilentMeters(n: nat)
    ensures MaxAbs(Zeros(n)) == 0.0
    ensures MinGain(Ones(n)) == 1.0
  {
    MaxAbsIsMax(Zeros(n));
    MinGainIsMin(Ones(n));
  }

  /** What processSampleInternal returns, with the envelope it leaves behind. */
  datatype StepResult = StepResult(out: Float, gain: real, peak: Float)

  /** The outputs, gains and final peak of ProcessBlock's loop over an
      already sanitised block, with every output sanitised again, and the
      three meters as that loop keeps them: the largest input and output
      magnitude and the smallest gain so far. */
  datatype Trace = Trace(outs: seq<Float>, gains: seq<real>, peak: Float,
                         maxIn: real, maxOut: real, minGain: real)

  /** One iteration of the loop: the sanitised output and the gain of step s
      of input x are appended and the meters updated. */
  function Extend(t: Trace, x: Float, s: StepResult): Trace
  {
    var o := Sanitize(s.out);
    Trace(t.outs + [o], t.gains + [s.gain], s.peak,
          if Magnitude(x) > t.maxIn then Magnitude(x) else t.maxIn,
          if Magnitude(o) > t.maxOut then Magnitude(o) else t.maxOut,
          if s.gain < t.minGain then s.gain else t.minGain)
  }

  lemma SnocLast<T>(xs: seq<T>)
    requires |xs| > 0
    ensures xs[..|xs| - 1] + [xs[|xs| - 1]] == xs
  {
  }

  lemma OnesSnoc(n: nat)
    requires n > 0
    ensures Ones(n - 1) + [1.0] == Ones(n)
  {
    assert (Ones(n - 1) + [1.0])[n - 1] == 1.0;
  }

  /** The envelope lines of processSampleInternal: attack towards a louder
      input, release otherwise, and a NaN result resets to 0. */
  method UpdateEnvelope(p: Float, inputLevel: Float, attack: real, release: real)
    returns (next: Float)
    ensures next == EnvelopeStep(p, inputLevel, attack, release)
  {
    if Less(p, inputLevel) {
      next := Add(p, Mul(Sub(inputLevel, p), Finite(attack)));
    } else {
      next := Add(inputLevel, Mul(Sub(p, inputLevel), Finite(release)));
    }
    if next.NaN? {
      next := Finite(0.0);
    }
  }

  /** Every envelope is a level. */
  ghost predicate AllLevels(ps: seq<Float>) {
    forall j :: 0 <= j < |ps| ==> IsLevel(ps[j])
  }

  lemma LevelsUpdate(ps: seq<Float>, c: int, v: Float)
    requires AllLevels(ps) && 0 <= c < |ps| && IsLevel(v)
    ensures AllLevels(ps[c := v])
  {
  }

  /** ProcessBlock's input check on inp[i]: a NaN or infinite sample is
      overwritten with 0 in place; the sanitised sample is returned. */
  method SanitizeInput(inp: array<Float>, i: int) returns (x: Float)
    requires 0 <= i < inp.Length
    modifies inp
    ensures x == Sanitize(old(inp[i])) && inp[..] == old(inp[..])[i := x]
  {
    x := inp[i];
    if x.NaN? || IsInf(x) {
      x := Finite(0.0);
      inp[i] := x;
    }
  }

  /** The array part of the block loop's invariant: after i samples of inp0 (sanitised: xs)
      with outputs outs, the first i inputs are sanitised in place (when the
      input is not also the output), the rest are untouched, and the first i
      outputs are stored. */
  ghost predicate ArraysInv(inp0: seq<Float>, xs: seq<Float>, alias: bool, i: int,
                            outs: seq<Float>, inpNow: seq<Float>, outNow: seq<Float>)
  {
    && 0 <= i <= |inp0| == |xs| == |inpNow| == |outNow|
    && |outs| == i
    && (forall j :: i <= j < |inp0| ==> inpNow[j] == inp0[j])
    && (!alias ==> forall j :: 0 <= j < i ==> inpNow[j] == xs[j])
    && (alias ==> inpNow == outNow)
    && (forall j :: 0 <= j < i ==> outNow[j] == outs[j])
  }

  /** Storing the output o of sample i keeps ArraysInv. */
  lemma ArraysStep(inp0: seq<Float>, xs: seq<Float>, alias: bool, i: int, outs: seq<Float>,
                   inpOld: seq<Float>, outOld: seq<Float>, inpNew: seq<Float>,
                   outNew: seq<Float>, o: Float)
    requires ArraysInv(inp0, xs, alias, i, outs, inpOld, outOld) && i < |inp0|
    requires outNew == outOld[i := o]
    requires !alias ==> inpNew == inpOld[i := xs[i]]
    requires alias ==> inpNew == outNew
    ensures ArraysInv(inp0, xs, alias, i + 1, outs + [o], inpNew, outNew)
  {
  }

  /** The metering words of the compressor, which the Go code reads and writes
      atomically as float64 bits. They are a separate object here, so that
      processing a block changes the meters and the envelopes but never the
      settings. */
  class MeterWords {
    var inputPeakL: real
    var inputPeakR: real
    var outputPeakL: real
    var outputPeakR: real
    var gainReductionL: real
    var gainReductionR: real
    var processedBlocks: nat

    /** All meters at 0 and no block processed. */
    constructor ()
      ensures inputPeakL == 0.0 && inputPeakR == 0.0 && outputPeakL == 0.0
              && outputPeakR == 0.0 && gainReductionL == 0.0 && gainReductionR == 0.0
              && processedBlocks == 0
    {
      inputPeakL, inputPeakR, outputPeakL, outputPeakR := 0.0, 0.0, 0.0, 0.0;
      gainReductionL, gainReductionR := 0.0, 0.0;
      processedBlocks := 0;
    }

    /** The meters as GetMeters reports them, with the sample rate r. */
    function Stats(r: real): MeterStats
      reads this
    {
      MeterStats(inputPeakL, inputPeakR, outputPeakL, outputPeakR,
                 gainReductionL, gainReductionR, processedBlocks, r)
    }

    /** The stores at the end of ProcessBlock for one channel's block. */
    method Publish(channel: int, maxInput: real, maxOutput: real, minGain: real,
                   ghost r: real)
      requires processedBlocks < Uint64Modulus
      modifies this
      ensures Stats(r) == PublishMeters(old(Stats(r)), channel, maxInput, maxOutput, minGain)
    {
      if channel == 0 {
        inputPeakL := maxInput;
        outputPeakL := maxOutput;
        gainReductionL := minGain;
        processedBlocks := WrappingIncrement(processedBlocks);
      } else if channel == 1 {
        inputPeakR := maxInput;
        outputPeakR := maxOutput;
        gainReductionR := minGain;
      }
    }
  }
}
