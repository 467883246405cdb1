/** compressor.go (package main): the compressor whose gain curve blends
    linearly between two knee boundaries with a smoothstep. */
module Compressor {
  import opened GoRuntime
  import opened Engine

  /** math.Pow(10, db/20): decibels to an amplitude ratio. */
  function DBToAmplitude(lib: MathLib, db: real): (r: real)
    requires Sound(lib)
    ensures r > 0.0
    ensures db == 0.0 ==> r == 1.0
  {
    lib.Pow(10.0, db / 20.0)
  }

  /** More decibels give a strictly larger amplitude. */
  lemma DBToAmplitudeIncreasing(lib: MathLib, a: real, b: real)
    requires Sound(lib) && a < b
    ensures DBToAmplitude(lib, a) < DBToAmplitude(lib, b)
  {
    assert a / 20.0 < b / 20.0;
  }

  /** What calculateGain reads: the linear threshold, the ratio and the knee
      boundaries with their distance. */
  datatype Knee = Knee(lib: MathLib, threshold: real, ratio: real, kneeLower: real,
                       kneeUpper: real, kneeWidth: real)

  /** The knee of updateParameters: the boundaries lie half the knee width
      (in dB) below and above the threshold. */
  function KneeOf(lib: MathLib, thresholdDB: real, ratio: real, kneeDB: real): (r: Knee)
    requires Sound(lib)
    ensures r.lib == lib && r.ratio == ratio && r.threshold == DBToAmplitude(lib, thresholdDB)
    ensures 0.0 < r.kneeLower && 0.0 < r.kneeUpper && r.kneeWidth == r.kneeUpper - r.kneeLower
    ensures kneeDB == 0.0 ==> r.kneeLower == r.threshold == r.kneeUpper && r.kneeWidth == 0.0
  {
    var kneeHalfDB := kneeDB / 2.0;
    var lower := DBToAmplitude(lib, thresholdDB - kneeHalfDB);
    var upper := DBToAmplitude(lib, thresholdDB + kneeHalfDB);
    Knee(lib, DBToAmplitude(lib, thresholdDB), ratio, lower, upper, upper - lower)
  }

  /** The shape updateParameters gives the knee for a ratio of at least 1
      and a non-negative knee width. */
  predicate KneeValid(c: Knee) {
    && c.ratio >= 1.0
    && 0.0 < c.kneeLower <= c.threshold <= c.kneeUpper
    && c.kneeWidth == c.kneeUpper - c.kneeLower
  }

  /** The threshold lies between the knee boundaries, strictly for a soft
      knee; a hard knee (0 dB) puts both boundaries on the threshold. */
  lemma KneeOfValid(lib: MathLib, thresholdDB: real, ratio: real, kneeDB: real)
    requires Sound(lib) && ratio >= 1.0 && kneeDB >= 0.0
    ensures var c := KneeOf(lib, thresholdDB, ratio, kneeDB);
            && KneeValid(c)
            && (kneeDB > 0.0 ==> c.kneeLower < c.threshold < c.kneeUpper && c.kneeWidth > 0.0)
            && (kneeDB == 0.0 ==> c.kneeLower == c.threshold == c.kneeUpper && c.kneeWidth == 0.0)
  {
    var half := kneeDB / 2.0;
    if kneeDB > 0.0 {
      DBToAmplitudeIncreasing(lib, thresholdDB - half, thresholdDB);
      DBToAmplitudeIncreasing(lib, thresholdDB, thresholdDB + half);
    } else {
      assert thresholdDB - half == thresholdDB == thresholdDB + half;
    }
  }

  /** 1 - 1/ratio, the exponent of the compression above the knee. */
  function Slope(ratio: real): (r: real)
    requires ratio >= 1.0
    ensures 0.0 <= r < 1.0
    ensures ratio == 1.0 <==> r == 0.0
  {
    1.0 - 1.0 / ratio
  }

  /** The smoothstep k^2 (3 - 2k). */
  function SmoothStep(k: real): real {
    k * k * (3.0 - 2.0 * k)
  }

  /** On [0, 1] the smoothstep runs from 0 to 1 and stays inside (0, 1)
      strictly between the ends. */
  lemma SmoothStepRange(k: real)
    requires 0.0 <= k <= 1.0
    ensures 0.0 <= SmoothStep(k) <= 1.0
    ensures 0.0 < k < 1.0 ==> 0.0 < SmoothStep(k) < 1.0
    ensures k == 0.0 ==> SmoothStep(k) == 0.0
    ensures k == 1.0 ==> SmoothStep(k) == 1.0
  {
    SmoothStepLow(k);
    SmoothStepHigh(k);
  }

  /** k^2 (3 - 2k) is at least 0, and above 0 once k is. */
  lemma SmoothStepLow(k: real)
    requires 0.0 <= k <= 1.0
    ensures SmoothStep(k) >= 0.0
    ensures k > 0.0 ==> SmoothStep(k) > 0.0
  {
    ProductNonNegative(k, k, k * k);
    ProductNonNegative(k * k, 3.0 - 2.0 * k, SmoothStep(k));
    if k > 0.0 {
      ProductPositive(k, k, k * k);
      ProductPositive(k * k, 3.0 - 2.0 * k, SmoothStep(k));
    }
  }

  /** k^2 (3 - 2k) is at most 1, and below 1 while k is. */
  lemma SmoothStepHigh(k: real)
    requires 0.0 <= k <= 1.0
    ensures SmoothStep(k) <= 1.0
    ensures k < 1.0 ==> SmoothStep(k) < 1.0
  {
    var m := 1.0 - k;
    SmoothStepComplement(k);
    ProductNonNegative(m, m, m * m);
    ProductNonNegative(m * m, 1.0 + 2.0 * k, 1.0 - SmoothStep(k));
    if k < 1.0 {
      ProductPositive(m, m, m * m);
      ProductPositive(m * m, 1.0 + 2.0 * k, 1.0 - SmoothStep(k));
    }
  }

  /** 1 - k^2 (3 - 2k) factors as (1 - k)^2 (1 + 2k). */
  lemma SmoothStepComplement(k: real)
    ensures 1.0 - SmoothStep(k) == (1.0 - k) * (1.0 - k) * (1.0 + 2.0 * k)
  {
  }

  /** The sign of a product, with the product passed in so that the solver
      sees it as one term. */
  lemma ProductNonNegative(a: real, b: real, p: real)
    requires a >= 0.0 && b >= 0.0 && p == a * b
    ensures p >= 0.0
  {
  }

  lemma ProductPositive(a: real, b: real, p: real)
    requires a > 0.0 && b > 0.0 && p == a * b
    ensures p > 0.0
  {
  }

  /** The position of a peak inside the knee, 0 at kneeLower and 1 at kneeUpper. */
  function KneePos(c: Knee, v: real): real
    requires c.kneeWidth > 0.0
  {
    (v - c.kneeLower) / c.kneeWidth
  }

  /** The gain at the upper knee boundary. */
  function CompressedGain(c: Knee): real
    requires c.ratio >= 1.0 && c.kneeUpper > 0.0
  {
    c.lib.Pow(c.threshold / c.kneeUpper, Slope(c.ratio))
  }

  /** 1 + (compressedGain - 1) * smoothFactor. */
  function Blend(c: Knee, smooth: real): real
    requires c.ratio >= 1.0 && c.kneeUpper > 0.0
  {
    1.0 + (CompressedGain(c) - 1.0) * smooth
  }

  /** calculateGain in float64: 1.0 up to kneeLower, the full compression
      (threshold/peak)^(1 - 1/ratio) from kneeUpper on (threshold/+Inf being
      0), and the smoothstep blend in between. Only a NaN peak gives NaN,
      through the blend's arithmetic. */
  function CalculateGain(c: Knee, peak: Float): (r: Float)
    requires KneeValid(c)
    ensures r.Finite? <==> !peak.NaN?
    ensures LessEq(peak, Finite(c.kneeLower)) ==> r == Finite(1.0)
    ensures peak.Finite? && c.kneeLower < peak.v && c.kneeUpper <= peak.v
            ==> r == Finite(c.lib.Pow(c.threshold / peak.v, Slope(c.ratio)))
    ensures peak.PosInf? ==> r == Finite(c.lib.Pow(0.0, Slope(c.ratio)))
    ensures peak.Finite? && c.kneeLower < peak.v < c.kneeUpper
            ==> c.kneeWidth > 0.0 && r == Finite(Blend(c, SmoothStep(KneePos(c, peak.v))))
  {
    if LessEq(peak, Finite(c.kneeLower)) then Finite(1.0)
    else if LessEq(Finite(c.kneeUpper), peak) then
      var base := if peak.PosInf? then 0.0 else c.threshold / peak.v;
      Finite(c.lib.Pow(base, Slope(c.ratio)))
    else
      match peak
      case Finite(v) => Finite(Blend(c, SmoothStep(KneePos(c, v))))
      case _ => NaN
  }

  /** Inside the knee the gain lies between the compressed gain of the upper
      boundary and 1.0, never at either end. */
  lemma BlendBetween(c: Knee, v: real)
    requires KneeValid(c) && c.kneeLower < v < c.kneeUpper
    ensures c.kneeWidth > 0.0 && 0.0 < KneePos(c, v) < 1.0
    ensures var g := Blend(c, SmoothStep(KneePos(c, v)));
            && (CompressedGain(c) <= 1.0 ==> CompressedGain(c) <= g <= 1.0)
            && (CompressedGain(c) < 1.0 ==> CompressedGain(c) < g < 1.0)
  {
    QuotientInside(v - c.kneeLower, c.kneeWidth);
    var k := KneePos(c, v);
    SmoothStepRange(k);
    Interpolate(CompressedGain(c), SmoothStep(k), Blend(c, SmoothStep(k)));
  }

  /** 0 < a < w gives 0 < a / w < 1. */
  lemma QuotientInside(a: real, w: real)
    requires 0.0 < a < w
    ensures 0.0 < a / w < 1.0
  {
    var q := a / w;
    assert q * w == a;
    if q <= 0.0 {
      ProductNonNegative(-q, w, -a);
    }
    if q >= 1.0 {
      ProductNonNegative(q - 1.0, w, a - w);
    }
  }

  /** b = 1 + (g - 1) s for s in (0, 1) lies between g and 1. */
  lemma Interpolate(g: real, s: real, b: real)
    requires 0.0 < s < 1.0 && b == 1.0 + (g - 1.0) * s
    ensures g <= 1.0 ==> g <= b <= 1.0
    ensures g < 1.0 ==> g < b < 1.0
  {
    if g <= 1.0 {
      ProductNonNegative(1.0 - g, s, 1.0 - b);
      ProductNonNegative(1.0 - g, 1.0 - s, b - g);
      if g < 1.0 {
        ProductPositive(1.0 - g, s, 1.0 - b);
        ProductPositive(1.0 - g, 1.0 - s, b - g);
      }
    }
  }

  /** The blend meets the neighbouring branches: at kneeLower it is 1.0 and at
      kneeUpper it is the full compression (threshold/kneeUpper)^(1 - 1/ratio). */
  lemma BlendContinuous(c: Knee)
    requires KneeValid(c) && c.kneeWidth > 0.0
    ensures Blend(c, SmoothStep(KneePos(c, c.kneeLower))) == CalculateGain(c, Finite(c.kneeLower)).v
    ensures Blend(c, SmoothStep(KneePos(c, c.kneeUpper))) == CalculateGain(c, Finite(c.kneeUpper)).v
  {
    assert KneePos(c, c.kneeLower) == 0.0;
    assert KneePos(c, c.kneeUpper) == c.kneeWidth / c.kneeWidth == 1.0;
    SmoothStepRange(0.0);
    SmoothStepRange(1.0);
  }

  /** With a hard knee every peak that is not NaN takes the first or the
      second branch, so the division by kneeWidth is never reached. */
  lemma HardKneeSkipsBlend(c: Knee, peak: Float)
    requires KneeValid(c) && c.kneeWidth == 0.0 && !peak.NaN?
    ensures LessEq(peak, Finite(c.kneeLower)) || LessEq(Finite(c.kneeUpper), peak)
  {
  }

  /** For a level the gain lies in [0, 1]; it is 0 only for an infinite peak
      and a ratio above 1. */
  lemma GainRange(c: Knee, peak: Float)
    requires Sound(c.lib) && KneeValid(c) && IsLevel(peak)
    ensures var r := CalculateGain(c, peak);
            r.Finite? && 0.0 <= r.v <= 1.0
    ensures peak.Finite? ==> CalculateGain(c, peak).v > 0.0
  {
    var e := Slope(c.ratio);
    if peak.PosInf? {
      if e == 0.0 {
        assert c.lib.Pow(0.0, e) == 1.0;
      } else {
        assert c.lib.Pow(0.0, e) == 0.0;
      }
    } else if peak.v >= c.kneeUpper {
      BaseAtMostOne(c.threshold, peak.v);
      PowAtMostOne(c.lib, c.threshold / peak.v, e);
    } else if peak.v > c.kneeLower {
      BaseAtMostOne(c.threshold, c.kneeUpper);
      PowAtMostOne(c.lib, c.threshold / c.kneeUpper, e);
      BlendBetween(c, peak.v);
    }
  }

  lemma BaseAtMostOne(t: real, v: real)
    requires 0.0 < t <= v
    ensures 0.0 < t / v <= 1.0
  {
    assert t / v * v == t;
  }

  lemma PowAtMostOne(lib: MathLib, b: real, e: real)
    requires Sound(lib) && 0.0 < b <= 1.0 && e >= 0.0
    ensures 0.0 < lib.Pow(b, e) <= 1.0
  {
    assert lib.Pow(b, e) <= lib.Pow(1.0, e);
  }

  /** At ratio 1 nothing is compressed: every peak that is not NaN gets gain 1.0. */
  lemma UnitRatioGain(c: Knee, peak: Float)
    requires Sound(c.lib) && KneeValid(c) && c.ratio == 1.0 && !peak.NaN?
    ensures CalculateGain(c, peak) == Finite(1.0)
  {
    assert Slope(c.ratio) == 0.0;
    if peak.Finite? && c.kneeLower < peak.v < c.kneeUpper {
      assert CompressedGain(c) == 1.0;
    }
  }

  /** The knee compressor's promise: a louder peak never gets more gain.
      Over finite levels the gain is non-increasing in the peak, across the
      flat part, the smoothstep blend and the full compression. */
  lemma GainNonIncreasing(c: Knee, p: real, q: real)
    requires Sound(c.lib) && KneeValid(c) && 0.0 <= p <= q
    ensures CalculateGain(c, Finite(q)).v <= CalculateGain(c, Finite(p)).v
  {
    var e := Slope(c.ratio);
    if q <= c.kneeLower {
    } else if p <= c.kneeLower {
      GainRange(c, Finite(q));
    } else if c.kneeUpper <= p {
      QuotientAntitone(c.threshold, p, q);
      BaseAtMostOne(c.threshold, q);
      assert c.lib.Pow(c.threshold / q, e) <= c.lib.Pow(c.threshold / p, e);
    } else if c.kneeUpper <= q {
      BaseAtMostOne(c.threshold, c.kneeUpper);
      PowAtMostOne(c.lib, c.threshold / c.kneeUpper, e);
      BlendBetween(c, p);
      QuotientAntitone(c.threshold, c.kneeUpper, q);
      BaseAtMostOne(c.threshold, q);
      assert c.lib.Pow(c.threshold / q, e) <= CompressedGain(c);
    } else {
      BaseAtMostOne(c.threshold, c.kneeUpper);
      PowAtMostOne(c.lib, c.threshold / c.kneeUpper, e);
      BlendBetween(c, p);
      BlendBetween(c, q);
      QuotientMonotone(p - c.kneeLower, q - c.kneeLower, c.kneeWidth);
      SmoothStepMonotone(KneePos(c, p), KneePos(c, q));
      BlendAntitone(c, SmoothStep(KneePos(c, p)), SmoothStep(KneePos(c, q)));
    }
  }

  /** Above kneeLower a ratio above 1 always compresses: the gain of every
      louder peak, an infinite one included, is strictly below 1. The knee is
      one updateParameters builds: soft, with the threshold strictly inside,
      or hard, with both boundaries on the threshold. */
  lemma GainBelowOne(c: Knee, peak: Float)
    requires Sound(c.lib) && PowBelowOne(c.lib) && KneeValid(c) && c.ratio > 1.0 && IsLevel(peak)
    requires c.kneeLower < c.threshold < c.kneeUpper || c.kneeLower == c.kneeUpper
    requires Less(Finite(c.kneeLower), peak)
    ensures CalculateGain(c, peak).v < 1.0
  {
    var e := Slope(c.ratio);
    if peak.PosInf? {
      assert c.lib.Pow(0.0, e) == 0.0;
    } else if c.kneeUpper <= peak.v {
      QuotientInside(c.threshold, peak.v);
      assert c.lib.Pow(c.threshold / peak.v, e) < 1.0;
    } else {
      QuotientInside(c.threshold, c.kneeUpper);
      assert CompressedGain(c) < 1.0;
      BlendBetween(c, peak.v);
    }
  }

  /** 0 < t and 0 < p <= q give t / q <= t / p. */
  lemma QuotientAntitone(t: real, p: real, q: real)
    requires 0.0 < t && 0.0 < p <= q
    ensures t / q <= t / p
  {
    var a := t / p;
    var b := t / q;
    assert a * p == t;
    assert b * q == t;
    ProductNonNegative(a, q - p, a * q - t);
    if a < b {
      ProductPositive(b - a, q, t - a * q);
    }
  }

  /** x <= y and 0 < w give x / w <= y / w. */
  lemma QuotientMonotone(x: real, y: real, w: real)
    requires x <= y && 0.0 < w
    ensures x / w <= y / w
  {
    var a := x / w;
    var b := y / w;
    assert a * w == x;
    assert b * w == y;
    if b < a {
      ProductPositive(a - b, w, x - y);
    }
  }

  /** The smoothstep is non-decreasing on [0, 1]: the difference of two
      values factors as (b - a)(3(a + b) - 2(a^2 + ab + b^2)). */
  lemma SmoothStepMonotone(a: real, b: real)
    requires 0.0 <= a <= b <= 1.0
    ensures SmoothStep(a) <= SmoothStep(b)
  {
    ProductNonNegative(a, 1.0 - a, a - a * a);
    ProductNonNegative(b, 1.0 - b, b - b * b);
    ProductNonNegative(1.0 - a, b, b - a * b);
    ProductNonNegative(a, 1.0 - b, a - a * b);
    var m := 3.0 * (a + b) - 2.0 * (a * a + a * b + b * b);
    assert m >= 0.0;
    SmoothStepDifference(a, b);
    ProductNonNegative(b - a, m, SmoothStep(b) - SmoothStep(a));
  }

  lemma SmoothStepDifference(a: real, b: real)
    ensures SmoothStep(b) - SmoothStep(a)
            == (b - a) * (3.0 * (a + b) - 2.0 * (a * a + a * b + b * b))
  {
  }

  /** With a compressed gain of at most 1 the blend does not grow with the
      smoothstep factor. */
  lemma BlendAntitone(c: Knee, s: real, t: real)
    requires c.ratio >= 1.0 && c.kneeUpper > 0.0 && CompressedGain(c) <= 1.0 && s <= t
    ensures Blend(c, t) <= Blend(c, s)
  {
    var g := CompressedGain(c);
    ProductNonNegative(1.0 - g, t - s, Blend(c, s) - Blend(c, t));
  }

  /** The coefficients one processing step reads. */
  datatype Coefficients = Coefficients(knee: Knee, bypass: bool, attack: real,
                                       release: real, makeup: real)

  predicate CoefficientsValid(k: Coefficients) {
    KneeValid(k.knee) && 0.0 <= k.attack <= 1.0 && 0.0 <= k.release <= 1.0
  }

  /** processSampleInternal's NaN check on the gain: NaN becomes 1.0
      (CalculateGain never returns an infinity). */
  function GainValue(g: Float): (r: real)
    ensures g.NaN? ==> r == 1.0
    ensures g.Finite? ==> r == g.v
  {
    match g
    case Finite(v) => v
    case _ => 1.0
  }

  /** processSampleInternal for a channel in range: bypass passes the sample
      through with gain 1.0; otherwise the envelope moves, the gain follows
      the new peak and the output is sample * gain * makeup. */
  function Process(k: Coefficients, peak: Float, sample: Float): (r: StepResult)
    requires KneeValid(k.knee)
    ensures k.bypass ==> r == StepResult(sample, 1.0, peak)
    ensures sample.Finite? ==> r.out.Finite?
  {
    if k.bypass then StepResult(sample, 1.0, peak)
    else
      var p := EnvelopeStep(peak, InputLevel(sample), k.attack, k.release);
      var g := GainValue(CalculateGain(k.knee, p));
      StepResult(Output(sample, g, k.makeup), g, p)
  }

  /** With valid coefficients the envelope stays a level. */
  lemma ProcessKeepsLevel(k: Coefficients, peak: Float, sample: Float)
    requires CoefficientsValid(k) && IsLevel(peak)
    ensures IsLevel(Process(k, peak, sample).peak)
  {
    if !k.bypass {
      EnvelopeKeepsLevel(peak, InputLevel(sample), k.attack, k.release);
    }
  }

  /** Outside bypass a finite envelope moves towards the level of a finite
      sample and never past it: attack when the sample is louder, release
      otherwise. */
  lemma ProcessEnvelopeBounds(k: Coefficients, peak: Float, sample: Float)
    requires KneeValid(k.knee) && !k.bypass && peak.Finite? && sample.Finite?
    ensures var r := Process(k, peak, sample);
            peak.v < AbsReal(sample.v) && 0.0 <= k.attack <= 1.0
            ==> r.peak.Finite? && peak.v <= r.peak.v <= AbsReal(sample.v)
    ensures var r := Process(k, peak, sample);
            AbsReal(sample.v) <= peak.v && 0.0 <= k.release <= 1.0
            ==> r.peak.Finite? && AbsReal(sample.v) <= r.peak.v <= peak.v
  {
    EnvelopeBetween(peak, InputLevel(sample), k.attack, k.release);
  }

  /** Against a level the gain of a step lies in [0, 1]. */
  lemma ProcessGainRange(k: Coefficients, peak: Float, sample: Float)
    requires Sound(k.knee.lib) && CoefficientsValid(k) && IsLevel(peak)
    ensures 0.0 <= Process(k, peak, sample).gain <= 1.0
  {
    if !k.bypass {
      var p := EnvelopeStep(peak, InputLevel(sample), k.attack, k.release);
      EnvelopeKeepsLevel(peak, InputLevel(sample), k.attack, k.release);
      GainRange(k.knee, p);
    }
  }

  /** ProcessBlock's loop over an already sanitised block (see Engine.Trace). */
  function Run(k: Coefficients, peak: Float, xs: seq<Float>): (r: Trace)
    requires KneeValid(k.knee)
    ensures |r.outs| == |xs| && |r.gains| == |xs|
    decreases |xs|
  {
    if |xs| == 0 then Trace([], [], peak, 0.0, 0.0, 1.0)
    else
      var t := Run(k, peak, xs[..|xs| - 1]);
      var x := xs[|xs| - 1];
      Extend(t, x, Process(k, t.peak, x))
  }

  /** Every output of the loop is finite. */
  lemma {:induction false} RunOutputsFinite(k: Coefficients, peak: Float, xs: seq<Float>)
    requires KneeValid(k.knee)
    ensures AllFinite(Run(k, peak, xs).outs)
    decreases |xs|
  {
    if |xs| > 0 {
      RunOutputsFinite(k, peak, xs[..|xs| - 1]);
    }
  }

  /** With valid coefficients the envelope stays a level over a block. */
  lemma {:induction false} RunKeepsLevel(k: Coefficients, peak: Float, xs: seq<Float>)
    requires CoefficientsValid(k) && IsLevel(peak)
    ensures IsLevel(Run(k, peak, xs).peak)
    decreases |xs|
  {
    if |xs| > 0 {
      RunKeepsLevel(k, peak, xs[..|xs| - 1]);
      var t := Run(k, peak, xs[..|xs| - 1]);
      ProcessKeepsLevel(k, t.peak, xs[|xs| - 1]);
    }
  }

  /** In bypass the loop only sanitises: the block comes out sanitised, every
      gain is 1.0 and the envelope does not move. */
  lemma {:induction false} RunBypass(k: Coefficients, peak: Float, xs: seq<Float>)
    requires KneeValid(k.knee) && k.bypass
    ensures var t := Run(k, peak, xs);
            t.outs == SanitizeAll(xs) && t.gains == Ones(|xs|) && t.peak == peak
    decreases |xs|
  {
    if |xs| > 0 {
      RunBypass(k, peak, xs[..|xs| - 1]);
      OnesSnoc(|xs|);
    }
  }

  /** The meters the loop keeps are the block's peak input and output
      magnitude and its smallest gain. */
  lemma {:induction false} RunMeters(k: Coefficients, peak: Float, xs: seq<Float>)
    requires KneeValid(k.knee)
    ensures var t := Run(k, peak, xs);
            && t.maxIn == MaxAbs(xs) && t.maxOut == MaxAbs(t.outs)
            && t.minGain == MinGain(t.gains)
    decreases |xs|
  {
    if |xs| > 0 {
      var init := xs[..|xs| - 1];
      RunMeters(k, peak, init);
      var t := Run(k, peak, init);
      var s := Process(k, t.peak, xs[|xs| - 1]);
      MaxAbsSnoc(t.outs, Sanitize(s.out));
      MinGainSnoc(t.gains, s.gain);
    }
  }

  /** Run over one more sample extends the trace t of the first i samples
      by the step s of sample i. */
  lemma RunSnoc(k: Coefficients, peak: Float, xs: seq<Float>, i: nat, t: Trace, s: StepResult)
    requires KneeValid(k.knee) && i < |xs|
    requires t == Run(k, peak, xs[..i]) && s == Process(k, t.peak, xs[i])
    ensures Run(k, peak, xs[..i + 1]) == Extend(t, xs[i], s)
  {
    assert xs[..i + 1][..i] == xs[..i];
  }

  /** processSampleInternal for a channel in range of the envelopes: only
      peak[channel] changes, as Process says. */
  method ProcessChannel(k: Coefficients, peak: array<Float>, channel: int, sample: Float)
    returns (out: Float, gain: real)
    requires KneeValid(k.knee) && 0 <= channel < peak.Length
    modifies peak
    ensures var s := Process(k, old(peak[channel]), sample);
            out == s.out && gain == s.gain && peak[..] == old(peak[..])[channel := s.peak]
  {
    if k.bypass {
      return sample, 1.0;
    }
    var next := UpdateEnvelope(peak[channel], InputLevel(sample), k.attack, k.release);
    peak[channel] := next;
    var g := CalculateGain(k.knee, next);
    gain := if g.NaN? then 1.0 else g.v;
    out := Output(sample, gain, k.makeup);
  }

  /** ProcessChannel on envelopes that are all levels keeps them levels. */
  method StepLevels(k: Coefficients, peak: array<Float>, channel: int, sample: Float)
    returns (out: Float, gain: real)
    requires CoefficientsValid(k) && 0 <= channel < peak.Length && AllLevels(peak[..])
    modifies peak
    ensures AllLevels(peak[..])
    ensures var s := Process(k, old(peak[channel]), sample);
            out == s.out && gain == s.gain && peak[..] == old(peak[..])[channel := s.peak]
  {
    ProcessKeepsLevel(k, peak[channel], sample);
    LevelsUpdate(peak[..], channel, Process(k, peak[channel], sample).peak);
    out, gain := ProcessChannel(k, peak, channel, sample);
  }

  /** One pass of ProcessBlock's loop, meters aside: inp[i] is sanitised in
      place, goes through processSampleInternal, and the sanitised output is
      stored in out[i]. The input and output may be the same array. */
  method SampleStep(k: Coefficients, inp: array<Float>, out: array<Float>,
                    peak: array<Float>, channel: int, i: int)
    returns (x: Float, processed: Float, gain: real)
    requires KneeValid(k.knee)
    requires inp != peak && out != peak && inp.Length == out.Length
    requires 0 <= channel < peak.Length && 0 <= i < inp.Length
    modifies inp, out, peak
    ensures x == Sanitize(old(inp[i]))
    ensures var s := Process(k, old(peak[channel]), x);
            && processed == Sanitize(s.out) && gain == s.gain
            && peak[..] == old(peak[..])[channel := s.peak]
            && out[..] == old(out[..])[i := processed]
            && (inp != out ==> inp[..] == old(inp[..])[i := x])
  {
    x := SanitizeInput(inp, i);
    processed, gain := ProcessChannel(k, peak, channel, x);
    if processed.NaN? || IsInf(processed) {
      processed := Finite(0.0);
    }
    out[i] := processed;
  }

  /** What ProcessBlock's loop has done after i samples of the block inp0
      (whose sanitised form is xs): the trace t is Run on the first i
      samples, the arrays are as ArraysInv says and the envelope of the
      channel is the trace's. */
  ghost predicate LoopInv(k: Coefficients, inp0: seq<Float>, xs: seq<Float>, p0: Float,
                          peaks0: seq<Float>, channel: int, alias: bool, i: int, t: Trace,
                          inpNow: seq<Float>, outNow: seq<Float>, peakNow: seq<Float>)
  {
    && KneeValid(k.knee)
    && 0 <= channel < |peaks0|
    && 0 <= i <= |xs|
    && t == Run(k, p0, xs[..i])
    && ArraysInv(inp0, xs, alias, i, t.outs, inpNow, outNow)
    && peakNow == peaks0[channel := t.peak]
  }

  /** One iteration keeps LoopInv. */
  lemma InvStep(k: Coefficients, inp0: seq<Float>, xs: seq<Float>, p0: Float,
                peaks0: seq<Float>, channel: int, alias: bool, i: int, t: Trace,
                inpOld: seq<Float>, outOld: seq<Float>, peakOld: seq<Float>,
                inpNew: seq<Float>, outNew: seq<Float>, peakNew: seq<Float>,
                x: Float, processed: Float, gain: real)
    requires LoopInv(k, inp0, xs, p0, peaks0, channel, alias, i, t, inpOld, outOld, peakOld)
    requires xs == SanitizeAll(inp0) && i < |inp0|
    requires x == Sanitize(inpOld[i])
    requires var s := Process(k, peakOld[channel], x);
             && processed == Sanitize(s.out) && gain == s.gain
             && peakNew == peakOld[channel := s.peak]
    requires outNew == outOld[i := processed]
    requires !alias ==> inpNew == inpOld[i := x]
    requires alias ==> inpNew == outNew
    ensures x == xs[i]
    ensures LoopInv(k, inp0, xs, p0, peaks0, channel, alias, i + 1,
                    Extend(t, x, Process(k, t.peak, x)), inpNew, outNew, peakNew)
  {
    var s := Process(k, t.peak, x);
    RunSnoc(k, p0, xs, i, t, s);
    ArraysStep(inp0, xs, alias, i, t.outs, inpOld, outOld, inpNew, outNew, processed);
  }

  /** After the last sample LoopInv gives the whole result. */
  lemma InvDone(k: Coefficients, inp0: seq<Float>, xs: seq<Float>, p0: Float,
                peaks0: seq<Float>, channel: int, alias: bool, t: Trace,
                inpNow: seq<Float>, outNow: seq<Float>, peakNow: seq<Float>)
    requires LoopInv(k, inp0, xs, p0, peaks0, channel, alias, |inp0|, t, inpNow, outNow, peakNow)
    ensures t == Run(k, p0, xs)
    ensures outNow == t.outs && peakNow == peaks0[channel := t.peak]
    ensures !alias ==> inpNow == xs
  {
    assert xs[..|xs|] == xs;
  }

  /** ProcessBlock's loop over one block with the coefficients k: every
      non-finite input is zeroed in place, the sample goes through
      processSampleInternal, the output is sanitised and stored, and the
      block's input peak, output peak and smallest gain are tracked. */
  method SampleLoop(k: Coefficients, inp: array<Float>, out: array<Float>,
                    peak: array<Float>, channel: int)
    returns (maxInput: real, maxOutput: real, minGain: real)
    requires KneeValid(k.knee)
    requires inp != peak && out != peak && inp.Length == out.Length
    requires 0 <= channel < peak.Length
    modifies inp, out, peak
    ensures var xs := SanitizeAll(old(inp[..]));
            var t := Run(k, old(peak[channel]), xs);
            && out[..] == t.outs
            && (inp != out ==> inp[..] == xs)
            && peak[..] == old(peak[..])[channel := t.peak]
            && maxInput == MaxAbs(xs) && maxOutput == MaxAbs(t.outs)
            && minGain == MinGain(t.gains)
  {
    ghost var inp0 := inp[..];
    ghost var xs := SanitizeAll(inp0);
    ghost var p0 := peak[channel];
    ghost var peaks0 := peak[..];
    maxInput, maxOutput := 0.0, 0.0;
    minGain := 1.0;
    ghost var t := Trace([], [], p0, 0.0, 0.0, 1.0);
    var i := 0;
    while i < inp.Length
      invariant LoopInv(k, inp0, xs, p0, peaks0, channel, inp == out, i, t, inp[..], out[..], peak[..])
      invariant maxInput == t.maxIn && maxOutput == t.maxOut && minGain == t.minGain
    {
      ghost var inpOld, outOld, peakOld := inp[..], out[..], peak[..];
      var x, processed, gain := SampleStep(k, inp, out, peak, channel, i);
      InvStep(k, inp0, xs, p0, peaks0, channel, inp == out, i, t,
              inpOld, outOld, peakOld, inp[..], out[..], peak[..], x, processed, gain);
      var absIn := Magnitude(x);
      if absIn > maxInput {
        maxInput := absIn;
      }
      var absOut := Magnitude(processed);
      if absOut > maxOutput {
        maxOutput := absOut;
      }
      if gain < minGain {
        minGain := gain;
      }
      t := Extend(t, x, Process(k, t.peak, x));
      i := i + 1;
    }
    InvDone(k, inp0, xs, p0, peaks0, channel, inp == out, t, inp[..], out[..], peak[..]);
    RunMeters(k, p0, xs);
  }

  /** The linear-knee soft-knee compressor of package main. The mutex becomes
      sequential access. */
  class SoftKneeCompressor {
    const lib: MathLib

    var thresholdDB: real
    var ratio: real
    var kneeDB: real
    var attackMs: real
    var releaseMs: real
    var makeupGainDB: real
    var autoMakeup: bool
    var bypass: bool

    const peak: array<Float>
    var attackFactor: real
    var releaseFactor: real

    var threshold: real
    var thresholdRecip: real
    var kneeWidth: real
    var kneeUpper: real
    var kneeLower: real
    var makeupGainLin: real
    var slopeRecip: real
    var sampleRate: real
    const channels: int
    const meters: MeterWords

    /** The user parameters. */
    function Parameters(): Settings
      reads this
    {
      Settings(thresholdDB, ratio, kneeDB, attackMs, releaseMs, makeupGainDB, autoMakeup,
               bypass, sampleRate)
    }

    /** GetMeters: the last published meters, the block counter and the rate. */
    function GetMeters(): (m: MeterStats)
      reads this, meters
      ensures m.blocks == meters.processedBlocks && m.sampleRate == sampleRate
    {
      meters.Stats(sampleRate)
    }

    function Coeffs(): Coefficients
      reads this
    {
      Coefficients(Knee(lib, threshold, ratio, kneeLower, kneeUpper, kneeWidth), bypass,
                   attackFactor, releaseFactor, makeupGainLin)
    }

    /** The attack and release factors match the times and the sample rate. */
    ghost predicate TimeConstantsValid()
      reads this
    {
      Sound(lib) && SettingsValid(Parameters())
      && attackFactor == AttackFactor(lib, attackMs, sampleRate)
      && releaseFactor == ReleaseFactor(lib, releaseMs, sampleRate)
    }

    /** Every cached value matches the parameters it is derived from. */
    ghost predicate ParamsValid()
      reads this
    {
      TimeConstantsValid()
      && Knee(lib, threshold, ratio, kneeLower, kneeUpper, kneeWidth)
         == KneeOf(lib, thresholdDB, ratio, kneeDB)
      && thresholdRecip == 1.0 / threshold && slopeRecip == 1.0 / ratio - 1.0
      && (autoMakeup ==> makeupGainDB == AutoMakeupDB(thresholdDB, ratio))
      && makeupGainLin == DBToAmplitude(lib, makeupGainDB) && channels == peak.Length
    }

    ghost predicate Valid()
      reads this, peak, meters
    {
      ParamsValid() && meters.processedBlocks < Uint64Modulus
      && AllLevels(peak[..])
    }

    lemma CoefficientsInRange()
      requires ParamsValid()
      ensures CoefficientsValid(Coeffs()) && 0.0 < Coeffs().attack < 1.0
              && 0.0 < Coeffs().release < 1.0
    {
      KneeOfValid(lib, thresholdDB, ratio, kneeDB);
    }

    /** The knee boundaries sit around the threshold, and a hard knee puts
        both on it. */
    lemma KneeAroundThreshold()
      requires ParamsValid()
      ensures kneeWidth == kneeUpper - kneeLower
      ensures kneeDB > 0.0 ==> kneeLower < threshold < kneeUpper
      ensures kneeDB == 0.0 ==> kneeLower == threshold == kneeUpper
    {
      KneeOfValid(lib, thresholdDB, ratio, kneeDB);
    }

    /** NewSoftKneeCompressor: -20 dB, 4:1, 6 dB knee, 10 ms / 100 ms, auto
        makeup on (hence +15 dB), bypass off, silent envelopes and meters. */
    constructor (lib: MathLib, sampleRate: real, channels: int)
      requires Sound(lib) && sampleRate > 0.0 && channels >= 0
      ensures Valid() && fresh(peak) && fresh(meters) && this.lib == lib
      ensures this.channels == channels
      ensures Parameters() == DefaultSettings(sampleRate).(makeupGainDB := 15.0)
      ensures forall j :: 0 <= j < peak.Length ==> peak[j] == Finite(0.0)
      ensures GetMeters() == MeterStats(0.0, 0.0, 0.0, 0.0, 0.0, 0.0, 0, sampleRate)
    {
      this.lib := lib;
      thresholdDB := -20.0;
      ratio := 4.0;
      kneeDB := 6.0;
      attackMs := 10.0;
      releaseMs := 100.0;
      makeupGainDB := 0.0;
      autoMakeup := true;
      bypass := false;
      this.sampleRate := sampleRate;
      this.channels := channels;
      peak := new Float[channels](_ => Finite(0.0));
      meters := new MeterWords();
      new;
      UpdateParameters();
    }

    /** updateTimeConstants */
    method UpdateTimeConstants()
      requires Sound(lib) && SettingsValid(Parameters())
      modifies this`attackFactor, this`releaseFactor
      ensures TimeConstantsValid()
    {
      attackFactor := AttackFactor(lib, attackMs, sampleRate);
      releaseFactor := ReleaseFactor(lib, releaseMs, sampleRate);
    }

    /** updateParameters: every cached value is recomputed, and with auto
        makeup on the makeup gain follows threshold and ratio. */
    method UpdateParameters()
      requires Sound(lib) && SettingsValid(Parameters())
      requires channels == peak.Length
      modifies this`threshold, this`thresholdRecip, this`kneeLower, this`kneeUpper,
               this`kneeWidth, this`slopeRecip, this`makeupGainDB, this`makeupGainLin,
               this`attackFactor, this`releaseFactor
      ensures ParamsValid()
      ensures Parameters() == Refreshed(old(Parameters()))
    {
      UpdateLevels();
      UpdateMakeup();
      UpdateTimeConstants();
    }

    /** The first lines of updateParameters: the linear threshold and its
        reciprocal, the knee boundaries half the knee width (in dB) below and
        above the threshold, and their distance. */
    method UpdateLevels()
      requires Sound(lib)
      modifies this`threshold, this`thresholdRecip, this`kneeLower, this`kneeUpper,
               this`kneeWidth
      ensures Knee(lib, threshold, ratio, kneeLower, kneeUpper, kneeWidth)
              == KneeOf(lib, thresholdDB, ratio, kneeDB)
      ensures thresholdRecip == 1.0 / threshold
    {
      threshold := DBToAmplitude(lib, thresholdDB);
      thresholdRecip := 1.0 / threshold;
      var kneeHalfDB := kneeDB / 2.0;
      kneeLower := DBToAmplitude(lib, thresholdDB - kneeHalfDB);
      kneeUpper := DBToAmplitude(lib, thresholdDB + kneeHalfDB);
      kneeWidth := kneeUpper - kneeLower;
    }

    /** The rest of updateParameters before the time constants: the slope
        reciprocal, the automatic makeup gain and its linear value. */
    method UpdateMakeup()
      requires Sound(lib) && SettingsValid(Parameters())
      modifies this`slopeRecip, this`makeupGainDB, this`makeupGainLin
      ensures slopeRecip == 1.0 / ratio - 1.0
      ensures makeupGainDB == if autoMakeup then AutoMakeupDB(thresholdDB, ratio)
                              else old(makeupGainDB)
      ensures makeupGainLin == DBToAmplitude(lib, makeupGainDB)
    {
      slopeRecip := 1.0 / ratio - 1.0;
      if autoMakeup {
        makeupGainDB := AutoMakeupDB(thresholdDB, ratio);
      }
      makeupGainLin := DBToAmplitude(lib, makeupGainDB);
    }

    method SetThreshold(dB: real)
      requires Valid()
      modifies this`thresholdDB, this`threshold, this`thresholdRecip, this`kneeLower,
               this`kneeUpper, this`kneeWidth, this`slopeRecip, this`makeupGainDB,
               this`makeupGainLin, this`attackFactor, this`releaseFactor
      ensures Valid()
      ensures Parameters() == Refreshed(old(Parameters()).(thresholdDB := dB))
    {
      thresholdDB := dB;
      UpdateParameters();
    }

    /** SetRatio clamps the ratio to at least 1. */
    method SetRatio(value: real)
      requires Valid()
      modifies this`ratio, this`threshold, this`thresholdRecip, this`kneeLower,
               this`kneeUpper, this`kneeWidth, this`slopeRecip, this`makeupGainDB,
               this`makeupGainLin, this`attackFactor, this`releaseFactor
      ensures Valid()
      ensures Parameters()
           == Refreshed(old(Parameters()).(ratio := if value < 1.0 then 1.0 else value))
    {
      var r := value;
      if r < 1.0 {
        r := 1.0;
      }
      ratio := r;
      UpdateParameters();
    }

    /** SetKnee clamps the knee width to at least 0 dB. */
    method SetKnee(value: real)
      requires Valid()
      modifies this`kneeDB, this`threshold, this`thresholdRecip, this`kneeLower,
               this`kneeUpper, this`kneeWidth, this`slopeRecip, this`makeupGainDB,
               this`makeupGainLin, this`attackFactor, this`releaseFactor
      ensures Valid()
      ensures Parameters()
           == Refreshed(old(Parameters()).(kneeDB := if value < 0.0 then 0.0 else value))
    {
      var k := value;
      if k < 0.0 {
        k := 0.0;
      }
      kneeDB := k;
      UpdateParameters();
    }

    /** SetAttack clamps the attack time to at least 0.1 ms. */
    method SetAttack(timeMs: real)
      requires Valid()
      modifies this`attackMs, this`attackFactor, this`releaseFactor
      ensures Valid()
      ensures Parameters() == old(Parameters()).(attackMs := if timeMs < 0.1 then 0.1 else timeMs)
    {
      var t := timeMs;
      if t < 0.1 {
        t := 0.1;
      }
      attackMs := t;
      UpdateTimeConstants();
    }

    /** SetRelease clamps the release time to at least 1 ms. */
    method SetRelease(timeMs: real)
      requires Valid()
      modifies this`releaseMs, this`attackFactor, this`releaseFactor
      ensures Valid()
      ensures Parameters() == old(Parameters()).(releaseMs := if timeMs < 1.0 then 1.0 else timeMs)
    {
      var t := timeMs;
      if t < 1.0 {
        t := 1.0;
      }
      releaseMs := t;
      UpdateTimeConstants();
    }

    /** SetMakeupGain stores the gain and switches auto makeup off. */
    method SetMakeupGain(dB: real)
      requires Valid()
      modifies this`makeupGainDB, this`autoMakeup, this`threshold, this`thresholdRecip,
               this`kneeLower, this`kneeUpper, this`kneeWidth, this`slopeRecip,
               this`makeupGainLin, this`attackFactor, this`releaseFactor
      ensures Valid()
      ensures Parameters() == old(Parameters()).(makeupGainDB := dB, autoMakeup := false)
    {
      makeupGainDB := dB;
      autoMakeup := false;
      UpdateParameters();
    }

    method SetAutoMakeup(enable: bool)
      requires Valid()
      modifies this`autoMakeup, this`threshold, this`thresholdRecip, this`kneeLower,
               this`kneeUpper, this`kneeWidth, this`slopeRecip, this`makeupGainDB,
               this`makeupGainLin, this`attackFactor, this`releaseFactor
      ensures Valid()
      ensures Parameters() == Refreshed(old(Parameters()).(autoMakeup := enable))
    {
      autoMakeup := enable;
      UpdateParameters();
    }

    method SetBypass(value: bool)
      requires Valid()
      modifies this`bypass
      ensures Valid()
      ensures Parameters() == old(Parameters()).(bypass := value)
    {
      bypass := value;
    }

    /** SetSampleRate ignores a non-positive or unchanged rate; otherwise it
        stores the rate and recomputes only the time constants. */
    method SetSampleRate(rate: real)
      requires Valid()
      modifies this`sampleRate, this`attackFactor, this`releaseFactor
      ensures Valid()
      ensures Parameters() == if rate > 0.0 then old(Parameters()).(sampleRate := rate)
                              else old(Parameters())
      ensures rate <= 0.0 || rate == old(sampleRate)
              ==> attackFactor == old(attackFactor) && releaseFactor == old(releaseFactor)
    {
      if rate <= 0.0 {
        return;
      }
      if sampleRate != rate {
        sampleRate := rate;
        UpdateTimeConstants();
      }
    }

    /** processSampleInternal: bypass or a channel out of range returns the
        sample with gain 1.0; otherwise only peak[channel] moves. */
    method ProcessSampleInternal(sample: Float, channel: int) returns (out: Float, gain: real)
      requires Valid()
      modifies peak
      ensures Valid()
      ensures bypass || channel < 0 || channel >= channels
              ==> out == sample && gain == 1.0 && peak[..] == old(peak[..])
      ensures 0 <= channel < channels
              ==> var s := Process(Coeffs(), old(peak[channel]), sample);
                  out == s.out && gain == s.gain && peak[..] == old(peak[..])[channel := s.peak]
    {
      CoefficientsInRange();
      if bypass {
        return sample, 1.0;
      }
      if channel < 0 || channel >= channels {
        return sample, 1.0;
      }
      out, gain := StepLevels(Coeffs(), peak, channel, sample);
    }

    /** ProcessSample: processSampleInternal's output. */
    method ProcessSample(sample: Float, channel: int) returns (out: Float)
      requires Valid()
      modifies peak
      ensures Valid()
      ensures bypass || channel < 0 || channel >= channels
              ==> out == sample && peak[..] == old(peak[..])
      ensures 0 <= channel < channels
              ==> var s := Process(Coeffs(), old(peak[channel]), sample);
                  out == s.out && peak[..] == old(peak[..])[channel := s.peak]
    {
      var gain;
      out, gain := ProcessSampleInternal(sample, channel);
    }

    /** The sample loop of ProcessBlock. */
    method ProcessSamples(inp: array<Float>, out: array<Float>, channel: int)
      returns (maxInput: real, maxOutput: real, minGain: real)
      requires Valid() && inp != peak && out != peak
      requires 0 <= channel < channels && inp.Length == out.Length
      modifies inp, out, peak
      ensures Valid()
      ensures var xs := SanitizeAll(old(inp[..]));
              var t := Run(Coeffs(), old(peak[channel]), xs);
              && out[..] == t.outs
              && (inp != out ==> inp[..] == xs)
              && peak[..] == old(peak[..])[channel := t.peak]
              && maxInput == MaxAbs(xs) && maxOutput == MaxAbs(t.outs)
              && minGain == MinGain(t.gains)
    {
      CoefficientsInRange();
      ghost var xs := SanitizeAll(inp[..]);
      RunKeepsLevel(Coeffs(), peak[channel], xs);
      LevelsUpdate(peak[..], channel, Run(Coeffs(), peak[channel], xs).peak);
      maxInput, maxOutput, minGain := SampleLoop(Coeffs(), inp, out, peak, channel);
    }

    /** ProcessBlock: nothing happens for a channel out of range or a length
        mismatch. Otherwise non-finite inputs are zeroed in place, every
        output is written (sanitised), only peak[channel] moves, and the
        block's meters are published for channels 0 and 1. */
    method ProcessBlock(inp: array<Float>, out: array<Float>, channel: int)
      requires Valid() && inp != peak && out != peak
      modifies inp, out, peak, meters
      ensures Valid()
      ensures channel < 0 || channel >= channels || inp.Length != out.Length
              ==> inp[..] == old(inp[..]) && out[..] == old(out[..])
                  && peak[..] == old(peak[..]) && GetMeters() == old(GetMeters())
      ensures 0 <= channel < channels && inp.Length == out.Length
              ==> var xs := SanitizeAll(old(inp[..]));
                  var t := Run(Coeffs(), old(peak[channel]), xs);
                  && out[..] == t.outs
                  && (inp != out ==> inp[..] == xs)
                  && peak[..] == old(peak[..])[channel := t.peak]
                  && GetMeters() == PublishMeters(old(GetMeters()), channel, MaxAbs(xs),
                                                  MaxAbs(t.outs), MinGain(t.gains))
    {
      if channel < 0 || channel >= channels || inp.Length != out.Length {
        return;
      }
      var maxInput, maxOutput, minGain := ProcessSamples(inp, out, channel);
      meters.Publish(channel, maxInput, maxOutput, minGain, sampleRate);
    }

    /** Reset sets every envelope to 0 and touches nothing else. */
    method Reset()
      requires Valid()
      modifies peak
      ensures Valid()
      ensures forall j :: 0 <= j < peak.Length ==> peak[j] == Finite(0.0)
    {
      var i := 0;
      while i < peak.Length
        invariant 0 <= i <= peak.Length
        invariant forall j :: 0 <= j < i ==> peak[j] == Finite(0.0)
        invariant forall j :: i <= j < peak.Length ==> peak[j] == old(peak[j])
      {
        peak[i] := Finite(0.0);
        i := i + 1;
      }
    }
  }
}
