/** test_analysis.go: the measurements the integration tests take of a
    buffer, in IEEE terms (NaN and the infinities included, rounding not). */
module Analysis {
  import opened GoRuntime
  import Compressor

  /** The |sample| of FindPeak: negated only when `sample < 0` holds, so NaN
      stays NaN. */
  function PeakMagnitude(sample: Float): Float {
    if Less(sample, Finite(0.0)) then Neg(sample) else sample
  }

  lemma PeakMagnitudeIsAbs(sample: Float)
    ensures PeakMagnitude(sample) == Abs(sample)
  {
  }

  /** FindPeak's running maximum: from 0, replaced whenever `abs > peak`. */
  function PeakOf(samples: seq<Float>): (r: Float)
    ensures |samples| == 0 ==> r == Finite(0.0)
    ensures !r.NaN? && LessEq(Finite(0.0), r)
    decreases |samples|
  {
    if |samples| == 0 then Finite(0.0)
    else
      var peak := PeakOf(samples[..|samples| - 1]);
      var abs := PeakMagnitude(samples[|samples| - 1]);
      if Less(peak, abs) then abs else peak
  }

  /** The peak is at least |s| for every sample s that is not NaN, it is never
      NaN, and it is 0 or the magnitude of some sample. */
  lemma {:induction false} PeakOfIsMax(samples: seq<Float>)
    ensures var p := PeakOf(samples);
            && !p.NaN? && LessEq(Finite(0.0), p)
            && (forall i :: 0 <= i < |samples| && !samples[i].NaN? ==> LessEq(Abs(samples[i]), p))
            && (p == Finite(0.0) || exists i :: 0 <= i < |samples| && p == Abs(samples[i]))
    decreases |samples|
  {
    if |samples| > 0 {
      var n := |samples|;
      var init := samples[..n - 1];
      PeakOfIsMax(init);
      var p := PeakOf(init);
      var abs := PeakMagnitude(samples[n - 1]);
      PeakMagnitudeIsAbs(samples[n - 1]);
      forall i | 0 <= i < n && !samples[i].NaN?
        ensures LessEq(Abs(samples[i]), PeakOf(samples))
      {
        if i < n - 1 {
          assert samples[i] == init[i];
          if Less(p, abs) {
            LessEqIsLessOrEqual(p, abs);
            LessEqTransitive(Abs(samples[i]), p, abs);
          }
        } else {
          LessEqIsLessOrEqual(abs, p);
          LessEqIsLessOrEqual(p, abs);
        }
      }
      if Less(p, abs) {
        LessEqIsLessOrEqual(p, abs);
        LessEqTransitive(Finite(0.0), p, abs);
      } else if p != Finite(0.0) {
        var j :| 0 <= j < n - 1 && p == Abs(init[j]);
        assert samples[j] == init[j];
      }
    }
  }

  /** FindPeak: the running maximum of the magnitudes. */
  method FindPeak(samples: array<Float>) returns (peak: Float)
    ensures peak == PeakOf(samples[..])
    ensures !peak.NaN? && LessEq(Finite(0.0), peak)
    ensures forall i :: 0 <= i < samples.Length && !samples[i].NaN? ==> LessEq(Abs(samples[i]), peak)
    ensures samples.Length == 0 ==> peak == Finite(0.0)
  {
    peak := Finite(0.0);
    var i := 0;
    while i < samples.Length
      invariant 0 <= i <= samples.Length
      invariant peak == PeakOf(samples[..i])
    {
      assert samples[..i + 1][..i] == samples[..i];
      var abs := samples[i];
      if Less(abs, Finite(0.0)) {
        abs := Neg(abs);
      }
      if Less(peak, abs) {
        peak := abs;
      }
      i := i + 1;
    }
    assert samples[..i] == samples[..];
    PeakOfIsMax(samples[..]);
  }

  /** The accumulated `sum += sample * sample` of CalculateRMS. */
  function SumSquares(samples: seq<Float>): (r: Float)
    ensures |samples| == 0 ==> r == Finite(0.0)
    ensures (exists i :: 0 <= i < |samples| && samples[i].NaN?) ==> r.NaN?
    decreases |samples|
  {
    if |samples| == 0 then Finite(0.0)
    else
      var x := samples[|samples| - 1];
      Add(SumSquares(samples[..|samples| - 1]), Mul(x, x))
  }

  /** The sum of squares is never negative: it is NaN, +Inf or a finite value
      of at least 0; it is finite when every sample is and not NaN when no
      sample is. */
  lemma {:induction false} SumSquaresNonNegative(samples: seq<Float>)
    ensures var s := SumSquares(samples);
            && !s.NegInf? && (s.Finite? ==> s.v >= 0.0)
            && ((forall i :: 0 <= i < |samples| ==> samples[i].Finite?) ==> s.Finite?)
            && ((forall i :: 0 <= i < |samples| ==> !samples[i].NaN?) ==> !s.NaN?)
    decreases |samples|
  {
    if |samples| > 0 {
      var n := |samples|;
      var init := samples[..n - 1];
      SumSquaresNonNegative(init);
      assert forall i :: 0 <= i < n - 1 ==> init[i] == samples[i];
      var x := samples[n - 1];
      if x.Finite? {
        SquareNonNegative(x.v);
      }
    }
  }

  lemma SquareNonNegative(a: real)
    ensures a * a >= 0.0
  {
    if a < 0.0 {
      assert (-a) * (-a) == a * a;
    }
  }

  /** math.Sqrt: NaN below 0 and for NaN, +Inf for +Inf. */
  function MathSqrt(lib: MathLib, x: Float): Float {
    match x
    case Finite(v) => if v < 0.0 then NaN else Finite(lib.Sqrt(v))
    case PosInf => PosInf
    case _ => NaN
  }

  /** CalculateRMS: 0 for an empty buffer, else the square root of the mean square. */
  function RMS(lib: MathLib, samples: seq<Float>): (r: Float)
    ensures |samples| == 0 ==> r == Finite(0.0)
    ensures !r.NegInf?
    ensures (exists i :: 0 <= i < |samples| && samples[i].NaN?) ==> r.NaN?
  {
    if |samples| == 0 then Finite(0.0)
    else MathSqrt(lib, DivBy(SumSquares(samples), |samples| as real))
  }

  /** The RMS of finite samples is finite and at least 0. */
  lemma RMSOfFinite(lib: MathLib, samples: seq<Float>)
    requires Sound(lib)
    requires forall i :: 0 <= i < |samples| ==> samples[i].Finite?
    ensures RMS(lib, samples).Finite? && RMS(lib, samples).v >= 0.0
  {
    SumSquaresNonNegative(samples);
    if |samples| > 0 {
      var s := SumSquares(samples).v;
      assert s / (|samples| as real) >= 0.0;
    }
  }

  /** CalculateRMS: the sum of squares accumulated in a loop. */
  method CalculateRMS(lib: MathLib, samples: array<Float>) returns (rms: Float)
    ensures rms == RMS(lib, samples[..])
  {
    if samples.Length == 0 {
      return Finite(0.0);
    }
    var sum := Finite(0.0);
    var i := 0;
    while i < samples.Length
      invariant 0 <= i <= samples.Length
      invariant sum == SumSquares(samples[..i])
    {
      assert samples[..i + 1][..i] == samples[..i];
      sum := Add(sum, Mul(samples[i], samples[i]));
      i := i + 1;
    }
    assert samples[..i] == samples[..];
    rms := MathSqrt(lib, DivBy(sum, samples.Length as real));
  }

  /** LinearToDBFS: -Inf for a value <= 0, else 20 log10(value); NaN stays NaN. */
  function LinearToDBFS(lib: MathLib, linear: Float): (r: Float)
    ensures LessEq(linear, Finite(0.0)) ==> r == NegInf
    ensures linear.Finite? && linear.v > 0.0 ==> r == Finite(20.0 * lib.Log10(linear.v))
    ensures linear.NaN? ==> r.NaN?
  {
    if LessEq(linear, Finite(0.0)) then NegInf
    else match linear
      case Finite(v) => Finite(20.0 * lib.Log10(v))
      case PosInf => PosInf
      case _ => NaN
  }

  /** DBFSToLinear, math.Pow(10, dbfs/20), is the decibel conversion of the
      compressor; it undoes LinearToDBFS on every positive finite value. */
  lemma DBFSRoundTrip(lib: MathLib, linear: real)
    requires Sound(lib) && linear > 0.0
    ensures var db := LinearToDBFS(lib, Finite(linear));
            db.Finite? && Compressor.DBToAmplitude(lib, db.v) == linear
  {
    assert 20.0 * lib.Log10(linear) / 20.0 == lib.Log10(linear);
  }

  /** The three results of MeasureGainReduction. */
  datatype GainReduction = GainReduction(inputRMS: Float, outputRMS: Float, gainReductionDB: Float)

  /** MeasureGainReduction: panics on a length mismatch; the reduction in dB
      is only computed when both RMS values are above 0 and stays 0 otherwise. */
  function MeasureGainReduction(lib: MathLib, input: seq<Float>, output: seq<Float>)
    : (r: Outcome<GainReduction>)
    ensures r.Ok? <==> |input| == |output|
    ensures r.Ok? ==> r.value.inputRMS == RMS(lib, input) && r.value.outputRMS == RMS(lib, output)
    ensures r.Ok? && !(Less(Finite(0.0), r.value.inputRMS) && Less(Finite(0.0), r.value.outputRMS))
            ==> r.value.gainReductionDB == Finite(0.0)
  {
    if |input| != |output| then Panic("input and output buffers must have same length")
    else
      var inputRMS := RMS(lib, input);
      var outputRMS := RMS(lib, output);
      var reduction :=
        if Less(Finite(0.0), inputRMS) && Less(Finite(0.0), outputRMS)
        then Sub(LinearToDBFS(lib, inputRMS), LinearToDBFS(lib, outputRMS))
        else Finite(0.0);
      Ok(GainReduction(inputRMS, outputRMS, reduction))
  }

  /** For finite positive RMS values the reduction is 20 log10(in / out)
      written as a difference of logarithms, and a buffer measured against
      itself shows no gain reduction. */
  lemma GainReductionOfFinite(lib: MathLib, input: seq<Float>, output: seq<Float>)
    requires Sound(lib) && |input| == |output|
    requires forall i :: 0 <= i < |input| ==> input[i].Finite?
    requires forall i :: 0 <= i < |output| ==> output[i].Finite?
    ensures var r := MeasureGainReduction(lib, input, output).value;
            && r.inputRMS.Finite? && r.outputRMS.Finite? && r.gainReductionDB.Finite?
            && (r.inputRMS.v > 0.0 && r.outputRMS.v > 0.0
                ==> r.gainReductionDB.v == 20.0 * lib.Log10(r.inputRMS.v) - 20.0 * lib.Log10(r.outputRMS.v))
            && (input == output ==> r.gainReductionDB == Finite(0.0))
  {
    RMSOfFinite(lib, input);
    RMSOfFinite(lib, output);
  }
}
