/** The parts of Go's runtime and math package that the compressor relies on.
    A float64 (or float32) is modelled as an exact real or one of IEEE 754's
    special values; rounding, overflow and signed zero are not modelled.
    Transcendental functions are uninterpreted total maps whose only known
    properties are the ones listed in `Sound`. */
module GoRuntime {

  /** A Go panic, or a returned value. */
  datatype Outcome<+T> = Ok(value: T) | Panic(message: string)

  /** An IEEE 754 value with exact (unrounded) finite arithmetic. */
  datatype Float = Finite(v: real) | NaN | PosInf | NegInf

  predicate IsInf(x: Float) { x.PosInf? || x.NegInf? }

  function AbsReal(x: real): (r: real)
    ensures r >= 0.0 && (r == x || r == -x)
  {
    if x < 0.0 then -x else x
  }

  /** math.Abs */
  function Abs(x: Float): (r: Float)
    ensures x.NaN? <==> r.NaN?
    ensures !r.NegInf? && (r.Finite? ==> r.v >= 0.0)
  {
    match x
    case Finite(a) => Finite(AbsReal(a))
    case NaN => NaN
    case PosInf => PosInf
    case NegInf => PosInf
  }

  function Neg(x: Float): Float {
    match x
    case Finite(a) => Finite(-a)
    case NaN => NaN
    case PosInf => NegInf
    case NegInf => PosInf
  }

  /** IEEE addition: NaN is contagious and Inf + (-Inf) is NaN. */
  function Add(x: Float, y: Float): Float {
    if x.NaN? || y.NaN? then NaN
    else if (x.PosInf? && y.NegInf?) || (x.NegInf? && y.PosInf?) then NaN
    else if x.PosInf? || y.PosInf? then PosInf
    else if x.NegInf? || y.NegInf? then NegInf
    else Sum(x.v, y.v)
  }

  /** The exact sum of two finite values. */
  function Sum(a: real, b: real): Float {
    Finite(a + b)
  }

  function Sub(x: Float, y: Float): Float {
    Add(x, Neg(y))
  }

  /** -1, 0 or 1 for a value that is not NaN. */
  function Sign(x: Float): int
    requires !x.NaN?
  {
    match x
    case PosInf => 1
    case NegInf => -1
    case Finite(a) => if a > 0.0 then 1 else if a < 0.0 then -1 else 0
  }

  /** IEEE multiplication: an infinity times zero is NaN. */
  function Mul(x: Float, y: Float): Float {
    if x.NaN? || y.NaN? then NaN
    else if x.Finite? && y.Finite? then Product(x.v, y.v)
    else if Sign(x) == 0 || Sign(y) == 0 then NaN
    else if (Sign(x) > 0) == (Sign(y) > 0) then PosInf
    else NegInf
  }

  /** The exact product of two finite values. */
  function Product(a: real, b: real): Float {
    Finite(a * b)
  }

  /** Division by a positive finite divisor (the only division on Float the model needs). */
  function DivBy(x: Float, d: real): Float
    requires d > 0.0
  {
    match x
    case Finite(a) => Finite(a / d)
    case _ => x
  }

  /** IEEE `<`: false whenever NaN is involved. */
  predicate Less(x: Float, y: Float) {
    match x
    case NaN => false
    case PosInf => false
    case NegInf => y.Finite? || y.PosInf?
    case Finite(a) => y.PosInf? || (y.Finite? && a < y.v)
  }

  /** IEEE `<=`: false whenever NaN is involved. */
  predicate LessEq(x: Float, y: Float) {
    match x
    case NaN => false
    case PosInf => y.PosInf?
    case NegInf => !y.NaN?
    case Finite(a) => y.PosInf? || (y.Finite? && a <= y.v)
  }

  /** `<=` is `<` or equality between values that are not NaN. */
  lemma LessEqIsLessOrEqual(x: Float, y: Float)
    ensures LessEq(x, y) <==> Less(x, y) || (x == y && !x.NaN?)
  {
  }

  lemma LessEqTransitive(x: Float, y: Float, z: Float)
    requires LessEq(x, y) && LessEq(y, z)
    ensures LessEq(x, z)
  {
  }

  function Zero(x: real): real { 0.0 }

  /** Uninterpreted functions of Go's math package and the two fast approximations
      of package dsp whose code is not part of this model. Each is an infinite
      map read through a member function, so that a point outside the map
      reads as 0; `Sound` lists every property the model relies on. */
  datatype MathLib = MathLib(
    exp: imap<real, real>,          // math.Exp
    pow: imap<(real, real), real>,  // math.Pow
    log10: imap<real, real>,        // math.Log10
    sqrt: imap<real, real>,         // math.Sqrt
    fastSqrt: imap<real, real>,     // dsp.FastSqrt
    fastPower2: imap<real, real>)   // dsp.FastPower2
  {
    function Exp(y: real): real { if y in exp then exp[y] else 0.0 }
    function Pow(b: real, e: real): real { if (b, e) in pow then pow[(b, e)] else 0.0 }
    function Log10(x: real): real { if x in log10 then log10[x] else 0.0 }
    function Sqrt(x: real): real { if x in sqrt then sqrt[x] else 0.0 }
    function FastSqrt(x: real): real { if x in fastSqrt then fastSqrt[x] else 0.0 }
    function FastPower2(x: real): real { if x in fastPower2 then fastPower2[x] else 0.0 }
  }

  /** The properties of the uninterpreted functions that the model relies on
      throughout; `PowBelowOne` adds one more where a gain must stay below 1. */
  ghost predicate Sound(m: MathLib) {
    && (forall y :: y < 0.0 ==> 0.0 < m.Exp(y) < 1.0)
    && (forall b, e :: b > 0.0 ==> m.Pow(b, e) > 0.0)
    && (forall b :: m.Pow(b, 0.0) == 1.0)
    && (forall e :: e > 0.0 ==> m.Pow(0.0, e) == 0.0)
    && (forall e :: m.Pow(1.0, e) == 1.0)
    && (forall b, x, y :: b > 1.0 && x < y ==> m.Pow(b, x) < m.Pow(b, y))
    && (forall a, b, e :: 0.0 < a <= b && e >= 0.0 ==> m.Pow(a, e) <= m.Pow(b, e))
    && (forall x :: x > 0.0 ==> m.Pow(10.0, m.Log10(x)) == x)
    && (forall x :: x >= 0.0 ==> m.Sqrt(x) >= 0.0)
    && (forall x :: m.FastSqrt(x) >= 0.0)
  }

  /** A base strictly between 0 and 1 raised to a positive power stays below 1. */
  ghost predicate PowBelowOne(m: MathLib) {
    forall b, e :: 0.0 < b < 1.0 && e > 0.0 ==> m.Pow(b, e) < 1.0
  }

  /** 0 for a zero base and a positive exponent, (1 + b) / 2 for a base in (0, 1)
      and a positive exponent; otherwise 1 for bases up to 1 and, above 1, 1 + e
      for e >= 0 and 1 / (1 - e) below. */
  function WitnessPow(b: real, e: real): real {
    if b == 0.0 && e > 0.0 then 0.0
    else if 0.0 < b < 1.0 && e > 0.0 then (1.0 + b) / 2.0
    else if b <= 1.0 then 1.0
    else if e >= 0.0 then 1.0 + e
    else 1.0 / (1.0 - e)
  }

  function WitnessLog10(x: real): real {
    if x >= 1.0 then x - 1.0 else if x > 0.0 then 1.0 - 1.0 / x else 0.0
  }

  function WitnessExp(y: real): real { if y < 0.0 then 0.5 else 2.0 }

  function WitnessSqrt(x: real): real { if x >= 0.0 then x else 0.0 }

  function One(x: real): real { 1.0 }

  ghost function WitnessLib(): MathLib {
    MathLib(imap y: real | true :: WitnessExp(y),
            imap p: (real, real) | true :: WitnessPow(p.0, p.1),
            imap x: real | true :: WitnessLog10(x),
            imap x: real | true :: WitnessSqrt(x),
            imap x: real | true :: Zero(x),
            imap x: real | true :: One(x))
  }

  lemma ReciprocalAntitone(p: real, q: real)
    requires 0.0 < q < p
    ensures 1.0 / p < 1.0 / q
  {
    var d := 1.0 / q - 1.0 / p;
    assert d * (p * q) == p - q;
    assert p * q > 0.0;
  }

  lemma WitnessPowMonotone(b: real, x: real, y: real)
    requires b > 1.0 && x < y
    ensures WitnessPow(b, x) < WitnessPow(b, y)
  {
    if y < 0.0 {
      ReciprocalAntitone(1.0 - x, 1.0 - y);
    } else if x < 0.0 {
      assert 1.0 / (1.0 - x) < 1.0 by {
        ReciprocalAntitone(1.0 - x, 1.0);
      }
    }
  }

  lemma WitnessLog10Inverse(x: real)
    requires x > 0.0
    ensures WitnessPow(10.0, WitnessLog10(x)) == x
  {
    if x < 1.0 {
      var e := 1.0 - 1.0 / x;
      assert 1.0 / x > 1.0 by {
        ReciprocalAntitone(1.0, x);
      }
      assert 1.0 - e == 1.0 / x;
    }
  }

  /** What the witness library's accessors return. */
  lemma WitnessAt(b: real, e: real)
    ensures WitnessLib().Pow(b, e) == WitnessPow(b, e)
    ensures WitnessLib().Exp(e) == WitnessExp(e) && WitnessLib().Log10(e) == WitnessLog10(e)
    ensures WitnessLib().Sqrt(e) == WitnessSqrt(e) && WitnessLib().FastSqrt(e) == 0.0
  {
  }

  /** The properties in `Sound` and `PowBelowOne` are consistent: some library
      has all of them. */
  lemma SoundWitness()
    ensures Sound(WitnessLib()) && PowBelowOne(WitnessLib())
  {
    var m := WitnessLib();
    forall b, e | 0.0 < b < 1.0 && e > 0.0
      ensures m.Pow(b, e) < 1.0
    {
      WitnessAt(b, e);
    }
    forall y | y < 0.0
      ensures 0.0 < m.Exp(y) < 1.0
    {
      WitnessAt(0.0, y);
    }
    forall b, e | b > 0.0
      ensures m.Pow(b, e) > 0.0
    {
      WitnessAt(b, e);
    }
    forall b
      ensures m.Pow(b, 0.0) == 1.0
    {
      WitnessAt(b, 0.0);
    }
    forall e | e > 0.0
      ensures m.Pow(0.0, e) == 0.0
    {
      WitnessAt(0.0, e);
    }
    forall e
      ensures m.Pow(1.0, e) == 1.0
    {
      WitnessAt(1.0, e);
    }
    forall b, x, y | b > 1.0 && x < y
      ensures m.Pow(b, x) < m.Pow(b, y)
    {
      WitnessAt(b, x);
      WitnessAt(b, y);
      WitnessPowMonotone(b, x, y);
    }
    forall a, b, e | 0.0 < a <= b && e >= 0.0
      ensures m.Pow(a, e) <= m.Pow(b, e)
    {
      WitnessAt(a, e);
      WitnessAt(b, e);
    }
    forall x | x > 0.0
      ensures m.Pow(10.0, m.Log10(x)) == x
    {
      WitnessAt(0.0, x);
      WitnessAt(10.0, WitnessLog10(x));
      WitnessLog10Inverse(x);
    }
    forall x | x >= 0.0
      ensures m.Sqrt(x) >= 0.0
    {
      WitnessAt(0.0, x);
    }
    forall x
      ensures m.FastSqrt(x) >= 0.0
    {
      WitnessAt(0.0, x);
    }
  }
}
