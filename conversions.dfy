/** dsp/conversions.go: decibel conversions and the power helpers. */
module Conversions {
  import opened GoRuntime
  import opened Approximations

  /** log2(10) / 20, the factor that turns decibels into octaves. */
  const Log2Of10Div20: real := 0.166096404744

  /** The level LinearToDB reports for silence. */
  const SilenceThresholdDB: real := -144.0

  /** 20 / log2(10), the decibels in one octave as written in LinearToDB. */
  const DBPerOctave: real := 6.020599913

  /** DBToLinear: 2^(db * log2(10)/20) through math.Pow, not FastLog2. */
  function DBToLinear(lib: MathLib, db: real): (r: real)
    requires Sound(lib)
    ensures r > 0.0
    ensures db == 0.0 ==> r == 1.0
  {
    lib.Pow(2.0, db * Log2Of10Div20)
  }

  /** More decibels give a strictly larger amplitude. */
  lemma DBToLinearIncreasing(lib: MathLib, a: real, b: real)
    requires Sound(lib) && a < b
    ensures DBToLinear(lib, a) < DBToLinear(lib, b)
  {
    assert a * Log2Of10Div20 < b * Log2Of10Div20;
  }

  /** LinearToDB: the silence level for linear <= 0, else FastLog2 scaled to
      decibels. NaN is not <= 0, so it reaches FastLog2 and comes back NaN. */
  function LinearToDB(linear: Float): (r: Float)
    ensures LessEq(linear, Finite(0.0)) ==> r == Finite(SilenceThresholdDB)
    ensures linear.NaN? ==> r.NaN?
    ensures linear.Finite? ==> r.Finite?
  {
    if LessEq(linear, Finite(0.0)) then Finite(SilenceThresholdDB)
    else Mul(FastLog2(linear), Finite(DBPerOctave))
  }

  /** For a positive finite level the result is FastLog2 times 6.020599913. */
  lemma LinearToDBPositive(x: real)
    requires x > 0.0
    ensures LinearToDB(Finite(x)).Finite?
    ensures LinearToDB(Finite(x)).v == FastLog2(Finite(x)).v * DBPerOctave
  {
  }

  /** +Inf goes through FastLog2 to -Inf decibels. */
  lemma LinearToDBOfInfinity()
    ensures LinearToDB(PosInf) == NegInf
  {
    FastLog2OfInfinity();
  }

  /** Doubling a positive level adds exactly 6.020599913 dB. */
  lemma LinearToDBDoubling(x: real)
    requires x > 0.0
    ensures LinearToDB(Finite(2.0 * x)).Finite? && LinearToDB(Finite(x)).Finite?
    ensures LinearToDB(Finite(2.0 * x)).v == LinearToDB(Finite(x)).v + DBPerOctave
  {
    FastLog2Doubling(x);
    var l := FastLog2(Finite(x)).v;
    assert FastLog2(Finite(2.0 * x)) == Finite(l + 1.0);
    assert (l + 1.0) * DBPerOctave == l * DBPerOctave + DBPerOctave;
  }

  /** LinearToDBSafe: NaN and both infinities give the silence level, every
      other value is LinearToDB's, so the result is always finite. */
  function LinearToDBSafe(linear: Float): (r: Float)
    ensures r.Finite?
    ensures !linear.Finite? ==> r == Finite(SilenceThresholdDB)
    ensures linear.Finite? ==> r == LinearToDB(linear)
  {
    if linear.NaN? || IsInf(linear) then Finite(SilenceThresholdDB)
    else LinearToDB(linear)
  }

  /** Go's float64-to-int conversion, which truncates toward zero. */
  function GoInt(x: real): (r: int)
    ensures AbsReal(r as real) <= AbsReal(x) < AbsReal(r as real) + 1.0
    ensures (x >= 0.0 ==> r >= 0) && (x <= 0.0 ==> r <= 0)
  {
    if x >= 0.0 then x.Floor else -((-x).Floor)
  }

  lemma GoIntOfInteger(n: int)
    ensures GoInt(n as real) == n
  {
  }

  /** 2^n on natural numbers. */
  function Pow2Nat(n: nat): (r: nat)
    ensures r >= 1
  {
    if n == 0 then 1 else 2 * Pow2Nat(n - 1)
  }

  lemma {:induction false} Pow2NatIsPow2(n: nat)
    ensures Pow2Nat(n) as real == Pow2(n)
  {
    if n > 0 {
      Pow2NatIsPow2(n - 1);
      Pow2Succ(n - 1);
    }
  }

  /** 2^64, one more than the largest uint64. */
  const TwoTo64: nat := Pow2Nat(64)

  /** uint64(1) << s: bits shifted past bit 63 are lost. */
  function ShiftLeftOne(s: nat): (r: nat)
    ensures r < TwoTo64
  {
    Pow2Nat(s) % TwoTo64
  }

  lemma {:induction false} Pow2NatIncreasing(a: nat, b: nat)
    requires a < b
    ensures Pow2Nat(a) < Pow2Nat(b)
    decreases b - a
  {
    if a < b - 1 {
      Pow2NatIncreasing(a, b - 1);
    }
  }

  /** Below 64 the shift loses no bits. */
  lemma ShiftLeftOneExact(s: nat)
    requires s < 64
    ensures ShiftLeftOne(s) == Pow2Nat(s)
  {
    Pow2NatIncreasing(s, 64);
    ModOfSmaller(Pow2Nat(s), TwoTo64);
  }

  lemma ModOfSmaller(x: nat, m: nat)
    requires x < m
    ensures x % m == x
  {
  }

  /** FastPow2: 1 << x for an integer x in [0, 64), math.Pow(2, x) otherwise. */
  function FastPow2(lib: MathLib, x: real): (r: real)
    requires Sound(lib)
    ensures r > 0.0
  {
    if x == GoInt(x) as real && x >= 0.0 && x < 64.0 then
      ShiftLeftOneExact(GoInt(x));
      ShiftLeftOne(GoInt(x)) as real
    else lib.Pow(2.0, x)
  }

  /** FastPow: math.Pow for a non-positive base, else 2^(exponent * FastLog2(base)). */
  function FastPow(lib: MathLib, base: real, exponent: real): (r: real)
    requires Sound(lib)
    ensures base > 0.0 ==> r > 0.0
  {
    if base <= 0.0 then lib.Pow(base, exponent)
    else lib.Pow(2.0, exponent * FastLog2(Finite(base)).v)
  }

  /** Exponent 0 gives exactly 1 for a positive base. */
  lemma FastPowPositive(lib: MathLib, base: real, exponent: real)
    requires Sound(lib) && base > 0.0
    ensures exponent == 0.0 ==> FastPow(lib, base, exponent) == 1.0
  {
    var l := FastLog2(Finite(base)).v;
    assert exponent == 0.0 ==> exponent * l == 0.0;
  }

  /** Doubling a positive base adds the exponent to the power of two, because
      FastLog2 of the doubled base is exactly one more. */
  lemma FastPowDoubling(lib: MathLib, base: real, exponent: real)
    requires Sound(lib) && base > 0.0
    ensures FastPow(lib, 2.0 * base, exponent)
            == lib.Pow(2.0, exponent * FastLog2(Finite(base)).v + exponent)
  {
    FastLog2Doubling(base);
    var l := FastLog2(Finite(base)).v;
    assert FastLog2(Finite(2.0 * base)).v == l + 1.0;
    assert exponent * (l + 1.0) == exponent * l + exponent;
  }

  /** On an integer 0 <= n < 64 FastPow2 is exactly 2^n. */
  lemma FastPow2OfInteger(lib: MathLib, n: int)
    requires Sound(lib) && 0 <= n < 64
    ensures FastPow2(lib, n as real) == Pow2(n)
  {
    GoIntOfInteger(n);
    ShiftLeftOneExact(n);
    Pow2NatIsPow2(n);
  }

  /** On the fast path each step up doubles the result. */
  lemma FastPow2Doubling(lib: MathLib, n: int)
    requires Sound(lib) && 0 <= n < 63
    ensures FastPow2(lib, (n + 1) as real) == 2.0 * FastPow2(lib, n as real)
  {
    FastPow2OfInteger(lib, n);
    FastPow2OfInteger(lib, n + 1);
    Pow2Succ(n);
  }

  /** 64 and every non-integer go to the general power. */
  lemma FastPow2OffFastPath(lib: MathLib, x: real)
    requires Sound(lib)
    requires x != x.Floor as real || x < 0.0 || x >= 64.0
    ensures FastPow2(lib, x) == lib.Pow(2.0, x)
  {
  }
}
