/** dsp/approximations.go: FastLog2, a frexp decomposition followed by a
    quartic polynomial in the mantissa evaluated by Horner's rule. */
module Approximations {
  import opened GoRuntime

  /** The polynomial coefficients cl2Continuous5, highest power first. */
  const Cl2Continuous5: seq<real> := [
    -0.0821343513178931783,
    0.649732456739820052,
    -2.13417801862571777,
    4.08642207062728868,
    -1.51984215742349793
  ]

  /** 2 raised to an integer power. */
  function Pow2(e: int): (r: real)
    ensures r > 0.0
    decreases if e >= 0 then e else -e
  {
    if e == 0 then 1.0
    else if e > 0 then 2.0 * Pow2(e - 1)
    else Pow2(e + 1) / 2.0
  }

  lemma Pow2Succ(e: int)
    ensures Pow2(e + 1) == 2.0 * Pow2(e)
  {
  }

  /** math.Ldexp: f * 2^e, written as repeated doubling or halving so that it
      stays linear in f. */
  function Ldexp(f: real, e: int): real
    decreases if e >= 0 then e else -e
  {
    if e == 0 then f
    else if e > 0 then 2.0 * Ldexp(f, e - 1)
    else Ldexp(f, e + 1) / 2.0
  }

  lemma LdexpSucc(f: real, e: int)
    ensures Ldexp(f, e + 1) == 2.0 * Ldexp(f, e)
  {
  }

  /** Ldexp is the product with the power of two. */
  lemma {:induction false} LdexpIsProduct(f: real, e: int)
    ensures Ldexp(f, e) == f * Pow2(e)
    decreases if e >= 0 then e else -e
  {
    if e > 0 {
      LdexpIsProduct(f, e - 1);
      var p := Pow2(e - 1);
      assert f * (2.0 * p) == 2.0 * (f * p);
    } else if e < 0 {
      LdexpIsProduct(f, e + 1);
      var p := Pow2(e + 1);
      assert f * (p / 2.0) == (f * p) / 2.0;
    }
  }

  lemma {:induction false} LdexpMonotone(f: real, g: real, e: int)
    requires f < g
    ensures Ldexp(f, e) < Ldexp(g, e)
    decreases if e >= 0 then e else -e
  {
    if e > 0 { LdexpMonotone(f, g, e - 1); }
    else if e < 0 { LdexpMonotone(f, g, e + 1); }
  }

  lemma {:induction false} LdexpPositive(f: real, e: int)
    requires f > 0.0
    ensures Ldexp(f, e) > 0.0
    decreases if e >= 0 then e else -e
  {
    if e > 0 { LdexpPositive(f, e - 1); }
    else if e < 0 { LdexpPositive(f, e + 1); }
  }

  /** Doubling the mantissa is the same as raising the exponent by one. */
  lemma {:induction false} LdexpShift(f: real, e: int)
    ensures Ldexp(2.0 * f, e) == Ldexp(f, e + 1)
    decreases if e >= 0 then e else -e
  {
    if e > 0 { LdexpShift(f, e - 1); }
    else if e < 0 { LdexpShift(f, e + 1); }
  }

  /** For a positive mantissa a larger exponent gives a larger value. */
  lemma {:induction false} LdexpGrowing(f: real, e: int, d: int)
    requires f > 0.0 && e < d
    ensures Ldexp(f, e) < Ldexp(f, d)
    decreases d - e
  {
    LdexpSucc(f, d - 1);
    LdexpPositive(f, d - 1);
    if e < d - 1 { LdexpGrowing(f, e, d - 1); }
  }

  /** A value with mantissa in [0.5, 1) and exponent e lies below every value
      with mantissa in [0.5, 1) and a larger exponent d. */
  lemma SmallerExponent(f: real, e: int, g: real, d: int)
    requires 0.5 <= f < 1.0 && 0.5 <= g < 1.0 && e < d
    ensures Ldexp(f, e) < Ldexp(g, d)
  {
    LdexpMonotone(f, 1.0, e);
    LdexpShift(0.5, e);
    if e + 1 < d { LdexpGrowing(0.5, e + 1, d); }
    if 0.5 < g { LdexpMonotone(0.5, g, d); }
  }

  /** The decomposition x = frac * 2^exp with 0.5 <= frac < 1 is unique. */
  lemma FrexpUnique(f: real, e: int, g: real, d: int)
    requires 0.5 <= f < 1.0 && 0.5 <= g < 1.0
    requires Ldexp(f, e) == Ldexp(g, d)
    ensures f == g && e == d
  {
    if e < d { SmallerExponent(f, e, g, d); }
    else if d < e { SmallerExponent(g, d, f, e); }
    else if f < g { LdexpMonotone(f, g, e); }
    else if g < f { LdexpMonotone(g, f, e); }
  }

  lemma HalfFloor(x: real)
    requires x >= 1.0
    ensures (x / 2.0).Floor < x.Floor
  {
    var n := x.Floor;
    assert n >= 1;
    assert x < n as real + 1.0;
    assert x / 2.0 < n as real;
  }

  /** math.Frexp on a positive finite argument: halve while the mantissa is
      at least 1, double while it is below 0.5. */
  function Frexp(x: real): (r: (real, int))
    requires x > 0.0
    ensures 0.5 <= r.0 < 1.0 && x == Ldexp(r.0, r.1)
    decreases if x >= 1.0 then x.Floor + 2 else if x < 0.5 then (1.0 / x).Floor else 0
  {
    if x >= 1.0 then
      HalfFloor(x);
      var (f, e) := Frexp(x / 2.0);
      LdexpSucc(f, e);
      (f, e + 1)
    else if x < 0.5 then
      assert 1.0 / x > 2.0;
      HalfFloor(1.0 / x);
      assert 1.0 / (2.0 * x) == (1.0 / x) / 2.0;
      var (f, e) := Frexp(2.0 * x);
      LdexpSucc(f, e - 1);
      (f, e - 1)
    else (x, 0)
  }

  /** Frexp returns the one decomposition with a mantissa in [0.5, 1):
      frexp(ldexp(f, e)) = (f, e). */
  lemma FrexpOfLdexp(f: real, e: int)
    requires 0.5 <= f < 1.0
    ensures Ldexp(f, e) > 0.0 && Frexp(Ldexp(f, e)) == (f, e)
  {
    LdexpPositive(f, e);
    var r := Frexp(Ldexp(f, e));
    FrexpUnique(r.0, r.1, f, e);
  }

  /** math.Frexp on every float64: the special values come back unchanged with
      exponent 0, and a negative x gives a negative mantissa. */
  function FrexpFloat(x: Float): (r: (Float, int))
    ensures !x.Finite? || x.v == 0.0 ==> r == (x, 0)
    ensures x.Finite? && x.v != 0.0
            ==> && r.0.Finite? && 0.5 <= AbsReal(r.0.v) < 1.0
                && (r.0.v < 0.0 <==> x.v < 0.0) && x.v == Ldexp(r.0.v, r.1)
  {
    match x
    case Finite(a) =>
      if a > 0.0 then (Finite(Frexp(a).0), Frexp(a).1)
      else if a < 0.0 then
        LdexpNegate(Frexp(-a).0, Frexp(-a).1);
        (Finite(-Frexp(-a).0), Frexp(-a).1)
      else (x, 0)
    case _ => (x, 0)
  }

  /** Ldexp commutes with negating the mantissa. */
  lemma LdexpNegate(f: real, e: int)
    ensures Ldexp(-f, e) == -Ldexp(f, e)
  {
    LdexpIsProduct(f, e);
    LdexpIsProduct(-f, e);
  }

  /** The mantissa polynomial in expanded form. */
  function MantissaPoly(f: real): real {
    var c := Cl2Continuous5;
    c[0] * f * f * f * f + c[1] * f * f * f + c[2] * f * f + c[3] * f + c[4]
  }

  /** Horner's rule in IEEE arithmetic: for each coefficient c in turn,
      acc := acc * frac + c. */
  function Horner(cs: seq<real>, frac: Float, acc: Float): (r: Float)
    ensures frac.Finite? && acc.Finite? ==> r.Finite?
    ensures frac.NaN? && |cs| > 0 ==> r.NaN?
    decreases |cs|
  {
    if |cs| == 0 then acc
    else Horner(cs[1..], frac, Add(Mul(acc, frac), Finite(cs[0])))
  }

  /** FastLog2: -Inf for x <= 0, otherwise (exp - 1) + poly(frac), with the
      polynomial evaluated by four Horner steps in IEEE arithmetic (the
      first step multiplies the leading coefficient by frac). */
  function FastLog2(x: Float): (r: Float)
    ensures LessEq(x, Finite(0.0)) ==> r == NegInf
    ensures x.NaN? ==> r.NaN?
    ensures x.Finite? && x.v > 0.0 ==> r.Finite?
  {
    if LessEq(x, Finite(0.0)) then NegInf
    else
      var (frac, exp) := FrexpFloat(x);
      var c := Cl2Continuous5;
      Add(Finite((exp - 1) as real), Horner(c[1..], frac, Finite(c[0])))
  }

  /** One Horner step on finite values. */
  lemma HornerStep(cs: seq<real>, f: real, a: real)
    requires |cs| > 0
    ensures Horner(cs, Finite(f), Finite(a)) == Horner(cs[1..], Finite(f), Finite(a * f + cs[0]))
  {
    assert Add(Mul(Finite(a), Finite(f)), Finite(cs[0])) == Finite(a * f + cs[0]);
  }

  /** The four Horner steps on a finite mantissa f compute the expanded quartic. */
  lemma HornerOnMantissa(f: real)
    ensures Horner(Cl2Continuous5[1..], Finite(f), Finite(Cl2Continuous5[0]))
         == Finite(MantissaPoly(f))
  {
    var c := Cl2Continuous5;
    var m1 := c[0] * f + c[1];
    var m2 := m1 * f + c[2];
    var m3 := m2 * f + c[3];
    var m4 := m3 * f + c[4];
    HornerStep(c[1..], f, c[0]);
    assert c[1..][1..] == c[2..];
    HornerStep(c[2..], f, m1);
    assert c[2..][1..] == c[3..];
    HornerStep(c[3..], f, m2);
    assert c[3..][1..] == c[4..];
    HornerStep(c[4..], f, m3);
    assert c[4..][1..] == [];
    assert m3 * f == c[0] * f * f * f * f + c[1] * f * f * f + c[2] * f * f + c[3] * f;
  }

  /** For positive x the four Horner assignments compute the expanded quartic
      of the frexp mantissa, and the result is (exp - 1) plus that value. */
  lemma FastLog2Positive(x: real)
    requires x > 0.0
    ensures FastLog2(Finite(x))
         == Finite((Frexp(x).1 - 1) as real + MantissaPoly(Frexp(x).0))
  {
    HornerOnMantissa(Frexp(x).0);
  }

  /** Doubling x leaves the mantissa alone and raises the exponent by one, so
      FastLog2(2x) = FastLog2(x) + 1 exactly. */
  lemma FastLog2Doubling(x: real)
    requires x > 0.0
    ensures FastLog2(Finite(2.0 * x)) == Add(FastLog2(Finite(x)), Finite(1.0))
  {
    FrexpDoubling(x);
    FastLog2Positive(x);
    FastLog2Positive(2.0 * x);
  }

  /** Doubling a positive argument keeps the mantissa and raises the exponent
      by one; each case is one step of the recursion. */
  lemma FrexpDoubling(x: real)
    requires x > 0.0
    ensures Frexp(2.0 * x).0 == Frexp(x).0
    ensures Frexp(2.0 * x).1 == Frexp(x).1 + 1
  {
    if x >= 0.5 {
      assert (2.0 * x) / 2.0 == x;
    }
  }

  /** Frexp(+Inf) = (+Inf, 0) and the negative leading coefficient drives the
      Horner evaluation to -Inf: FastLog2(+Inf) is -Inf. */
  lemma FastLog2OfInfinity()
    ensures FastLog2(PosInf) == NegInf
  {
    var c := Cl2Continuous5;
    assert FrexpFloat(PosInf) == (PosInf, 0);
    assert Horner(c[1..], PosInf, Finite(c[0])) == Horner(c[2..], PosInf, NegInf) by {
      assert c[1..][1..] == c[2..];
    }
    HornerAtInfinity(c[2..]);
  }

  /** Once the accumulator is -Inf, Horner steps against +Inf keep it there. */
  lemma {:induction false} HornerAtInfinity(cs: seq<real>)
    ensures Horner(cs, PosInf, NegInf) == NegInf
    decreases |cs|
  {
    if |cs| > 0 {
      HornerAtInfinity(cs[1..]);
    }
  }
}
