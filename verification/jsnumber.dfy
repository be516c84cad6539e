/**
 * The few properties of JavaScript numbers that the percentages and ratios
 * of the dashboard depend on: dividing by zero yields an infinity or NaN,
 * every comparison with NaN is false, and Math.min propagates NaN.
 * Finite values are exact reals; IEEE rounding is not modelled.
 */
module JsNumber {

  datatype Num = Finite(v: real) | PosInf | NegInf | NaN

  /** a / b for two finite numbers. */
  function Div(a: real, b: real): (r: Num)
    ensures b != 0.0 ==> r == Finite(a / b)
    ensures b == 0.0 ==> (r == PosInf <==> a > 0.0) && (r == NegInf <==> a < 0.0) && (r == NaN <==> a == 0.0)
  {
    if b != 0.0 then Finite(a / b)
    else if a > 0.0 then PosInf
    else if a < 0.0 then NegInf
    else NaN
  }

  /** x * c for a finite, positive constant c. */
  function Scale(x: Num, c: real): (r: Num)
    requires c > 0.0
    ensures r.Finite? <==> x.Finite?
    ensures r.NaN? <==> x.NaN?
  {
    match x
    case Finite(v) => Finite(v * c)
    case _ => x
  }

  /** (part / whole) * 100, with no guard against a zero whole. */
  function Percent(part: int, whole: int): Num
  {
    Scale(Div(part as real, whole as real), 100.0)
  }

  /** x > c */
  predicate Gt(x: Num, c: real)
  {
    match x
    case Finite(v) => v > c
    case PosInf => true
    case NegInf => false
    case NaN => false
  }

  /** x >= c */
  predicate Ge(x: Num, c: real)
  {
    match x
    case Finite(v) => v >= c
    case PosInf => true
    case NegInf => false
    case NaN => false
  }

  /** x <= c */
  predicate Le(x: Num, c: real)
  {
    match x
    case Finite(v) => v <= c
    case PosInf => false
    case NegInf => true
    case NaN => false
  }

  /** Math.min(x, c) for a finite constant c. */
  function Min(x: Num, c: real): (r: Num)
    ensures x.NaN? ==> r.NaN?
    ensures !x.NaN? ==> Le(r, c)
    ensures Le(x, c) ==> r == x
  {
    match x
    case Finite(v) => if v <= c then x else Finite(c)
    case PosInf => Finite(c)
    case NegInf => NegInf
    case NaN => NaN
  }

  /** NaN is neither above nor below any constant. */
  lemma NaNIncomparable(c: real)
    ensures !Gt(NaN, c) && !Ge(NaN, c) && !Le(NaN, c)
  {
  }

  /**
   * With a positive whole, comparing the percentage with a threshold is the
   * same as comparing the cross products of integers.
   */
  lemma {:induction false} PercentCompare(part: int, whole: int, c: real)
    requires whole > 0
    ensures Percent(part, whole) == Finite(part as real * 100.0 / whole as real)
    ensures Gt(Percent(part, whole), c) <==> part as real * 100.0 > c * whole as real
    ensures Ge(Percent(part, whole), c) <==> part as real * 100.0 >= c * whole as real
  {
    var w := whole as real;
    var p := part as real;
    assert p / w * 100.0 == p * 100.0 / w;
    var q := p * 100.0 / w;
    assert q * w == p * 100.0;
    if q > c {
      assert q * w > c * w;
    } else {
      assert q * w <= c * w;
    }
    if q >= c {
      assert q * w >= c * w;
    } else {
      assert q * w < c * w;
    }
  }

  /** With a positive divisor, comparing a quotient with a threshold is comparing a with c * b. */
  lemma {:induction false} DivCompare(a: real, b: real, c: real)
    requires b > 0.0
    ensures Gt(Div(a, b), c) <==> a > c * b
  {
    var q := a / b;
    assert q * b == a;
    if q > c {
      assert q * b > c * b;
    } else {
      assert q * b <= c * b;
    }
  }

  /** A zero whole gives Infinity for a positive part and NaN for a zero part. */
  lemma PercentOfZero(part: int)
    ensures part > 0 ==> Percent(part, 0) == PosInf
    ensures part == 0 ==> Percent(part, 0) == NaN
    ensures part < 0 ==> Percent(part, 0) == NegInf
  {
  }
}
