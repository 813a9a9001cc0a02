/**
 * JavaScript numbers as the wallet arithmetic sees them. A finite number is an
 * exact real (rounding of IEEE-754 doubles is not modelled); the special values
 * that division by zero and `parseInt` produce are kept, because the wallet does
 * not guard against them.
 */
module JsNumber {

  datatype Num = Finite(value: real) | Infinity(negative: bool) | NaN

  function FromInt(i: int): Num {
    Finite(i as real)
  }

  /** A finite number with no fractional part. */
  predicate IsInteger(n: Num) {
    n.Finite? && n.value == n.value.Floor as real
  }

  function Negate(a: Num): Num {
    match a
    case Finite(x) => Finite(-x)
    case Infinity(neg) => Infinity(!neg)
    case NaN => NaN
  }

  /** `a + b` */
  function Add(a: Num, b: Num): (r: Num)
    ensures a.Finite? && b.Finite? ==> r == Finite(a.value + b.value)
    ensures r.NaN? <==> a.NaN? || b.NaN? || (a.Infinity? && b.Infinity? && a.negative != b.negative)
  {
    match (a, b)
    case (NaN, _) => NaN
    case (_, NaN) => NaN
    case (Infinity(s), Infinity(t)) => if s == t then a else NaN
    case (Infinity(_), Finite(_)) => a
    case (Finite(_), Infinity(_)) => b
    case (Finite(x), Finite(y)) => Finite(x + y)
  }

  /** `a - b` */
  function Sub(a: Num, b: Num): Num {
    Add(a, Negate(b))
  }

  /** `a * b` */
  function Mul(a: Num, b: Num): (r: Num)
    ensures a.Finite? && b.Finite? ==> r == Finite(a.value * b.value)
    ensures a.NaN? || b.NaN? ==> r.NaN?
  {
    if a.NaN? || b.NaN? then NaN
    else if a.Finite? && b.Finite? then Finite(a.value * b.value)
    else if a.Infinity? && b.Infinity? then Infinity(a.negative != b.negative)
    else if a.Infinity? then (if b.value == 0.0 then NaN else Infinity(a.negative != (b.value < 0.0)))
    else if a.value == 0.0 then NaN else Infinity(b.negative != (a.value < 0.0))
  }

  /** `a / b`; a finite number over zero is an infinity, and zero over zero is NaN. */
  function Div(a: Num, b: Num): (r: Num)
    ensures a.Finite? && b.Finite? && b.value != 0.0 ==> r == Finite(a.value / b.value)
    ensures a.Finite? && b == Finite(0.0) ==> !r.Finite?
    ensures a.NaN? || b.NaN? ==> r.NaN?
  {
    match (a, b)
    case (NaN, _) => NaN
    case (_, NaN) => NaN
    case (Infinity(_), Infinity(_)) => NaN
    case (Infinity(s), Finite(y)) => Infinity(s != (y < 0.0))
    case (Finite(_), Infinity(_)) => Finite(0.0)
    case (Finite(x), Finite(y)) =>
      if y != 0.0 then Finite(x / y)
      else if x == 0.0 then NaN
      else Infinity(x < 0.0)
  }

  /** `a < b`; every comparison with NaN is false. */
  predicate Less(a: Num, b: Num) {
    match (a, b)
    case (NaN, _) => false
    case (_, NaN) => false
    case (Finite(x), Finite(y)) => x < y
    case (Infinity(s), Infinity(t)) => s && !t
    case (Infinity(s), Finite(_)) => s
    case (Finite(_), Infinity(t)) => !t
  }

  /** Rounding toward zero. */
  function Truncate(x: real): (r: int)
    ensures 0.0 <= x ==> 0 <= r && r as real <= x < r as real + 1.0
    ensures x < 0.0 ==> r <= 0 && r as real - 1.0 < x <= r as real
  {
    if x >= 0.0 then x.Floor else -((-x).Floor)
  }

  /**
   * `parseInt(a, 10)` on a number: the integer part of a finite number;
   * NaN for NaN and for the infinities (the string "Infinity" has no digits).
   */
  function ParseInt(a: Num): (r: Num)
    ensures a.Finite? ==> IsInteger(r)
    ensures a.Finite? && 0.0 <= a.value ==> 0.0 <= r.value <= a.value < r.value + 1.0
    ensures a.Finite? && a.value < 0.0 ==> r.value - 1.0 < a.value <= r.value <= 0.0
    ensures !a.Finite? ==> r.NaN?
  {
    match a
    case Finite(x) => Finite(Truncate(x) as real)
    case _ => NaN
  }

  /** `parseInt` leaves a whole number as it is. */
  lemma ParseIntWhole(n: int)
    ensures ParseInt(FromInt(n)) == FromInt(n)
  {
    assert Truncate(n as real) == n;
  }

  /** A non-negative real rounded to two decimals, ties going up. */
  function RoundHundredths(y: real): (r: real)
    requires 0.0 <= y
    ensures 0.0 <= r
    ensures -1.0 / 200.0 < r - y <= 1.0 / 200.0
    ensures r * 100.0 == (r * 100.0).Floor as real
  {
    (y * 100.0 + 0.5).Floor as real / 100.0
  }

  lemma WholeNegated(k: real)
    requires k == k.Floor as real
    ensures -k == (-k).Floor as real
  {
    var n := k.Floor;
    assert -k == (-n) as real;
    assert ((-n) as real).Floor == -n;
  }

  /**
   * `parseFloat(parseFloat(a).toFixed(2))`: a finite number rounded to two
   * decimals, half away from zero (the sign is set aside before rounding);
   * NaN and the infinities are printed and read back unchanged.
   */
  function ToFixed2(a: Num): (r: Num)
    ensures a.Finite? ==> r.Finite? && -1.0 / 200.0 <= r.value - a.value <= 1.0 / 200.0
    ensures a.Finite? ==> r.value * 100.0 == (r.value * 100.0).Floor as real
    ensures !a.Finite? ==> r == a
  {
    match a
    case Finite(x) =>
      if x < 0.0 then
        var m := RoundHundredths(-x);
        WholeNegated(m * 100.0);
        Finite(-m)
      else Finite(RoundHundredths(x))
    case _ => a
  }

  /**
   * A value exactly half-way between two hundredths is rounded away from
   * zero: the result is never a full half hundredth below a non-negative
   * value, nor a full half hundredth above a negative one.
   */
  lemma ToFixed2TiesAway(a: real)
    ensures 0.0 <= a ==> -1.0 / 200.0 < ToFixed2(Finite(a)).value - a
    ensures a < 0.0 ==> ToFixed2(Finite(a)).value - a < 1.0 / 200.0
  {
    if a < 0.0 {
      var m := RoundHundredths(-a);
      assert ToFixed2(Finite(a)) == Finite(-m);
    } else {
      assert ToFixed2(Finite(a)) == Finite(RoundHundredths(a));
    }
  }
}
