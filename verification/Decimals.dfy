/** Exact decimal arithmetic on coefficient and exponent, with resource limits. */
module Decimals {

  /** A finite decimal: coefficient * 10^exponent. */
  datatype Decimal = Decimal(coefficient: int, exponent: int)

  /** A result, or the rejection of inputs beyond the resource limits or outside their range. */
  datatype Checked<+T> = Ok(value: T) | Rejected
  {
    predicate IsFailure() {
      Rejected?
    }

    function PropagateFailure<U>(): Checked<U>
      requires Rejected?
    {
      Rejected
    }

    function Extract(): T
      requires Ok?
    {
      value
    }
  }

  const MAX_DIGITS: nat := 1000
  const MAX_EXPONENT: nat := 1000
  const MAX_SCALE_DIFFERENCE: nat := 1000

  const ZERO := Decimal(0, 0)

  // Arithmetic of products

  function Times(x: real, y: real): real {
    x * y
  }

  function Over(x: real, y: real): real
    requires y > 0.0
  {
    x / y
  }

  lemma OverTimes(x: real, y: real)
    requires y > 0.0
    ensures Times(Over(x, y), y) == x
  {
  }

  lemma QuotientIs(x: real, y: real, q: real)
    requires y > 0.0 && Times(q, y) == x
    ensures Over(x, y) == q
  {
  }

  lemma Units(x: real)
    ensures Times(0.0, x) == 0.0 && Times(1.0, x) == x && Times(x, 1.0) == x
  {
  }

  lemma Associate(x: real, y: real, z: real)
    ensures Times(x, Times(y, z)) == Times(Times(x, y), z)
  {
  }

  lemma Commute(x: real, y: real)
    ensures Times(x, y) == Times(y, x)
  {
  }

  lemma Distribute(x: real, y: real, z: real)
    ensures Times(x + y, z) == Times(x, z) + Times(y, z)
    ensures Times(x - y, z) == Times(x, z) - Times(y, z)
  {
  }

  lemma Signs(x: real, d: real)
    requires d > 0.0
    ensures x > 0.0 <==> Times(x, d) > 0.0
    ensures x < 0.0 <==> Times(x, d) < 0.0
  {
  }

  lemma Scaling(x: real, y: real, d: real)
    requires d > 0.0
    ensures x < y <==> Times(x, d) < Times(y, d)
    ensures x <= y <==> Times(x, d) <= Times(y, d)
  {
    hide Times;
    Distribute(y, x, d);
    Signs(y - x, d);
  }

  lemma WholeTimes(f: int, d: int)
    ensures Times(f as real, d as real) == (f * d) as real
  {
  }

  lemma Exchange(x: real, y: real, p: real, q: real)
    ensures Times(Times(x, y), Times(p, q)) == Times(Times(x, p), Times(y, q))
  {
    hide Times;
    Associate(Times(x, y), p, q);
    Associate(x, y, p);
    Commute(y, p);
    Associate(x, p, y);
    Associate(Times(x, p), y, q);
  }

  /** Between two neighbouring multiples. */
  lemma ProductBounds(y: real, q: real, k: real)
    requires q > 0.0
    ensures k <= y < k + 1.0 <==> Times(k, q) <= Times(y, q) < Times(k, q) + q
  {
    hide Times;
    Scaling(k, y, q);
    Scaling(y, k + 1.0, q);
    Distribute(k, 1.0, q);
    Units(q);
  }

  // Powers of ten

  function Ten(n: nat): (p: nat)
    ensures p > 0
  {
    if n == 0 then 1 else 10 * Ten(n - 1)
  }

  function Power(e: int): (p: real)
    ensures p > 0.0
    decreases if e < 0 then -e else e
  {
    if e == 0 then 1.0 else if e > 0 then 10.0 * Power(e - 1) else Power(e + 1) / 10.0
  }

  lemma PowerStep(e: int)
    ensures Power(e + 1) == 10.0 * Power(e)
  {
  }

  lemma {:induction false} PowerShift(e: int, n: nat)
    ensures Power(e + n) == Times(Ten(n) as real, Power(e))
  {
    hide Power, Times;
    Units(Power(e));
    if n > 0 {
      PowerShift(e, n - 1);
      PowerStep(e + n - 1);
      Associate(10.0, Ten(n - 1) as real, Power(e));
      TenTimes(Ten(n - 1) as real);
      TenTimes(Power(e + n - 1));
    }
  }

  lemma TenTimes(x: real)
    ensures Times(10.0, x) == 10.0 * x
  {
  }

  lemma {:induction false} PowerSum(a: int, b: int)
    ensures Power(a + b) == Times(Power(a), Power(b))
    decreases if b < 0 then -b else b
  {
    hide Power, Times;
    if b > 0 {
      PowerSum(a, b - 1);
      PowerStep(a + b - 1);
      PowerStep(b - 1);
      TenTimesRight(Power(a), Power(b - 1));
    } else if b < 0 {
      PowerSum(a, b + 1);
      PowerStep(a + b);
      PowerStep(b);
      TenTimesRight(Power(a), Power(b));
    } else {
      PowerOfZero();
      Units(Power(a));
    }
  }

  lemma PowerOfZero()
    ensures Power(0) == 1.0
  {
  }

  lemma TenTimesRight(x: real, y: real)
    ensures Times(x, 10.0 * y) == 10.0 * Times(x, y)
  {
  }

  function Value(d: Decimal): real {
    Times(d.coefficient as real, Power(d.exponent))
  }


  /** The value at a lower exponent. */
  lemma {:induction false} Rescaled(c: int, e: int, n: nat)
    ensures Value(Decimal(c, e + n)) == Value(Decimal(c * Ten(n), e))
  {
    hide Power, Ten, Times;
    PowerShift(e, n);
    Associate(c as real, Ten(n) as real, Power(e));
    WholeTimes(c, Ten(n));
  }

  // Limits

  function Abs(c: int): nat {
    if c < 0 then -c else c
  }

  function Digits(c: nat): (n: nat)
    ensures n > 0 && c < Ten(n)
  {
    if c < 10 then 1 else 1 + Digits(c / 10)
  }

  predicate Bounded(exponent: int) {
    Abs(exponent) <= MAX_EXPONENT
  }

  predicate Representable(d: Decimal) {
    Digits(Abs(d.coefficient)) <= MAX_DIGITS && Bounded(d.exponent)
  }

  predicate Scalable(coefficient: int, scale: nat) {
    scale <= MAX_SCALE_DIFFERENCE && Digits(Abs(coefficient)) + scale <= MAX_DIGITS
  }

  function FromCoefficient(coefficient: int, exponent: int): Checked<Decimal> {
    var d := Decimal(coefficient, exponent);
    if Representable(d) then Ok(d) else Rejected
  }

  // Operations; each is exact or rejected

  function Min(a: int, b: int): int {
    if a <= b then a else b
  }

  lemma SumValue(a: Decimal, b: Decimal, e: int)
    requires e <= a.exponent && e <= b.exponent
    ensures var x, y := a.coefficient * Ten(a.exponent - e), b.coefficient * Ten(b.exponent - e);
            && Value(Decimal(x + y, e)) == Value(a) + Value(b)
            && Value(Decimal(x - y, e)) == Value(a) - Value(b)
  {
    hide Power, Ten, Times;
    Rescaled(a.coefficient, e, a.exponent - e);
    Rescaled(b.coefficient, e, b.exponent - e);
    var x, y := a.coefficient * Ten(a.exponent - e), b.coefficient * Ten(b.exponent - e);
    Distribute(x as real, y as real, Power(e));
  }

  function AddDecimals(a: Decimal, b: Decimal): (r: Checked<Decimal>)
    ensures r.Ok? ==> Value(r.value) == Value(a) + Value(b)
  {
    var e := Min(a.exponent, b.exponent);
    var left, right := a.exponent - e, b.exponent - e;
    if !Representable(a) || !Representable(b) || !Scalable(a.coefficient, left) || !Scalable(b.coefficient, right) then
      Rejected
    else
      SumValue(a, b, e);
      FromCoefficient(a.coefficient * Ten(left) + b.coefficient * Ten(right), e)
  }

  function SubtractDecimals(a: Decimal, b: Decimal): (r: Checked<Decimal>)
    ensures r.Ok? ==> Value(r.value) == Value(a) - Value(b)
  {
    var e := Min(a.exponent, b.exponent);
    var left, right := a.exponent - e, b.exponent - e;
    if !Representable(a) || !Representable(b) || !Scalable(a.coefficient, left) || !Scalable(b.coefficient, right) then
      Rejected
    else
      SumValue(a, b, e);
      FromCoefficient(a.coefficient * Ten(left) - b.coefficient * Ten(right), e)
  }

  lemma {:induction false} DigitsBound(n: nat, k: nat)
    requires k > 0 && n < Ten(k)
    ensures Digits(n) <= k
  {
    if n >= 10 {
      DigitsBound(n / 10, k - 1);
    }
  }

  /** The digits of a product never exceed those of its factors together, so the check after a
      multiplication never rejects: the checks before it decide. */
  lemma ProductsFit(a: Decimal, b: Decimal)
    ensures MultiplyDecimals(a, b).Ok? <==>
              && Representable(a) && Representable(b) && Bounded(a.exponent + b.exponent)
              && Digits(Abs(a.coefficient)) + Digits(Abs(b.coefficient)) <= MAX_DIGITS
  {
    hide Ten, Digits, Value;
    DigitsOfProduct(a.coefficient, b.coefficient);
  }

  lemma DigitsOfProduct(c: int, d: int)
    ensures Digits(Abs(c * d)) <= Digits(Abs(c)) + Digits(Abs(d))
  {
    hide Ten, Digits, Abs;
    var m, n := Digits(Abs(c)), Digits(Abs(d));
    AbsTimes(c, d);
    ProductBelow(Abs(c), Abs(d), Ten(m), Ten(n));
    TenSum(m, n);
    DigitsBound(Abs(c * d), m + n);
  }

  lemma AbsTimes(c: int, d: int)
    ensures Abs(c * d) == Abs(c) * Abs(d)
  {
    if d >= 0 {
      AbsProduct(c, d);
    } else {
      AbsProduct(c, -d);
      assert c * d == -(c * -d);
    }
  }

  lemma ProductBelow(x: nat, y: nat, p: nat, q: nat)
    requires x < p && y < q
    ensures x * y < p * q
  {
    Smaller(x, p, q);
    if x > 0 {
      Smaller(y, q, x);
      assert x * y == y * x && q * x == x * q;
    } else {
      assert x * y == 0;
    }
  }

  /** Operands that align within 999 digits are added and subtracted, never rejected. */
  lemma SumsFit(a: Decimal, b: Decimal)
    requires Representable(a) && Representable(b)
    requires var e := Min(a.exponent, b.exponent);
             && Digits(Abs(a.coefficient)) + (a.exponent - e) < MAX_DIGITS
             && Digits(Abs(b.coefficient)) + (b.exponent - e) < MAX_DIGITS
    ensures AddDecimals(a, b).Ok? && SubtractDecimals(a, b).Ok?
  {
    hide Digits, Value, Ten;
    var e := Min(a.exponent, b.exponent);
    var x, y := a.coefficient * Ten(a.exponent - e), b.coefficient * Ten(b.exponent - e);
    AlignedBelow(a.coefficient, a.exponent - e);
    AlignedBelow(b.coefficient, b.exponent - e);
    TenTwice(MAX_DIGITS - 1);
    DigitsBound(Abs(x + y), MAX_DIGITS);
    DigitsBound(Abs(x - y), MAX_DIGITS);
  }

  lemma TenTwice(n: nat)
    ensures 2 * Ten(n) < Ten(n + 1)
  {
  }

  lemma {:induction false} AlignedBelow(c: int, n: nat)
    requires Digits(Abs(c)) + n < MAX_DIGITS
    ensures Abs(c * Ten(n)) < Ten(MAX_DIGITS - 1)
  {
    var m := Digits(Abs(c));
    AbsProduct(c, Ten(n));
    Smaller(Abs(c), Ten(m), Ten(n));
    TenSum(m, n);
    TenGrows(m + n, MAX_DIGITS - 1);
  }

  function MultiplyDecimals(a: Decimal, b: Decimal): (r: Checked<Decimal>)
    ensures r.Ok? ==> Value(r.value) == Times(Value(a), Value(b))
  {
    var e := a.exponent + b.exponent;
    if !Representable(a) || !Representable(b) || !Bounded(e)
       || Digits(Abs(a.coefficient)) + Digits(Abs(b.coefficient)) > MAX_DIGITS then
      Rejected
    else
      ProductValue(a, b);
      FromCoefficient(a.coefficient * b.coefficient, e)
  }

  lemma ProductValue(a: Decimal, b: Decimal)
    ensures Value(Decimal(a.coefficient * b.coefficient, a.exponent + b.exponent)) == Times(Value(a), Value(b))
  {
    hide Power, Times;
    PowerSum(a.exponent, b.exponent);
    WholeTimes(a.coefficient, b.coefficient);
    Exchange(a.coefficient as real, b.coefficient as real, Power(a.exponent), Power(b.exponent));
  }

  /** Numerator and denominator of a / b as integers, after aligning the exponents. */
  function Ratio(a: Decimal, b: Decimal): (r: Checked<(int, nat)>)
    ensures r.Ok? ==>
              && Value(b) > 0.0 && r.value.1 > 0
              && Over(r.value.0 as real, r.value.1 as real) == Over(Value(a), Value(b))
    ensures r.Ok? ==> Abs(r.value.0) < Ten(MAX_DIGITS)
  {
    var difference := a.exponent - b.exponent;
    if !Representable(a) || !Representable(b) || b.coefficient <= 0 || Abs(difference) > MAX_SCALE_DIFFERENCE then
      Rejected
    else if difference >= 0 then
      if !Scalable(a.coefficient, difference) then Rejected
      else
        RatioUp(a, b);
        ScaledBelow(a.coefficient, difference);
        Ok((a.coefficient * Ten(difference), b.coefficient))
    else if !Scalable(b.coefficient, -difference) then Rejected
    else
      RatioDown(a, b);
      TenGrows(Digits(Abs(a.coefficient)), MAX_DIGITS);
      Ok((a.coefficient, b.coefficient * Ten(-difference)))
  }

  lemma {:induction false} TenGrows(m: nat, n: nat)
    requires m <= n
    ensures Ten(m) <= Ten(n)
    decreases n
  {
    if m < n { TenGrows(m, n - 1); }
  }

  lemma {:induction false} TenSum(m: nat, n: nat)
    ensures Ten(m + n) == Ten(m) * Ten(n)
  {
    if n > 0 { TenSum(m, n - 1); }
  }

  lemma {:induction false} EndsInZero(b: int, n: nat)
    requires n > 0
    ensures (b * Ten(n)) % 10 == 0
  {
    var p := Ten(n - 1);
    assert Ten(n) == 10 * p;
    TimesTen(b, p);
  }

  lemma TimesTen(b: int, p: int)
    ensures (b * (10 * p)) % 10 == 0
  {
    assert b * (10 * p) == 10 * (b * p);
  }

  lemma {:induction false} ScaledBelow(c: int, n: nat)
    requires Scalable(c, n)
    ensures Abs(c * Ten(n)) < Ten(MAX_DIGITS)
  {
    hide Ten, Digits;
    var d := Digits(Abs(c));
    TenSum(d, n);
    TenGrows(d + n, MAX_DIGITS);
    AbsProduct(c, Ten(n));
    Smaller(Abs(c), Ten(d), Ten(n));
  }

  lemma AbsProduct(c: int, p: nat)
    ensures Abs(c * p) == Abs(c) * p
  {
    if c < 0 { assert c * p == -((-c) * p); }
  }

  lemma Smaller(x: nat, y: nat, p: nat)
    requires x < y && p > 0
    ensures x * p < y * p
  {
  }

  lemma SameRatio(n: int, d: nat, u: real)
    requires d > 0 && u > 0.0
    ensures Times(d as real, u) > 0.0
    ensures Over(n as real, d as real) == Over(Times(n as real, u), Times(d as real, u))
  {
    hide Times, Over;
    var q := Over(n as real, d as real);
    Signs(d as real, u);
    OverTimes(n as real, d as real);
    Associate(q, d as real, u);
    QuotientIs(Times(n as real, u), Times(d as real, u), q);
  }

  lemma RatioUp(a: Decimal, b: Decimal)
    requires a.exponent >= b.exponent && b.coefficient > 0
    ensures Value(b) > 0.0
    ensures Over((a.coefficient * Ten(a.exponent - b.exponent)) as real, b.coefficient as real)
            == Over(Value(a), Value(b))
  {
    hide Power, Ten, Times, Over;
    Rescaled(a.coefficient, b.exponent, a.exponent - b.exponent);
    SameRatio(a.coefficient * Ten(a.exponent - b.exponent), b.coefficient, Power(b.exponent));
  }

  lemma RatioDown(a: Decimal, b: Decimal)
    requires a.exponent <= b.exponent && b.coefficient > 0
    ensures b.coefficient * Ten(b.exponent - a.exponent) > 0
    ensures Value(b) > 0.0
    ensures Over(a.coefficient as real, (b.coefficient * Ten(b.exponent - a.exponent)) as real)
            == Over(Value(a), Value(b))
  {
    hide Power, Ten, Times, Over;
    Rescaled(b.coefficient, a.exponent, b.exponent - a.exponent);
    Smaller(0, b.coefficient, Ten(b.exponent - a.exponent));
    SameRatio(a.coefficient, b.coefficient * Ten(b.exponent - a.exponent), Power(a.exponent));
  }

  /** The largest whole number of times the denominator fits into the numerator. */
  function FloorDivide(a: Decimal, b: Decimal): (r: Checked<int>)
    ensures r.Ok? ==> Value(b) > 0.0 && r.value == Over(Value(a), Value(b)).Floor && r.value < Ten(MAX_DIGITS)
  {
    match Ratio(a, b)
    case Rejected => Rejected
    case Ok((n, d)) =>
      FloorOfRatio(n, d);
      QuotientBelow(n, d);
      Ok(n / d)
  }

  lemma QuotientBelow(n: int, d: nat)
    requires d > 0
    ensures n / d <= Abs(n)
  {
    var f := n / d;
    assert f * d <= n;
    assert f > 0 ==> f <= f * d;
  }

  lemma FloorOfRatio(n: int, d: nat)
    requires d > 0
    ensures Over(n as real, d as real).Floor == n / d
  {
    hide Times, Over;
    var f := n / d;
    OverTimes(n as real, d as real);
    WholeTimes(f, d);
    Division(n, d);
    ProductBounds(Over(n as real, d as real), d as real, f as real);
  }

  lemma Division(n: int, d: nat)
    requires d > 0
    ensures n / d * d <= n < n / d * d + d
  {
  }
}
