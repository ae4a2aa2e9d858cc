/** Decimal arithmetic in a context of 28 significant digits that rounds half to even. */
module DecimalContext {
  import opened Decimals
  import opened Costs

  const PRECISION: nat := 28

  const ONE := Decimal(1, 0)

  predicate Fits(d: Decimal) {
    Digits(Abs(d.coefficient)) <= PRECISION
  }

  /** How many digits a number has beyond the precision. */
  function Excess(d: Decimal): nat {
    if Fits(d) then 0 else Digits(Abs(d.coefficient)) - PRECISION
  }

  function Leading(d: Decimal): int {
    RoundRatio(d.coefficient, Ten(Excess(d)), HalfEven)
  }

  /** Where rounding up yielded one digit too many, it is a zero. */
  function Trimmed(c: int, e: int): Decimal {
    if Fits(Decimal(c, e)) then Decimal(c, e) else Decimal(c / 10, e + 1)
  }

  /** The number at the precision of the context. */
  function Rounded(d: Decimal): Decimal {
    if Fits(d) then d else Trimmed(Leading(d), d.exponent + Excess(d))
  }

  /** A number of the context: the exact one if it has it, or else the nearest multiple of the unit of
      its 28th digit, a tie going to the even one. */
  ghost predicate CorrectlyRounded(x: real, r: Decimal) {
    Fits(r) && (Value(r) == x || exists c, u :: NearestTo(x, c, u, r))
  }

  predicate NearestTo(x: real, c: int, u: int, r: Decimal) {
    && FullScale(Over(x, Power(u)))
    && Value(r) == Value(Decimal(c, u))
    && Rounds(Over(x, Power(u)), HalfEven, c)
  }

  /** A number whose whole part has as many digits as the precision. */
  predicate FullScale(y: real) {
    Ten(PRECISION - 1) as real <= (if y < 0.0 then -y else y) < Ten(PRECISION) as real
  }

  lemma RoundedIsCorrect(d: Decimal)
    ensures CorrectlyRounded(Value(d), Rounded(d))
  {
    hide Ten, Digits, Value, Excess, Leading, Fits, NearestTo;
    if Fits(d) {
      assert Rounded(d) == d;
    } else {
      LeadingIsNearest(d);
      assert NearestTo(Value(d), Leading(d), d.exponent + Excess(d), Rounded(d));
    }
  }

  lemma LeadingIsNearest(d: Decimal)
    requires !Fits(d)
    ensures Fits(Rounded(d)) && NearestTo(Value(d), Leading(d), d.exponent + Excess(d), Rounded(d))
  {
    hide Ten, Digits, Value, Excess, RoundRatio, Over;
    var k, c := Excess(d), Leading(d);
    RatioRounds(d.coefficient, Ten(k), HalfEven);
    LeadingBounds(d);
    RatioIsFull(d.coefficient, Ten(k));
    TrimmedIs(c, d.exponent + k);
    AtUnit(d.coefficient, d.exponent, k);
  }

  /** The number counted in units of a higher exponent. */
  lemma {:induction false} AtUnit(c: int, e: int, k: nat)
    ensures Over(Value(Decimal(c, e)), Power(e + k)) == Over(c as real, Ten(k) as real)
  {
    hide Ten, Power, Over, Times;
    PowerShift(e, k);
    SameRatio(c, Ten(k), Power(e));
  }

  /** Rounding never brings the exponent down, and never a number to zero. */
  lemma RoundedExponent(d: Decimal)
    ensures Rounded(d).exponent >= d.exponent + Excess(d)
    ensures d.coefficient != 0 ==> Rounded(d).coefficient != 0
  {
    hide Ten, Digits, Leading;
    if !Fits(d) {
      LeadingBounds(d);
      TenOfOne();
      TenGrows(1, PRECISION - 1);
    }
  }

  lemma LeadingBounds(d: Decimal)
    requires !Fits(d)
    ensures Ten(PRECISION - 1) <= Abs(Leading(d)) <= Ten(PRECISION)
    ensures Ten(PRECISION - 1) * Ten(Excess(d)) <= Abs(d.coefficient) < Ten(PRECISION) * Ten(Excess(d))
  {
    hide Ten, Digits, RoundRatio;
    TenSum(PRECISION, Excess(d));
    TenSum(PRECISION - 1, Excess(d));
    DigitsFloor(Abs(d.coefficient));
    QuotientFits(d.coefficient, Ten(Excess(d)), Ten(PRECISION - 1), Ten(PRECISION));
  }

  lemma RatioIsFull(n: int, d: nat)
    requires d > 0 && Ten(PRECISION - 1) * d <= Abs(n) < Ten(PRECISION) * d
    ensures FullScale(Over(n as real, d as real))
  {
    hide Ten, Over, Times;
    var low, high := Ten(PRECISION - 1), Ten(PRECISION);
    MagnitudeOver(n, d);
    OverTimes(Abs(n) as real, d as real);
    WholeTimes(low, d);
    WholeTimes(high, d);
    Scaling(low as real, Over(Abs(n) as real, d as real), d as real);
    Scaling(Over(Abs(n) as real, d as real), high as real, d as real);
  }

  lemma MagnitudeOver(n: int, d: nat)
    requires d > 0
    ensures var y := Over(n as real, d as real); Over(Abs(n) as real, d as real) == if y < 0.0 then -y else y
  {
  }

  lemma TrimmedIs(c: int, e: int)
    requires Abs(c) <= Ten(PRECISION)
    ensures Fits(Trimmed(c, e)) && Value(Trimmed(c, e)) == Value(Decimal(c, e))
  {
    hide Ten, Digits, Value;
    if Abs(c) == Ten(PRECISION) {
      FullTen(c);
      Rescaled(c / 10, e, 1);
    } else {
      DigitsBound(Abs(c), PRECISION);
    }
  }

  lemma {:induction false} DigitsFloor(c: nat)
    ensures Digits(c) > 1 ==> Ten(Digits(c) - 1) <= c
  {
    if c >= 10 { DigitsFloor(c / 10); }
  }

  lemma QuotientFits(n: int, d: nat, low: nat, high: nat)
    requires d > 0 && low * d <= Abs(n) < high * d
    ensures low <= Abs(RoundRatio(n, d, HalfEven)) <= high
  {
    if n >= 0 {
      FloorFits(n, d, low, high);
    } else {
      NegativeFloorFits(n, d, low, high);
    }
  }

  lemma FloorFits(n: nat, d: nat, low: nat, high: nat)
    requires d > 0 && low * d <= n < high * d
    ensures low <= n / d < high
  {
    Division(n, d);
    var f := n / d;
    NextMultiple(f, d);
    if f >= high { Below(high, f, d); }
    if f < low { Below(f + 1, low, d); }
  }

  lemma NegativeFloorFits(n: int, d: nat, low: nat, high: nat)
    requires d > 0 && n < 0 && low * d <= 0 - n < high * d
    ensures low <= 0 - n / d <= high && (0 - n / d == low ==> n / d * d == n)
  {
    Division(n, d);
    var f := n / d;
    var least, most := 0 - high, 0 - low;
    NegativeMultiple(high, d);
    NegativeMultiple(low, d);
    NextMultiple(f, d);
    NextMultiple(most, d);
    if f < least { Below(f + 1, least, d); }
    if f > most { Below(most + 1, f, d); }
  }

  lemma NextMultiple(f: int, d: nat)
    ensures (f + 1) * d == f * d + d
  {
  }

  lemma NegativeMultiple(x: nat, d: nat)
    ensures (0 - x) * d == 0 - x * d
  {
  }

  lemma Below(x: int, y: int, d: nat)
    requires x <= y
    ensures x * d <= y * d
  {
  }

  lemma FullTen(c: int)
    requires Abs(c) == Ten(PRECISION)
    ensures Fits(Decimal(c / 10, 0)) && c / 10 * Ten(1) == c
  {
    hide Digits;
    TenSum(PRECISION - 1, 1);
    TenOfOne();
    Tenth(c, Ten(PRECISION - 1));
    DigitsBound(Ten(PRECISION - 1), PRECISION);
  }

  lemma TenOfOne()
    ensures Ten(1) == 10
  {
  }

  lemma Tenth(c: int, p: nat)
    requires Abs(c) == 10 * p
    ensures Abs(c / 10) == p && c / 10 * 10 == c
  {
  }

  // Operations

  function ExactSum(a: Decimal, b: Decimal): (r: Decimal)
    ensures Value(r) == Value(a) + Value(b)
  {
    var e := Min(a.exponent, b.exponent);
    SumValue(a, b, e);
    Decimal(a.coefficient * Ten(a.exponent - e) + b.coefficient * Ten(b.exponent - e), e)
  }

  function Plus(a: Decimal, b: Decimal): Decimal {
    Rounded(ExactSum(a, b))
  }

  function Negated(a: Decimal): Decimal {
    Decimal(0 - a.coefficient, a.exponent)
  }

  function Minus(a: Decimal, b: Decimal): Decimal {
    Plus(a, Negated(b))
  }

  function Product(a: Decimal, b: Decimal): Decimal {
    Rounded(Decimal(a.coefficient * b.coefficient, a.exponent + b.exponent))
  }

  /** The sum of a sequence, from zero and from left to right. */
  function SumOf(values: seq<Decimal>): Decimal {
    if values == [] then ZERO else Plus(SumOf(values[..|values| - 1]), values[|values| - 1])
  }

  function ProductOf(values: seq<Decimal>): Decimal {
    if values == [] then ONE else Product(ProductOf(values[..|values| - 1]), values[|values| - 1])
  }

  // Division

  /** Gives up trailing zeros until the exponent is the ideal one. */
  function Reduced(d: Decimal, ideal: int): (r: Decimal)
    ensures Value(r) == Value(d)
    decreases ideal - d.exponent
  {
    if d.exponent < ideal && d.coefficient % 10 == 0 then
      LosesZero(d);
      Reduced(Decimal(d.coefficient / 10, d.exponent + 1), ideal)
    else d
  }

  lemma LosesZero(d: Decimal)
    requires d.coefficient % 10 == 0
    ensures Value(Decimal(d.coefficient / 10, d.exponent + 1)) == Value(d)
  {
    hide Value, Ten;
    Rescaled(d.coefficient / 10, d.exponent, 1);
    TenOfOne();
  }

  /** The integers whose quotient, at the exponent, is the quotient of the magnitudes, scaled so that
      it has one or two digits more than the precision. */
  function Scaled(a: Decimal, b: Decimal): (r: (nat, nat, int))
    requires b.coefficient != 0
    ensures r.1 > 0
  {
    var m, n := Abs(a.coefficient), Abs(b.coefficient);
    var shift := Digits(n) - Digits(m) + PRECISION + 1;
    if shift >= 0 then (m * Ten(shift), n, a.exponent - b.exponent - shift)
    else
      Smaller(0, n, Ten(0 - shift));
      (m, n * Ten(0 - shift), a.exponent - b.exponent - shift)
  }

  /** The quotient of the magnitudes: as it is where it fits, or else the nearest number that does. */
  function Magnitude(a: Decimal, b: Decimal): Decimal
    requires b.coefficient != 0
  {
    var (p, q, e) := Scaled(a, b);
    if p % q == 0 then Rounded(Reduced(Decimal(p / q, e), a.exponent - b.exponent))
    else
      var k := Excess(Decimal(p / q, e));
      Smaller(0, q, Ten(k));
      Trimmed(RoundRatio(p, q * Ten(k), HalfEven), e + k)
  }

  function Quotient(a: Decimal, b: Decimal): Decimal
    requires b.coefficient != 0
  {
    if a.coefficient == 0 then Decimal(0, a.exponent - b.exponent)
    else if (a.coefficient < 0) == (b.coefficient < 0) then Magnitude(a, b)
    else Negated(Magnitude(a, b))
  }

  // Division is correctly rounded

  /** The magnitude of a decimal. */
  function Absolute(d: Decimal): (r: Decimal)
    ensures d.coefficient != 0 ==> Value(r) > 0.0
  {
    Positive(Abs(d.coefficient), d.exponent);
    Decimal(Abs(d.coefficient), d.exponent)
  }

  lemma Positive(c: nat, e: int)
    ensures c > 0 ==> Value(Decimal(c, e)) > 0.0
  {
    hide Power, Times;
    Signs(c as real, Power(e));
  }

  /** The scaled integers have the quotient of the magnitudes. */
  lemma ScaledIs(a: Decimal, b: Decimal)
    requires b.coefficient != 0
    ensures var (p, q, e) := Scaled(a, b);
            Times(Over(p as real, q as real), Power(e)) == Over(Value(Absolute(a)), Value(Absolute(b)))
  {
    hide Power, Times, Over, Ten, Digits;
    var (p, q, e) := Scaled(a, b);
    var m, n, y := Abs(a.coefficient), Abs(b.coefficient), Over(p as real, q as real);
    OverTimes(p as real, q as real);
    var shift := a.exponent - b.exponent - e;
    if shift >= 0 {
      UpScaled(m, n, y, a.exponent, b.exponent, shift);
    } else {
      DownScaled(m, n, y, a.exponent, b.exponent, 0 - shift);
    }
    QuotientIs(Value(Absolute(a)), Value(Absolute(b)), Times(y, Power(e)));
  }

  lemma {:induction false} UpScaled(m: nat, n: nat, y: real, e: int, f: int, s: nat)
    requires Times(y, n as real) == (m * Ten(s)) as real
    ensures Times(Times(y, Power(e - f - s)), Value(Decimal(n, f))) == Value(Decimal(m, e))
  {
    hide Power, Times, Ten;
    Exchange(y, Power(e - f - s), n as real, Power(f));
    PowerSum(e - f - s, f);
    Rescaled(m, e - s, s);
  }

  lemma {:induction false} DownScaled(m: nat, n: nat, y: real, e: int, f: int, t: nat)
    requires Times(y, (n * Ten(t)) as real) == m as real
    ensures Times(Times(y, Power(e - f + t)), Value(Decimal(n, f))) == Value(Decimal(m, e))
  {
    hide Power, Times, Ten;
    Exchange(y, Power(e - f + t), n as real, Power(f));
    PowerSum(e - f + t, f);
    PowerShift(e, t);
    WholeTimes(n, Ten(t));
    Associate(y, n as real, Ten(t) as real);
    Associate(Times(y, n as real), Ten(t) as real, Power(e));
  }

  /** The scaled quotient has more digits than the precision. */
  lemma ScaledIsLong(a: Decimal, b: Decimal)
    requires a.coefficient != 0 && b.coefficient != 0
    ensures var (p, q, e) := Scaled(a, b); Ten(PRECISION) * q <= p
  {
    hide Ten, Digits;
    var m, n := Abs(a.coefficient), Abs(b.coefficient);
    var dm, dn := Digits(m), Digits(n);
    FirstDigit(m);
    var shift := dn - dm + PRECISION + 1;
    Smaller(n, Ten(dn), Ten(PRECISION));
    TenSum(dn, PRECISION);
    if shift >= 0 {
      Below(Ten(dm - 1), m, Ten(shift));
      TenSum(dm - 1, shift);
    } else {
      var t := 0 - shift;
      TenSum(dn + PRECISION, t);
      Below(n * Ten(PRECISION), Ten(dn + PRECISION), Ten(t));
      Regroup(n, Ten(PRECISION), Ten(t));
    }
  }

  lemma {:induction false} FirstDigit(m: nat)
    requires m > 0
    ensures Ten(Digits(m) - 1) <= m
  {
    DigitsFloor(m);
  }

  lemma Regroup(x: nat, y: nat, z: nat)
    ensures x * (y * z) == x * z * y && x * y * z == y * (x * z)
  {
  }

  lemma MagnitudeIsCorrect(a: Decimal, b: Decimal)
    requires a.coefficient != 0 && b.coefficient != 0
    ensures CorrectlyRounded(Over(Value(Absolute(a)), Value(Absolute(b))), Magnitude(a, b))
  {
    hide Power, Times, Over, Ten, Digits, Scaled, Value, RoundRatio, Excess, Fits, Absolute, Trimmed, NearestTo;
    var (p, q, e) := Scaled(a, b);
    var x := Over(Value(Absolute(a)), Value(Absolute(b)));
    ScaledIs(a, b);
    ScaledIsLong(a, b);
    if p % q == 0 {
      Whole(p, q, e);
      RoundedIsCorrect(Reduced(Decimal(p / q, e), a.exponent - b.exponent));
    } else {
      RoundsAt(p, q, e, x);
      var k := Excess(Decimal(p / q, e));
      assert NearestTo(x, RoundRatio(p, q * Ten(k), HalfEven), e + k, Magnitude(a, b));
    }
  }

  lemma {:induction false} Whole(p: nat, q: nat, e: int)
    requires q > 0 && p % q == 0
    ensures Value(Decimal(p / q, e)) == Times(Over(p as real, q as real), Power(e))
  {
    hide Times, Over, Power;
    WholeTimes(p / q, q);
    assert p / q * q == p;
    QuotientIs(p as real, q as real, (p / q) as real);
  }

  lemma {:induction false} RoundsAt(p: nat, q: nat, e: int, x: real)
    requires q > 0 && Ten(PRECISION) * q <= p && x == Times(Over(p as real, q as real), Power(e))
    ensures var k := Excess(Decimal(p / q, e));
            && q * Ten(k) > 0
            && var c := RoundRatio(p, q * Ten(k), HalfEven);
               Fits(Trimmed(c, e + k)) && NearestTo(x, c, e + k, Trimmed(c, e + k))
  {
    hide Power, Times, Over, Ten, Digits, Value, RoundRatio, Trimmed;
    var k := Excess(Decimal(p / q, e));
    Smaller(0, q, Ten(k));
    var c := RoundRatio(p, q * Ten(k), HalfEven);
    LongQuotient(p, q);
    hide Excess;
    QuotientFits(p, q * Ten(k), Ten(PRECISION - 1), Ten(PRECISION));
    RatioIsFull(p, q * Ten(k));
    RatioRounds(p, q * Ten(k), HalfEven);
    TrimmedIs(c, e + k);
    ShiftedQuotient(p, q, e, k);
  }

  lemma LongQuotient(p: nat, q: nat)
    requires q > 0 && Ten(PRECISION) * q <= p
    ensures var k := Excess(Decimal(p / q, 0));
            Ten(PRECISION - 1) * (q * Ten(k)) <= p < Ten(PRECISION) * (q * Ten(k))
  {
    hide Ten, Digits, Excess;
    var k, f := Excess(Decimal(p / q, 0)), p / q;
    Division(p, q);
    ReachesFloor(p, q, Ten(PRECISION));
    ExcessOf(f);
    TenSum(PRECISION - 1, k);
    TenSum(PRECISION, k);
    Spanned(p, q, f, Ten(PRECISION - 1 + k), Ten(PRECISION + k));
    Regroup(Ten(PRECISION - 1), q, Ten(k));
    Regroup(Ten(PRECISION), q, Ten(k));
  }

  lemma ReachesFloor(p: nat, q: nat, n: nat)
    requires q > 0 && n * q <= p
    ensures n <= p / q
  {
    Division(p, q);
    NextMultiple(p / q, q);
    if p / q < n { Below(p / q + 1, n, q); }
  }

  lemma Spanned(p: nat, q: nat, f: nat, low: nat, high: nat)
    requires f * q <= p < f * q + q && low <= f < high
    ensures low * q <= p < high * q
  {
    Below(low, f, q);
    Below(f + 1, high, q);
    NextMultiple(f, q);
  }

  lemma ExcessOf(f: nat)
    requires Ten(PRECISION) <= f
    ensures var k := Excess(Decimal(f, 0)); Ten(PRECISION - 1 + k) <= f < Ten(PRECISION + k)
  {
    hide Ten, Digits;
    DigitsFloor(f);
    if Fits(Decimal(f, 0)) { TenGrows(Digits(f), PRECISION); }
  }

  lemma ShiftedQuotient(p: nat, q: nat, e: int, k: nat)
    requires q > 0 && q * Ten(k) > 0
    ensures Over(Times(Over(p as real, q as real), Power(e)), Power(e + k)) == Over(p as real, (q * Ten(k)) as real)
  {
    hide Power, Times, Over, Ten;
    var z := Over(p as real, (q * Ten(k)) as real);
    OverTimes(p as real, (q * Ten(k)) as real);
    WholeTimes(Ten(k), q);
    Commute(Ten(k) as real, q as real);
    WholeTimes(q, Ten(k));
    Associate(z, Ten(k) as real, q as real);
    QuotientIs(p as real, q as real, Times(z, Ten(k) as real));
    PowerShift(e, k);
    Associate(z, Ten(k) as real, Power(e));
    QuotientIs(Times(Over(p as real, q as real), Power(e)), Power(e + k), z);
  }

  function Divided(x: real, y: real): real
    requires y != 0.0
  {
    if y > 0.0 then Over(x, y) else Over(-x, -y)
  }

  lemma NegatedIs(c: int, e: int)
    ensures Value(Decimal(0 - c, e)) == -Value(Decimal(c, e))
  {
    hide Power, Times;
    Distribute(0.0, c as real, Power(e));
    Units(Power(e));
  }

  lemma OverNegated(x: real, y: real)
    requires y > 0.0
    ensures Over(-x, y) == -Over(x, y)
  {
  }

  lemma NegationIsCorrect(x: real, r: Decimal)
    requires CorrectlyRounded(x, r)
    ensures CorrectlyRounded(-x, Negated(r))
  {
    hide Value, Ten, Digits, Over, Power;
    NegatedIs(r.coefficient, r.exponent);
    if Value(r) != x {
      var c, u :| NearestTo(x, c, u, r);
      NegatedIs(c, u);
      OverNegated(x, Power(u));
      assert NearestTo(-x, 0 - c, u, Negated(r));
    }
  }

  /** Division in the context is correctly rounded, whatever the signs and the scales. */
  lemma QuotientIsCorrect(a: Decimal, b: Decimal)
    requires b.coefficient != 0
    ensures Value(b) != 0.0 && CorrectlyRounded(Divided(Value(a), Value(b)), Quotient(a, b))
  {
    hide Value, Over, Magnitude, CorrectlyRounded, Negated, Absolute;
    SignedValue(a);
    SignedValue(b);
    var x, y := Value(Absolute(a)), Value(Absolute(b));
    if a.coefficient == 0 {
      ZeroOver(a, b);
    } else {
      MagnitudeIsCorrect(a, b);
      OverNegated(x, y);
      NegationIsCorrect(Over(x, y), Magnitude(a, b));
    }
  }

  lemma SignedValue(d: Decimal)
    ensures Value(d) == if d.coefficient < 0 then -Value(Absolute(d)) else Value(Absolute(d))
    ensures d.coefficient == 0 <==> Value(d) == 0.0
  {
    hide Value;
    NegatedIs(Abs(d.coefficient), d.exponent);
    if d.coefficient == 0 { ZeroIs(d.exponent); }
  }

  lemma ZeroIs(e: int)
    ensures Value(Decimal(0, e)) == 0.0
  {
    hide Power, Times;
    Units(Power(e));
  }

  lemma ZeroOver(a: Decimal, b: Decimal)
    requires a.coefficient == 0 && b.coefficient != 0 && Value(b) != 0.0
    ensures CorrectlyRounded(Divided(Value(a), Value(b)), Quotient(a, b))
  {
    hide Value;
    ZeroIs(a.exponent);
    ZeroIs(a.exponent - b.exponent);
  }

  /** Sums and products are correctly rounded. */
  lemma SumIsCorrect(a: Decimal, b: Decimal)
    ensures CorrectlyRounded(Value(a) + Value(b), Plus(a, b))
    ensures CorrectlyRounded(Value(a) - Value(b), Minus(a, b))
  {
    hide Value, CorrectlyRounded, Rounded, ExactSum;
    RoundedIsCorrect(ExactSum(a, b));
    RoundedIsCorrect(ExactSum(a, Negated(b)));
    NegatedIs(b.coefficient, b.exponent);
  }

  lemma ProductIsCorrect(a: Decimal, b: Decimal)
    ensures CorrectlyRounded(Times(Value(a), Value(b)), Product(a, b))
  {
    hide Value, CorrectlyRounded, Rounded, Times;
    ProductValue(a, b);
    RoundedIsCorrect(Decimal(a.coefficient * b.coefficient, a.exponent + b.exponent));
  }
}
