/** Sums in the 28-digit context: they grow with their summands, and they are exact where the whole
    sum fits the precision. */
module DecimalSums {
  import opened Decimals
  import opened Costs
  import opened DecimalContext

  // Rounding is monotone

  /** A number counted in units of a power of ten. */
  function In(x: real, u: int): real {
    Over(x, Power(u))
  }

  lemma {:induction false} InIs(x: real, u: int)
    ensures Times(In(x, u), Power(u)) == x
  {
    hide Power, Over, Times;
    OverTimes(x, Power(u));
  }

  lemma InGrows(x: real, y: real, u: int)
    ensures x <= y <==> In(x, u) <= In(y, u)
    ensures x < y <==> In(x, u) < In(y, u)
  {
    hide Power, Over, Times;
    InIs(x, u);
    InIs(y, u);
    Scaling(In(x, u), In(y, u), Power(u));
  }

  lemma WholeIn(c: int, u: int)
    ensures In(Value(Decimal(c, u)), u) == c as real
  {
    hide Power, Over, Times;
    QuotientIs(Value(Decimal(c, u)), Power(u), c as real);
  }

  /** A number at a higher exponent is a whole number of units. */
  lemma {:induction false} MultipleIn(d: Decimal, u: int)
    requires u <= d.exponent
    ensures In(Value(d), u) == (d.coefficient * Ten(d.exponent - u)) as real
  {
    hide Power, Over, Times, Value, Ten, In;
    Rescaled(d.coefficient, u, d.exponent - u);
    WholeIn(d.coefficient * Ten(d.exponent - u), u);
  }

  lemma ZeroIn(u: int)
    ensures In(0.0, u) == 0.0
  {
    hide Power, Times;
    ZeroIs(u);
    WholeIn(0, u);
  }

  /** In a larger unit the number is smaller by the power of ten. */
  lemma {:induction false} LargerUnit(x: real, u: int, k: nat)
    ensures In(x, u) == Times(Ten(k) as real, In(x, u + k))
  {
    hide Power, Over, Times, Ten;
    InIs(x, u + k);
    PowerShift(u, k);
    var y := In(x, u + k);
    Associate(y, Ten(k) as real, Power(u));
    Commute(y, Ten(k) as real);
    QuotientIs(x, Power(u), Times(Ten(k) as real, y));
  }

  /** A number of the context at a lower exponent is below the full scale of the unit. */
  lemma SmallIn(d: Decimal, u: int)
    requires Fits(d) && d.exponent < u
    ensures In(Value(d), u) < Ten(PRECISION - 1) as real
  {
    hide Power, Over, Times, Value, In, Ten, Digits;
    var k, y := u - d.exponent, In(Value(d), u);
    TenGrows(Digits(Abs(d.coefficient)), PRECISION);
    MultipleIn(d, d.exponent);
    LargerUnit(Value(d), d.exponent, k);
    TenOfZero();
    TenGrows(1, k);
    TenOfOne();
    Beneath(y, Ten(k), d.coefficient, Ten(PRECISION), Ten(PRECISION - 1));
  }

  lemma TenOfZero()
    ensures Ten(0) == 1 && Ten(PRECISION) == 10 * Ten(PRECISION - 1)
  {
  }

  lemma Beneath(y: real, p: nat, c: int, n: nat, m: nat)
    requires Times(p as real, y) == c as real && c < n && n == 10 * m && p >= 10
    ensures y < m as real
  {
    if y >= 0.0 {
      assert p as real * y >= 10.0 * y;
    }
  }

  lemma RoundsBelow(x: real, r: Decimal, y: Decimal)
    requires CorrectlyRounded(x, r) && 0.0 <= x <= Value(y) && Fits(y)
    ensures Value(r) <= Value(y)
  {
    hide Power, Over, Times, Value, Ten, In, Fits;
    if Value(r) != x {
      var c, u :| NearestTo(x, c, u, r);
      Unit(x, c, u, r);
      InGrows(x, Value(y), u);
      if u <= y.exponent {
        MultipleIn(y, u);
        WholeRounds(y.coefficient * Ten(y.exponent - u));
        RoundingIsMonotone(In(x, u), In(Value(y), u), HalfEven, c, y.coefficient * Ten(y.exponent - u));
        WholeIn(c, u);
        InGrows(Value(r), Value(y), u);
      } else {
        SmallIn(y, u);
        InGrows(0.0, x, u);
        ZeroIn(u);
      }
    }
  }

  lemma RoundsAbove(x: real, r: Decimal, y: Decimal)
    requires CorrectlyRounded(x, r) && 0.0 <= Value(y) <= x && Fits(y)
    ensures Value(y) <= Value(r)
  {
    hide Power, Over, Times, Value, Ten, In, Fits;
    if Value(r) != x {
      var c, u :| NearestTo(x, c, u, r);
      Unit(x, c, u, r);
      InGrows(Value(y), x, u);
      InGrows(0.0, x, u);
      ZeroIn(u);
      WholeIn(c, u);
      InGrows(Value(y), Value(r), u);
      if u <= y.exponent {
        MultipleIn(y, u);
        WholeRounds(y.coefficient * Ten(y.exponent - u));
        RoundingIsMonotone(In(Value(y), u), In(x, u), HalfEven, y.coefficient * Ten(y.exponent - u), c);
      } else {
        SmallIn(y, u);
      }
    }
  }

  lemma WholeRounds(k: int)
    ensures Rounds(k as real, HalfEven, k)
  {
  }

  lemma Unit(x: real, c: int, u: int, r: Decimal)
    requires NearestTo(x, c, u, r)
    ensures Rounds(In(x, u), HalfEven, c) && Value(r) == Value(Decimal(c, u))
    ensures x >= 0.0 ==> Ten(PRECISION - 1) as real <= In(x, u) < Ten(PRECISION) as real && c >= Ten(PRECISION - 1)
  {
    hide Ten, Power, Over, Value;
    InGrows(0.0, x, u);
    ZeroIn(u);
  }

  lemma UnitIsUnique(x: real, u: int, v: int)
    requires x >= 0.0 && u < v
    requires Ten(PRECISION - 1) as real <= In(x, v)
    ensures In(x, u) >= Ten(PRECISION) as real
  {
    hide Ten, Over, Power, In, Times;
    LargerUnit(x, u, v - u);
    TenOfZero();
    TenOfOne();
    TenGrows(1, v - u);
    Above(In(x, v), Ten(v - u), Ten(PRECISION - 1));
  }

  lemma Above(y: real, p: nat, m: nat)
    requires y >= m as real && p >= 10
    ensures Times(p as real, y) >= (10 * m) as real
  {
    assert p as real * y >= 10.0 * y;
  }

  /** A larger number is never rounded to a smaller one. */
  lemma RoundingGrows(x: real, r: Decimal, y: real, s: Decimal)
    requires CorrectlyRounded(x, r) && CorrectlyRounded(y, s) && 0.0 <= x <= y
    ensures Value(r) <= Value(s)
  {
    hide Power, Over, Times, Value, Ten, In, Fits, NearestTo;
    if x <= Value(s) {
      RoundsBelow(x, r, s);
    } else if Value(r) == x {
      RoundsAbove(y, s, r);
    } else {
      var c, u :| NearestTo(x, c, u, r);
      var d, v :| NearestTo(y, d, v, s);
      SameUnit(x, c, u, r, y, d, v, s);
    }
  }

  lemma SameUnit(x: real, c: int, u: int, r: Decimal, y: real, d: int, v: int, s: Decimal)
    requires NearestTo(x, c, u, r) && NearestTo(y, d, v, s) && 0.0 <= x <= y && Value(s) < x
    ensures Value(r) <= Value(s)
  {
    hide Power, Over, Times, Value, Ten, In, Fits, NearestTo;
    Unit(x, c, u, r);
    Unit(y, d, v, s);
    WholeIn(d, v);
    InGrows(Value(s), x, v);
    InGrows(x, y, v);
    if u < v { UnitIsUnique(x, u, v); }
    if v < u { UnitIsUnique(x, v, u); }
    RoundingIsMonotone(In(x, u), In(y, u), HalfEven, c, d);
    WholeIn(c, u);
    InGrows(Value(r), Value(s), u);
  }

  // Exact sums

  /** A number that is a whole number of units of the given exponent. */
  predicate Aligned(d: Decimal, e: int) {
    d.coefficient >= 0 && d.exponent >= e
  }

  function UnitCount(d: Decimal, e: int): nat
    requires Aligned(d, e)
  {
    d.coefficient * Ten(d.exponent - e)
  }

  lemma Grown(c: nat, p: nat)
    requires p >= 1
    ensures c <= c * p
  {
  }

  lemma Grows(c: nat, p: nat)
    ensures c * p >= 0
  {
  }

  /** The exact sum of a sequence, from zero and from left to right. */
  function ExactOf(values: seq<Decimal>): (r: Decimal)
    ensures r.exponent <= 0
  {
    if values == [] then ZERO else ExactSum(ExactOf(values[..|values| - 1]), values[|values| - 1])
  }

  predicate NonNegative(values: seq<Decimal>) {
    forall i :: 0 <= i < |values| ==> values[i].coefficient >= 0
  }

  /** Two numbers at the same exponent are equal if they have the same value. */
  lemma SameAtExponent(a: Decimal, b: Decimal)
    requires a.exponent == b.exponent && Value(a) == Value(b)
    ensures a == b
  {
    hide Times, Power;
    Scaling(a.coefficient as real, b.coefficient as real, Power(a.exponent));
    Scaling(b.coefficient as real, a.coefficient as real, Power(a.exponent));
  }

  lemma ExactAssociates(a: Decimal, b: Decimal, c: Decimal)
    ensures ExactSum(ExactSum(a, b), c) == ExactSum(a, ExactSum(b, c))
  {
    hide Value, Ten;
    SameAtExponent(ExactSum(ExactSum(a, b), c), ExactSum(a, ExactSum(b, c)));
  }

  lemma ExactUnit(a: Decimal)
    ensures a.exponent <= 0 ==> ExactSum(a, ZERO) == a && ExactSum(ZERO, a) == a
  {
    hide Value, Ten;
    ZeroIs(0);
    if a.exponent <= 0 {
      SameAtExponent(ExactSum(a, ZERO), a);
      SameAtExponent(ExactSum(ZERO, a), a);
    }
  }

  /** Exact sums may be taken in parts. */
  lemma {:induction false} ExactSplit(a: seq<Decimal>, b: seq<Decimal>)
    ensures ExactOf(a + b) == ExactSum(ExactOf(a), ExactOf(b))
  {
    hide ExactSum;
    if b == [] {
      assert a + b == a;
      ExactUnit(ExactOf(a));
    } else {
      var n := |b| - 1;
      assert (a + b)[..|a + b| - 1] == a + b[..n];
      ExactSplit(a, b[..n]);
      ExactAssociates(ExactOf(a), ExactOf(b[..n]), b[n]);
    }
  }

  lemma {:induction false} ExactNonNegative(values: seq<Decimal>)
    requires NonNegative(values)
    ensures ExactOf(values).coefficient >= 0
  {
    hide ExactSum;
    if values != [] {
      ExactNonNegative(values[..|values| - 1]);
      ExactGrows(ExactOf(values[..|values| - 1]), values[|values| - 1]);
    }
  }

  lemma ExactGrows(a: Decimal, b: Decimal)
    requires a.coefficient >= 0 && b.coefficient >= 0
    ensures a.coefficient <= ExactSum(a, b).coefficient && b.coefficient <= ExactSum(a, b).coefficient
  {
    hide Value, Ten;
    var e := Min(a.exponent, b.exponent);
    TenOfZero();
    TenGrows(0, a.exponent - e);
    TenGrows(0, b.exponent - e);
    Grown(a.coefficient, Ten(a.exponent - e));
    Grown(b.coefficient, Ten(b.exponent - e));
  }

  /** What has fewer digits than a number that fits, fits. */
  lemma SmallerFits(a: Decimal, b: Decimal)
    requires 0 <= a.coefficient <= b.coefficient && Fits(b)
    ensures Fits(a)
  {
    hide Ten, Digits;
    TenGrows(Digits(b.coefficient), PRECISION);
    DigitsBound(a.coefficient, PRECISION);
  }

  /** The parts of a sum that fits the precision fit it. */
  lemma {:induction false} PartsFit(a: seq<Decimal>, b: seq<Decimal>)
    requires NonNegative(a + b) && Fits(ExactOf(a + b))
    ensures NonNegative(a) && NonNegative(b) && Fits(ExactOf(a)) && Fits(ExactOf(b))
  {
    hide Fits, ExactSum;
    assert forall i :: 0 <= i < |a| ==> a[i] == (a + b)[i];
    assert forall i :: 0 <= i < |b| ==> b[i] == (a + b)[|a| + i];
    ExactSplit(a, b);
    ExactNonNegative(a);
    ExactNonNegative(b);
    ExactGrows(ExactOf(a), ExactOf(b));
    SmallerFits(ExactOf(a), ExactOf(a + b));
    SmallerFits(ExactOf(b), ExactOf(a + b));
  }

  /** Where the exact sum of non-negative numbers fits the precision, the sum in the context is exact. */
  lemma {:induction false} SumIsExact(values: seq<Decimal>)
    requires NonNegative(values) && Fits(ExactOf(values))
    ensures SumOf(values) == ExactOf(values)
  {
    hide Fits, ExactSum;
    if values != [] {
      var n := |values| - 1;
      assert values[..n] + [values[n]] == values;
      PartsFit(values[..n], [values[n]]);
      SumIsExact(values[..n]);
      assert Rounded(ExactOf(values)) == ExactOf(values);
    }
  }

  /** Two neighbours of 28 digits: adding five twice to the lower one leaves it, adding ten does not. */
  lemma FivesAreLost()
    ensures var large, next := Decimal(Ten(PRECISION - 1), 1), Decimal(Ten(PRECISION - 1) + 1, 1);
            && SumOf([Decimal(1, 28)]) == large
            && SumOf([Decimal(1, 28), Decimal(5, 0), Decimal(5, 0)]) == large
            && SumOf([large, Decimal(10, 0)]) == next
  {
    hide Ten, Rounded, ExactSum;
    var p, five := Ten(PRECISION - 1), Decimal(5, 0);
    var large, one := Decimal(p, 1), Decimal(1, 28);
    TenOfZero();
    EvenPower();
    PowerIsLarge();
    AlignsAt(ZERO, one, 10 * p);
    AlignsAt(large, five, 10 * p + 5);
    AlignsAt(large, Decimal(10, 0), 10 * p + 10);
    LastDigitRounds(10 * p, 0, p);
    LastDigitRounds(10 * p + 5, 0, p);
    LastDigitRounds(10 * p + 10, 0, p + 1);
    assert [one][..0] == [] && [one, five][..1] == [one] && [one, five, five][..2] == [one, five];
    assert [large][..0] == [] && [large, Decimal(10, 0)][..1] == [large];
    assert SumOf([one]) == large && SumOf([one, five]) == large;
    AlignsAt(ZERO, large, 10 * p);
    assert SumOf([large]) == large;
  }

  lemma TwoFives()
    ensures SumOf([Decimal(5, 0), Decimal(5, 0)]) == Decimal(10, 0)
  {
    hide Ten;
    var five := Decimal(5, 0);
    TenOfZero();
    assert [five][..0] == [] && [five, five][..1] == [five];
    assert SumOf([five]) == five;
  }

  lemma EvenPower()
    ensures var p := Ten(PRECISION - 1);
            && p % 2 == 0 && RoundRatio(10 * p, 10, HalfEven) == p && RoundRatio(10 * p + 5, 10, HalfEven) == p
            && RoundRatio(10 * p + 10, 10, HalfEven) == p + 1
  {
    hide Ten;
    EvenTen(PRECISION - 1);
  }

  lemma {:induction false} EvenTen(n: nat)
    requires n > 0
    ensures Ten(n) % 2 == 0
  {
    hide Ten;
    TenSum(n - 1, 1);
    TenOfOne();
    TenfoldIsEven(Ten(n - 1));
  }

  lemma TenfoldIsEven(p: nat)
    ensures p * 10 % 2 == 0
  {
    var half := 5 * p;
    assert p * 10 == 2 * half;
    DoubleIsEven(half);
  }

  lemma DoubleIsEven(n: nat)
    ensures 2 * n % 2 == 0
  {
  }

  lemma PowerIsLarge()
    ensures Ten(PRECISION - 1) > 10 && Ten(PRECISION + 1) == 10 * Ten(PRECISION)
  {
    hide Ten;
    TenGrows(2, PRECISION - 1);
    TenSum(1, 1);
    TenSum(PRECISION, 1);
    TenOfOne();
  }

  lemma AlignsAt(a: Decimal, b: Decimal, n: nat)
    requires (a == ZERO && b == Decimal(1, 28) && n == Ten(28))
             || (a == ZERO && b.exponent == 1 && n == 10 * b.coefficient)
             || (a.exponent == 1 && b.exponent == 0 && n == 10 * a.coefficient + b.coefficient)
    ensures ExactSum(a, b) == Decimal(n, 0)
  {
    hide Ten;
    TenOfZero();
    TenOfOne();
  }

  /** A number with one digit too many is rounded at that digit. */
  lemma LastDigitRounds(n: nat, e: int, r: nat)
    requires Ten(PRECISION) <= n < Ten(PRECISION + 1) && r == RoundRatio(n, 10, HalfEven) && r < Ten(PRECISION)
    ensures Rounded(Decimal(n, e)) == Decimal(r, e + 1)
  {
    hide Ten, Digits, RoundRatio;
    TenOfOne();
    DigitsBound(n, PRECISION + 1);
    if Fits(Decimal(n, e)) { TenGrows(Digits(n), PRECISION); }
    DigitsBound(r, PRECISION);
  }

  // What sums and products are

  /** Adding from zero, from left to right, each step correctly rounded to 28 digits. */
  ghost predicate AddsUp(xs: seq<Decimal>, r: Decimal)
    decreases |xs|
  {
    if xs == [] then Value(r) == 0.0
    else exists before: Decimal, sum: Decimal :: AddsUp(xs[..|xs| - 1], before) && AddsLast(xs, before, sum, r)
  }

  ghost predicate AddsLast(xs: seq<Decimal>, before: Decimal, sum: Decimal, r: Decimal)
    requires xs != []
  {
    CorrectlyRounded(Value(before) + Value(xs[|xs| - 1]), sum) && Value(r) == Value(sum)
  }

  /** Multiplying from one, likewise. */
  ghost predicate MultipliesUp(xs: seq<Decimal>, r: Decimal)
    decreases |xs|
  {
    if xs == [] then Value(r) == 1.0
    else exists before: Decimal :: MultipliesUp(xs[..|xs| - 1], before) && MultipliesLast(xs, before, r)
  }

  ghost predicate MultipliesLast(xs: seq<Decimal>, before: Decimal, r: Decimal)
    requires xs != []
  {
    CorrectlyRounded(Times(Value(before), Value(xs[|xs| - 1])), r)
  }

  lemma {:induction false} SumsAccumulate(xs: seq<Decimal>)
    ensures AddsUp(xs, SumOf(xs)) && MultipliesUp(xs, ProductOf(xs))
    decreases |xs|
  {
    hide Plus, Product, CorrectlyRounded, Value, Times;
    ZeroAndOne();
    if xs != [] {
      var n := |xs| - 1;
      SumsAccumulate(xs[..n]);
      SumIsCorrect(SumOf(xs[..n]), xs[n]);
      ProductIsCorrect(ProductOf(xs[..n]), xs[n]);
      assert AddsLast(xs, SumOf(xs[..n]), SumOf(xs), SumOf(xs));
      assert MultipliesLast(xs, ProductOf(xs[..n]), ProductOf(xs));
    }
  }

  lemma ZeroAndOne()
    ensures Value(ZERO) == 0.0 && Value(ONE) == 1.0
  {
  }
}
