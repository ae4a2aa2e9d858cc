/** Scores: sums of rule weights in the 28-digit context, each in its canonical form. */
module RuleScores {
  import opened StateMachine
  import opened Costs
  import opened Decimals
  import opened DecimalContext
  import opened DecimalSums
  import opened RuleNumbers

  const NO_SCORE := ZERO

  /** The sum of two scores, or None beyond the limits. */
  function AddScores(left: Num, right: Num): Option<Num> {
    CanonicalNumber(Plus(left, right))
  }

  /** A score: the canonical form of a number of the context that is not negative. */
  ghost predicate IsScore(n: Num) {
    exists x: Num :: ScoreOf(n, x)
  }

  predicate ScoreOf(n: Num, x: Num) {
    Fits(x) && InLimits(x) && x.coefficient >= 0 && n == Canonical(x)
  }

  lemma ScoreIsAmount(n: Num, x: Num)
    requires ScoreOf(n, x)
    ensures Amount(n) == Amount(x) >= 0.0
  {
    hide Value, Canonical, InLimits, Fits;
    CanonicalKeepsAmount(x);
    SignedValue(x);
    PositiveAmount(x);
  }

  lemma ScoresAreAmounts(a: Num)
    requires IsScore(a)
    ensures Amount(a) >= 0.0
  {
    hide ScoreOf, Amount;
    var x: Num :| ScoreOf(a, x);
    ScoreIsAmount(a, x);
  }

  lemma NothingIsScore()
    ensures IsScore(NO_SCORE) && Amount(NO_SCORE) == 0.0
  {
    ZeroIs(0);
    ZeroScores();
    assert ScoreOf(NO_SCORE, ZERO);
  }

  lemma ZeroScores()
    ensures Fits(ZERO) && InLimits(ZERO) && Canonical(ZERO) == ZERO
  {
  }

  lemma SumIsScore(a: Num, b: Num)
    requires AddScores(a, b).Some? && Amount(a) >= 0.0 && Amount(b) >= 0.0
    ensures IsScore(AddScores(a, b).value) && Amount(AddScores(a, b).value) == Amount(Plus(a, b))
    ensures CorrectlyRounded(Amount(a) + Amount(b), Plus(a, b))
  {
    hide Value, Plus, CorrectlyRounded, Canonical, InLimits;
    SumIsCorrect(a, b);
    CanonicalKeepsAmount(Plus(a, b));
    ZeroIs(0);
    ZeroScores();
    RoundsAbove(Amount(a) + Amount(b), Plus(a, b), ZERO);
    RoundedFits(Amount(a) + Amount(b), Plus(a, b));
    NegativeAmount(Plus(a, b));
    assert ScoreOf(AddScores(a, b).value, Plus(a, b));
  }

  lemma NegativeAmount(n: Num)
    ensures Amount(n) >= 0.0 <==> n.coefficient >= 0
  {
    hide Value;
    SignedValue(n);
    Positive(Abs(n.coefficient), n.exponent);
  }

  lemma RoundedFits(x: real, r: Num)
    requires CorrectlyRounded(x, r)
    ensures Fits(r)
  {
  }

  /** Adding never makes a score smaller. */
  lemma ScoresGrow(a: Num, b: Num)
    requires AddScores(a, b).Some? && IsScore(a) && Amount(b) >= 0.0
    ensures Amount(a) <= Amount(AddScores(a, b).value)
  {
    hide Value, Plus, CorrectlyRounded, Canonical, InLimits;
    var x: Num :| ScoreOf(a, x);
    ScoreIsAmount(a, x);
    SumIsScore(a, b);
    RoundsAbove(Amount(a) + Amount(b), Plus(a, b), x);
  }

  /** Adding keeps the order of scores. */
  lemma ScoresKeepOrder(a: Num, b: Num, c: Num, d: Num)
    requires AddScores(a, b).Some? && AddScores(c, d).Some?
    requires 0.0 <= Amount(a) <= Amount(c) && 0.0 <= Amount(b) <= Amount(d)
    ensures Amount(AddScores(a, b).value) <= Amount(AddScores(c, d).value)
  {
    hide Value, Plus, CorrectlyRounded, Canonical;
    SumIsScore(a, b);
    SumIsScore(c, d);
    RoundingGrows(Amount(a) + Amount(b), Plus(a, b), Amount(c) + Amount(d), Plus(c, d));
  }

  /** Within the precision, scores are added exactly, at whatever exponent. */
  lemma ScoresAddExactly(a: Num, b: Num, i: nat, j: nat, e: int)
    requires AddScores(a, b).Some? && i + j < Ten(PRECISION)
    requires Amount(a) == Value(Decimal(i, e)) && Amount(b) == Value(Decimal(j, e))
    ensures Amount(AddScores(a, b).value) == Value(Decimal(i + j, e))
  {
    hide Value, Ten, Plus, Canonical, InLimits, Digits, CorrectlyRounded;
    var sum := Decimal(i + j, e);
    UnitsAdd(i, j, e);
    NegativeAmount(Decimal(i, e));
    NegativeAmount(Decimal(j, e));
    SumIsScore(a, b);
    DigitsBound(i + j, PRECISION);
    RoundsAbove(Value(sum), Plus(a, b), sum);
    RoundsBelow(Value(sum), Plus(a, b), sum);
  }

  lemma UnitsAdd(i: nat, j: nat, e: int)
    ensures Value(Decimal(i + j, e)) == Value(Decimal(i, e)) + Value(Decimal(j, e))
  {
    hide Power, Times;
    Distribute(i as real, j as real, Power(e));
  }

  lemma UnitsOrder(i: nat, j: nat, e: int)
    ensures i <= j <==> Value(Decimal(i, e)) <= Value(Decimal(j, e))
  {
    hide Power, Times;
    Scaling(i as real, j as real, Power(e));
  }

  // Which scores are shown

  const TOP := Ten(MAX_COEFFICIENT_DIGITS) as real

  const NINES := Decimal(Ten(MAX_COEFFICIENT_DIGITS) - 1, 0)

  /** A canonical number within the limits is below 10^256. */
  lemma LimitedIsBelow(n: Num)
    requires InLimits(n) && n.coefficient >= 0 && n.exponent <= 0
    ensures Amount(n) < TOP
  {
    hide Ten, Digits, Power, Times;
    TenGrows(Digits(n.coefficient), MAX_COEFFICIENT_DIGITS);
    PowerAtMostOne(n.exponent);
    Scaling(Power(n.exponent), 1.0, 1.0);
    BelowWhole(n.coefficient, Power(n.exponent));
  }

  lemma {:induction false} PowerAtMostOne(e: int)
    requires e <= 0
    ensures Power(e) <= 1.0
    decreases -e
  {
    if e < 0 { PowerAtMostOne(e + 1); }
  }

  lemma BelowWhole(c: nat, p: real)
    requires 0.0 < p <= 1.0
    ensures Times(c as real, p) <= c as real
  {
    assert c as real * (1.0 - p) >= 0.0;
  }

  lemma CanonicalExponent(n: Num)
    ensures Canonical(n).exponent <= 0
  {
    hide Ten;
  }

  /** Exactly the scores below 10^256 are within the limits. */
  lemma ScoreLimits(n: Num)
    requires IsScore(n)
    ensures InLimits(n) <==> Amount(n) < TOP
  {
    hide Ten, Digits, Power, Times, Canonical, Fits, Amount, InLimits;
    var x: Num :| ScoreOf(n, x);
    ScoreIsAmount(n, x);
    CanonicalExponent(x);
    NegativeAmount(n);
    if InLimits(n) {
      LimitedIsBelow(n);
    } else {
      CanonicalInLimits(x);
      ExpandedIsLarge(x);
    }
  }

  lemma ExpandedIsLarge(x: Num)
    requires Fits(x) && x.coefficient >= 0 && !Expandable(x)
    ensures Amount(Canonical(x)) >= TOP
  {
    hide Ten, Digits, Value;
    StrippedShrinks(x);
    var s := Stripped(x);
    StrippedSign(x);
    assert s.exponent > 0 && Canonical(x) == Decimal(s.coefficient * Ten(s.exponent), 0);
    DigitsShift(s.coefficient, s.exponent);
    WholeAmount(Canonical(x).coefficient);
    ManyDigits(Canonical(x).coefficient);
  }

  lemma {:induction false} ManyDigits(c: nat)
    requires Digits(c) > MAX_COEFFICIENT_DIGITS
    ensures c >= Ten(MAX_COEFFICIENT_DIGITS)
  {
    hide Ten, Digits;
    DigitsFloor(c);
    TenGrows(MAX_COEFFICIENT_DIGITS, Digits(c) - 1);
  }

  lemma WholeAmount(c: int)
    ensures Amount(Decimal(c, 0)) == c as real
  {
    hide Times;
    PowerOfZero();
    Units(c as real);
  }

  lemma {:induction false} StrippedSign(n: Num)
    requires n.coefficient >= 0
    ensures Stripped(n).coefficient >= 0
    decreases n.coefficient
  {
    if n.coefficient > 0 && n.coefficient % 10 == 0 {
      StrippedSign(Decimal(n.coefficient / 10, n.exponent + 1));
    }
  }

  /** No threshold within the limits reaches 10^256. */
  lemma ThresholdIsBelow(n: Num)
    requires n.coefficient >= 0 && InLimits(Canonical(n))
    ensures Amount(n) < TOP
  {
    hide Value, Canonical, InLimits;
    CanonicalKeepsAmount(n);
    CanonicalExponent(n);
    NegativeAmount(n);
    NegativeAmount(Canonical(n));
    LimitedIsBelow(Canonical(n));
  }

  lemma NinesAreLimited()
    ensures InLimits(NINES) && IsCanonical(NINES) && NINES.coefficient >= 0 && Amount(NINES) == TOP - 1.0
  {
    hide Ten, Digits;
    var n := Ten(MAX_COEFFICIENT_DIGITS);
    TenSum(MAX_COEFFICIENT_DIGITS - 1, 1);
    TenOfOne();
    TenOfZero();
    EndsInNine(Ten(MAX_COEFFICIENT_DIGITS - 1));
    DigitsBound(n - 1, MAX_COEFFICIENT_DIGITS);
    WholeAmount(n - 1);
  }

  lemma EndsInNine(p: nat)
    requires p > 0
    ensures (p * 10 - 1) % 10 == 9
  {
    assert p * 10 - 1 == 10 * (p - 1) + 9;
  }

  /** A score of 28 digits is not a number of 256 nines. */
  lemma ScoreBelowNines(n: Num)
    requires IsScore(n) && Amount(n) < TOP
    ensures Amount(n) < Amount(NINES)
  {
    hide Ten, Digits, Value, Fits, InLimits;
    var x: Num :| ScoreOf(n, x);
    StrippedShrinks(x);
    StrippedSign(x);
    NinesAreLimited();
    CanonicalKeepsAmount(x);
    StrippedKeepsAmount(x);
    FewDigits(x);
    if Stripped(x).exponent <= 0 {
      LimitedAbove(Stripped(x));
    } else {
      WholeAmount(n.coefficient);
      EndsInZero(Stripped(x).coefficient, Stripped(x).exponent);
      if n.coefficient == NINES.coefficient { NinesEnd(); }
    }
  }

  lemma NinesEnd()
    ensures NINES.coefficient % 10 == 9
  {
    hide Ten;
    TenSum(MAX_COEFFICIENT_DIGITS - 1, 1);
    TenOfOne();
    EndsInNine(Ten(MAX_COEFFICIENT_DIGITS - 1));
  }

  lemma {:induction false} FewDigits(x: Num)
    requires Fits(x) && x.coefficient >= 0
    ensures 0 <= Stripped(x).coefficient < Ten(PRECISION)
  {
    hide Ten, Digits;
    StrippedShrinks(x);
    StrippedSign(x);
    TenGrows(Digits(Stripped(x).coefficient), PRECISION);
  }

  lemma LimitedAbove(s: Num)
    requires 0 <= s.coefficient < Ten(PRECISION) && s.exponent <= 0
    ensures Amount(s) < TOP - 1.0
  {
    hide Ten, Power, Times;
    PowerAtMostOne(s.exponent);
    BelowWhole(s.coefficient, Power(s.exponent));
    TenTwice(PRECISION);
    TenGrows(PRECISION + 1, MAX_COEFFICIENT_DIGITS);
    TenGrows(0, PRECISION);
    TenOfZero();
  }

  // Scores of parsed weights

  /** A number of limited scale that is not above so many times 10^256. */
  predicate Modest(n: Num, k: nat) {
    && n.coefficient >= 0 && 0 - MAX_ABSOLUTE_EXPONENT <= n.exponent <= 0
    && Amount(n) <= Amount(Decimal(k, MAX_ABSOLUTE_EXPONENT))
  }

  lemma NothingIsModest()
    ensures Modest(NO_SCORE, 0)
  {
    ZeroIs(0);
    ZeroIs(MAX_ABSOLUTE_EXPONENT);
  }

  lemma WeightIsModest(n: Num)
    requires n.coefficient > 0 && IsCanonical(n) && InLimits(n)
    ensures Modest(n, 1)
  {
    hide Value, Ten, Digits, Canonical;
    CanonicalExponent(n);
    LimitedIsBelow(n);
    Rescaled(1, 0, MAX_ABSOLUTE_EXPONENT);
    WholeAmount(Ten(MAX_ABSOLUTE_EXPONENT));
  }

  lemma ModestGrows(n: Num, j: nat, k: nat)
    requires Modest(n, j) && j <= k
    ensures Modest(n, k)
  {
    hide Value;
    UnitsOrder(j, k, MAX_ABSOLUTE_EXPONENT);
  }

  /** Modest numbers are added within the limits. */
  lemma ModestSums(a: Num, b: Num, i: nat, j: nat)
    requires Modest(a, i) && Modest(b, j) && i + j <= 1024
    ensures AddScores(a, b).Some? && Modest(AddScores(a, b).value, i + j)
  {
    hide Value, Ten, Digits, Plus, CorrectlyRounded, Canonical, InLimits;
    var r, bound := Plus(a, b), Decimal(i + j, MAX_ABSOLUTE_EXPONENT);
    SumIsCorrect(a, b);
    RoundedFits(Amount(a) + Amount(b), r);
    UnitsAdd(i, j, MAX_ABSOLUTE_EXPONENT);
    NegativeAmount(a);
    NegativeAmount(b);
    SmallFits(i + j);
    ZeroIs(0);
    ZeroScores();
    RoundsBelow(Amount(a) + Amount(b), r, bound);
    RoundsAbove(Amount(a) + Amount(b), r, ZERO);
    NegativeAmount(r);
    PlusExponent(a, b, i + j);
    ModestIsLimited(r);
    CanonicalKeepsAmount(r);
    CanonicalScale(r);
  }

  lemma SmallFits(k: nat)
    requires k <= 1024
    ensures Fits(Decimal(k, MAX_ABSOLUTE_EXPONENT))
  {
    hide Ten, Digits;
    FourDigits();
    TenGrows(4, PRECISION);
    DigitsBound(k, PRECISION);
  }

  lemma FourDigits()
    ensures Ten(4) == 10000
  {
  }

  /** The exponent of a modest sum stays within the limits. */
  lemma PlusExponent(a: Num, b: Num, k: nat)
    requires 0 - MAX_ABSOLUTE_EXPONENT <= a.exponent <= 0 && 0 - MAX_ABSOLUTE_EXPONENT <= b.exponent <= 0
    requires Plus(a, b).coefficient >= 0 && k <= 1024
    requires Amount(Plus(a, b)) <= Amount(Decimal(k, MAX_ABSOLUTE_EXPONENT))
    ensures 0 - MAX_ABSOLUTE_EXPONENT <= Plus(a, b).exponent <= MAX_ABSOLUTE_EXPONENT
  {
    hide Value, Ten, Digits, Rounded;
    var x, r := ExactSum(a, b), Plus(a, b);
    RoundedExponent(x);
    RoundedScale(x);
    if r.exponent > MAX_ABSOLUTE_EXPONENT {
      var n := r.exponent - MAX_ABSOLUTE_EXPONENT;
      Rescaled(r.coefficient, MAX_ABSOLUTE_EXPONENT, n);
      UnitsOrder(r.coefficient * Ten(n), k, MAX_ABSOLUTE_EXPONENT);
      TenGrows(0, n);
      TenOfZero();
      Grown(r.coefficient, Ten(n));
      FourDigits();
      TenGrows(4, PRECISION - 2);
    }
  }

  /** A number that is rounded keeps all but one of the digits of the precision. */
  lemma RoundedScale(x: Num)
    ensures Rounded(x) == x || Abs(Rounded(x).coefficient) >= Ten(PRECISION - 2)
  {
    hide Ten, Digits, Leading;
    if !Fits(x) {
      LeadingBounds(x);
      TenSum(PRECISION - 2, 1);
      TenOfOne();
      TenthAtLeast(Leading(x), Ten(PRECISION - 2));
    }
  }

  lemma TenthAtLeast(c: int, p: nat)
    requires Abs(c) >= p * 10
    ensures Abs(c / 10) >= p && Abs(c) >= p
  {
  }

  lemma ModestIsLimited(r: Num)
    requires Fits(r) && r.coefficient >= 0 && Abs(r.exponent) <= MAX_ABSOLUTE_EXPONENT
    ensures InLimits(r)
  {
    hide Digits;
  }

  lemma CanonicalScale(r: Num)
    requires r.coefficient >= 0 && r.exponent >= 0 - MAX_ABSOLUTE_EXPONENT
    ensures 0 - MAX_ABSOLUTE_EXPONENT <= Canonical(r).exponent <= 0 && Canonical(r).coefficient >= 0
  {
    hide Ten, Digits;
    StrippedShrinks(r);
    StrippedSign(r);
    if Stripped(r).exponent >= 0 { Grows(Stripped(r).coefficient, Ten(Stripped(r).exponent)); }
  }

  // Where rounding shows

  /** Tenths are added to a number of 28 digits by rounding half to even. */
  lemma TenthsRound(c: nat, t: nat, r: nat)
    requires Ten(PRECISION - 1) <= c && 10 * c + t < Ten(PRECISION + 1)
    requires r == RoundRatio(10 * c + t, 10, HalfEven) && r < Ten(PRECISION) && r % 10 != 0
    ensures AddScores(Decimal(c, 0), Decimal(t, -1)) == Some(Decimal(r, 0))
  {
    hide Ten, Digits, RoundRatio, Rounded;
    TenOfZero();
    assert ExactSum(Decimal(c, 0), Decimal(t, -1)) == Decimal(10 * c + t, -1) by { TenOfOne(); }
    LastDigitRounds(10 * c + t, -1, r);
    FitsInLimits(r);
  }

  lemma FitsInLimits(r: nat)
    requires r < Ten(PRECISION) && r % 10 != 0
    ensures CanonicalNumber(Decimal(r, 0)) == Some(Decimal(r, 0))
  {
    hide Ten, Digits;
    TenOfZero();
    DigitsBound(r, PRECISION);
  }

  /** A canonical score of at most 28 digits is its own sum with nothing. */
  lemma NothingAdds(n: Num)
    requires Fits(n) && IsCanonical(n) && n.coefficient >= 0 && n.exponent <= 0 && Abs(n.exponent) <= 256
    ensures AddScores(NO_SCORE, n) == Some(n) && AddScores(n, NO_SCORE) == Some(n)
  {
    hide Ten, Digits, Canonical;
    TenOfZero();
    assert ExactSum(NO_SCORE, n) == n && ExactSum(n, NO_SCORE) == n;
  }
}
