/** The numbers of the rule language: the limits on their size, and their canonical form. */
module RuleNumbers {
  import opened StateMachine
  import opened Decimals
  import opened DecimalContext
  import DecimalText

  type Num = Decimal

  const MAX_COEFFICIENT_DIGITS: nat := 256
  const MAX_ABSOLUTE_EXPONENT: nat := 256
  const MAX_CHARACTERS: nat := 512

  /** The real number. */
  function Amount(n: Num): real {
    Value(n)
  }

  // Limits

  /** How many characters the number takes when it is written without an exponent. */
  function Characters(n: Num): int {
    var digits := Digits(Abs(n.coefficient));
    var sign := if n.coefficient < 0 then 1 else 0;
    if n.exponent >= 0 then sign + digits + n.exponent
    else if digits + n.exponent > 0 then sign + digits + 1
    else sign + 2 - (digits + n.exponent) + digits
  }

  predicate InLimits(n: Num) {
    && Digits(Abs(n.coefficient)) <= MAX_COEFFICIENT_DIGITS
    && Abs(n.exponent) <= MAX_ABSOLUTE_EXPONENT
    && Characters(n) <= MAX_CHARACTERS
  }

  // Canonical form

  /** The number without trailing zeros. */
  function Stripped(n: Num): Num
    decreases Abs(n.coefficient)
  {
    if n.coefficient == 0 then ZERO
    else if n.coefficient % 10 == 0 then Stripped(Decimal(n.coefficient / 10, n.exponent + 1))
    else n
  }

  /** The number without trailing zeros behind the point and without an exponent above zero. */
  function Canonical(n: Num): Num {
    var s := Stripped(n);
    if s.exponent >= 0 then Decimal(s.coefficient * Ten(s.exponent), 0) else s
  }

  predicate IsCanonical(n: Num) {
    Canonical(n) == n
  }

  /** The canonical form of a number within the limits. */
  function CanonicalNumber(n: Num): Option<Num> {
    if InLimits(n) then Some(Canonical(n)) else None
  }

  lemma PositiveAmount(n: Num)
    ensures Amount(n) > 0.0 <==> n.coefficient > 0
  {
    hide Value;
    SignedValue(n);
  }

  lemma {:induction false} StrippedKeepsAmount(n: Num)
    ensures Amount(Stripped(n)) == Amount(n)
    ensures n.coefficient != 0 ==> Stripped(n).coefficient % 10 != 0
    decreases Abs(n.coefficient)
  {
    hide Value;
    if n.coefficient == 0 {
      ZeroIs(n.exponent);
      ZeroIs(0);
    } else if n.coefficient % 10 == 0 {
      LosesZero(n);
      StrippedKeepsAmount(Decimal(n.coefficient / 10, n.exponent + 1));
    }
  }

  lemma CanonicalKeepsAmount(n: Num)
    ensures Amount(Canonical(n)) == Amount(n)
  {
    hide Value, Ten, Stripped;
    StrippedKeepsAmount(n);
    var s := Stripped(n);
    if s.exponent >= 0 {
      Rescaled(s.coefficient, 0, s.exponent);
    }
  }

  /** Two numbers have the same canonical form exactly when they are the same number. */
  lemma CanonicalIsUnique(a: Num, b: Num)
    ensures Canonical(a) == Canonical(b) <==> Amount(a) == Amount(b)
  {
    hide Value, Ten, Stripped, Canonical;
    CanonicalKeepsAmount(a);
    CanonicalKeepsAmount(b);
    if Amount(a) == Amount(b) {
      StrippedIsUnique(a, b);
      SameStripped(a, b);
    }
  }

  lemma {:induction false} SameStripped(a: Num, b: Num)
    requires Stripped(a) == Stripped(b)
    ensures Canonical(a) == Canonical(b)
  {
    hide Stripped;
  }

  lemma {:induction false} StrippedIsUnique(a: Num, b: Num)
    requires Amount(a) == Amount(b)
    ensures Stripped(a) == Stripped(b)
  {
    hide Value;
    SignedValue(a);
    SignedValue(b);
    if a.coefficient != 0 {
      StrippedKeepsAmount(a);
      StrippedKeepsAmount(b);
      ScaleIsUnique(Stripped(a), Stripped(b));
    }
  }

  lemma ScaleIsUnique(m: Num, n: Num)
    requires m.coefficient % 10 != 0 && n.coefficient % 10 != 0 && Value(m) == Value(n)
    ensures m == n
  {
    hide Value;
    SignedValue(m);
    SignedValue(n);
    PositiveValue(m);
    PositiveValue(n);
    DecimalText.ScaleIsUnique(Abs(m.coefficient), m.exponent, Abs(n.coefficient), n.exponent);
  }

  lemma PositiveValue(n: Num)
    requires n.coefficient != 0
    ensures Value(Absolute(n)) > 0.0 && Absolute(n) == Decimal(Abs(n.coefficient), n.exponent)
    ensures n.coefficient % 10 != 0 ==> Abs(n.coefficient) % 10 != 0
  {
  }

  lemma CanonicalTwice(n: Num)
    ensures IsCanonical(Canonical(n))
  {
    hide Value, Canonical;
    CanonicalKeepsAmount(n);
    CanonicalIsUnique(Canonical(n), n);
  }

  // Which numbers survive their own canonical form

  /** The digits of the number written out, without trailing zeros behind the point, are not too many. */
  predicate Expandable(n: Num) {
    var s := Stripped(n);
    Digits(Abs(s.coefficient)) + (if s.exponent > 0 then s.exponent else 0) <= MAX_COEFFICIENT_DIGITS
  }

  /** The canonical form of a number within the limits is within the limits exactly if the number
      written out has at most 256 digits: the exponent alone may exceed them. */
  lemma CanonicalInLimits(n: Num)
    requires InLimits(n)
    ensures InLimits(Canonical(n)) <==> Expandable(n)
  {
    hide Digits, Ten;
    StrippedShrinks(n);
    var s := Stripped(n);
    if s.exponent >= 0 {
      DigitsShift(s.coefficient, s.exponent);
    }
  }

  lemma {:induction false} StrippedShrinks(n: Num)
    ensures var s := Stripped(n);
            && Digits(Abs(s.coefficient)) <= Digits(Abs(n.coefficient))
            && (n.coefficient != 0 ==> s.exponent >= n.exponent && s.coefficient != 0)
    decreases Abs(n.coefficient)
  {
    if n.coefficient != 0 && n.coefficient % 10 == 0 {
      var next := Decimal(n.coefficient / 10, n.exponent + 1);
      assert Abs(next.coefficient) == Abs(n.coefficient) / 10;
      StrippedShrinks(next);
    }
  }

  lemma {:induction false} DigitsShift(c: int, n: nat)
    ensures Digits(Abs(c * Ten(n))) == Digits(Abs(c)) + if c == 0 then 0 else n
  {
    hide Digits;
    AbsProduct(c, Ten(n));
    if c == 0 {
      assert Abs(c) * Ten(n) == 0;
    } else {
      DigitsOfShift(Abs(c), n);
    }
  }

  lemma {:induction false} DigitsOfShift(c: nat, n: nat)
    requires c > 0
    ensures Digits(c * Ten(n)) == Digits(c) + n
  {
    hide Digits;
    if n > 0 {
      DigitsOfShift(c, n - 1);
      Smaller(0, c, Ten(n - 1));
      TenfoldDigits(c, Ten(n - 1));
    }
  }

  lemma {:induction false} TenfoldDigits(c: nat, p: nat)
    requires c * p > 0
    ensures Digits(c * (10 * p)) == Digits(c * p) + 1
  {
    assert c * (10 * p) == 10 * (c * p);
    MoreDigits(c * p);
  }

  lemma NextTen(d: nat)
    requires d > 0
    ensures Ten(d + 1) == 10 * Ten(d) && Ten(d) == 10 * Ten(d - 1)
  {
  }

  lemma {:induction false} MoreDigits(p: nat)
    requires p > 0
    ensures Digits(10 * p) == Digits(p) + 1
  {
    hide Digits, Ten;
    var d := Digits(p);
    FirstDigit(p);
    NextTen(d);
    DigitsBound(10 * p, d + 1);
    if Digits(10 * p) <= d { TenGrows(Digits(10 * p), d); }
  }

  /** The square of 10^200 is rounded to an exponent beyond the limits. */
  lemma SquareOverflows()
    ensures var n := Canonical(Decimal(1, 200));
            InLimits(Decimal(1, 200)) && !InLimits(ProductOf([n, n]))
  {
    hide Ten, Digits, Rounded;
    var n := Canonical(Decimal(1, 200));
    DigitsShift(1, 200);
    OneDigit();
    assert n == Decimal(1 * Ten(200), 0);
    var first := Product(ONE, n);
    RoundedExponent(Decimal(1 * n.coefficient, 0));
    DigitsShift(first.coefficient, 200);
    RoundedExponent(Decimal(first.coefficient * n.coefficient, first.exponent));
    assert [n, n][..1] == [n] && [n][..0] == [];
    assert ProductOf([n]) == first;
    assert ProductOf([n, n]) == Product(first, n);
  }

  lemma OneDigit()
    ensures Digits(1) == 1
  {
  }

  /** 1E+256 is within the limits, and its canonical form is not. */
  lemma PowerIsNotExpandable()
    ensures InLimits(Decimal(1, 256)) && !InLimits(Canonical(Decimal(1, 256)))
  {
    CanonicalInLimits(Decimal(1, 256));
  }
}
