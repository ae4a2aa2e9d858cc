/** The text of a decimal: one text per numeric value, and reading it back gives the value. */
module DecimalText {
  import opened Decimals

  /** A finite decimal as it is held: a sign, which zero has too, a coefficient and an exponent. */
  datatype Held = Held(negative: bool, coefficient: nat, exponent: int)

  function ValueOf(d: Held): real {
    if d.negative then -Value(Decimal(d.coefficient, d.exponent)) else Value(Decimal(d.coefficient, d.exponent))
  }

  // Digit strings

  predicate IsDigit(c: char) {
    '0' <= c <= '9'
  }

  predicate AllDigits(s: string) {
    forall i :: 0 <= i < |s| ==> IsDigit(s[i])
  }

  function DigitOf(c: char): nat
    requires IsDigit(c)
  {
    c as int - '0' as int
  }

  function CharOf(n: nat): (c: char)
    requires n < 10
    ensures IsDigit(c) && DigitOf(c) == n
  {
    ('0' as int + n) as char
  }

  function NumberOf(s: string): nat
    requires AllDigits(s)
  {
    if s == "" then 0 else NumberOf(s[..|s| - 1]) * 10 + DigitOf(s[|s| - 1])
  }

  function DigitText(n: nat): (s: string)
    ensures AllDigits(s) && s != "" && NumberOf(s) == n && (n > 0 ==> s[0] != '0')
  {
    if n < 10 then [CharOf(n)]
    else
      var s := DigitText(n / 10) + [CharOf(n % 10)];
      assert s[..|s| - 1] == DigitText(n / 10);
      s
  }

  function Zeros(n: nat): (s: string)
    ensures |s| == n && AllDigits(s)
  {
    seq(n, _ => '0')
  }

  function StripZeros(s: string): (r: string)
    requires AllDigits(s)
    ensures AllDigits(r) && r <= s
    ensures r != "" ==> r[|r| - 1] != '0'
  {
    if s != "" && s[|s| - 1] == '0' then StripZeros(s[..|s| - 1]) else s
  }

  lemma {:induction false} NumberShifts(s: string, n: nat)
    requires AllDigits(s)
    ensures AllDigits(s + Zeros(n)) && NumberOf(s + Zeros(n)) == NumberOf(s) * Ten(n)
  {
    if n == 0 {
      assert s + Zeros(0) == s;
    } else {
      var longer := s + Zeros(n);
      assert longer[..|longer| - 1] == s + Zeros(n - 1) && longer[|longer| - 1] == '0';
      NumberShifts(s, n - 1);
    }
  }

  lemma {:induction false} LeadingZeros(s: string, n: nat)
    requires AllDigits(s)
    ensures AllDigits(Zeros(n) + s) && NumberOf(Zeros(n) + s) == NumberOf(s)
    decreases |s|
  {
    var longer := Zeros(n) + s;
    if s == "" {
      ZerosAreZero(n);
      assert longer == Zeros(n);
    } else {
      assert longer[..|longer| - 1] == Zeros(n) + s[..|s| - 1];
      LeadingZeros(s[..|s| - 1], n);
    }
  }

  lemma {:induction false} ZerosAreZero(n: nat)
    ensures NumberOf(Zeros(n)) == 0
  {
    if n > 0 {
      assert Zeros(n)[..n - 1] == Zeros(n - 1);
      ZerosAreZero(n - 1);
    }
  }

  /** Stripping trailing zeros divides by a power of ten. */
  lemma {:induction false} StripDivides(s: string)
    requires AllDigits(s)
    ensures NumberOf(s) == NumberOf(StripZeros(s)) * Ten(|s| - |StripZeros(s)|)
  {
    if s != "" && s[|s| - 1] == '0' {
      StripDivides(s[..|s| - 1]);
    }
  }

  lemma {:induction false} PositiveNumber(s: string)
    requires AllDigits(s) && s != "" && s[0] != '0'
    ensures NumberOf(s) > 0 && (|s| > 1 ==> NumberOf(s) >= 10)
  {
    if |s| > 1 {
      PositiveNumber(s[..|s| - 1]);
    }
  }

  /** Without leading zeros a number has one digit string. */
  lemma {:induction false} DigitsAreUnique(s: string, t: string)
    requires AllDigits(s) && AllDigits(t) && s != "" && t != "" && s[0] != '0' && t[0] != '0'
    requires NumberOf(s) == NumberOf(t)
    ensures s == t
  {
    PositiveNumber(s);
    PositiveNumber(t);
    assert DigitOf(s[|s| - 1]) == DigitOf(t[|t| - 1]) by {
      assert NumberOf(s) % 10 == DigitOf(s[|s| - 1]) && NumberOf(t) % 10 == DigitOf(t[|t| - 1]);
    }
    if |s| > 1 {
      DigitsAreUnique(s[..|s| - 1], t[..|t| - 1]);
    }
    assert s == s[..|s| - 1] + [s[|s| - 1]] && t == t[..|t| - 1] + [t[|t| - 1]];
  }

  // The text

  function Layout(digits: string, exponent: int): string {
    var point := |digits| + exponent;
    if exponent >= 0 then digits + Zeros(exponent)
    else if point > 0 then digits[..point] + "." + digits[point..]
    else "0." + Zeros(-point) + digits
  }

  function Text(d: Held): string {
    if d.coefficient == 0 then "0"
    else
      var all := DigitText(d.coefficient);
      var digits := StripZeros(all);
      (if d.negative then "-" else "") + Layout(digits, d.exponent + (|all| - |digits|))
  }

  // Reading

  function PointIn(s: string): (r: nat)
    ensures r <= |s| && (r < |s| ==> s[r] == '.') && forall i :: 0 <= i < r ==> s[i] != '.'
  {
    if s == "" then 0 else if s[0] == '.' then 0 else 1 + PointIn(s[1..])
  }

  function ReadUnsigned(s: string): Checked<Decimal> {
    var p := PointIn(s);
    if p == |s| then (if s != "" && AllDigits(s) then Ok(Decimal(NumberOf(s), 0)) else Rejected)
    else
      var all := s[..p] + s[p + 1..];
      if all != "" && AllDigits(all) then Ok(Decimal(NumberOf(all), -(|s| - p - 1))) else Rejected
  }

  function Read(s: string): Checked<Held> {
    var negative := s != "" && s[0] == '-';
    match ReadUnsigned(if negative then s[1..] else s)
    case Ok(d) => if d.coefficient < 0 then Rejected else Ok(Held(negative, d.coefficient, d.exponent))
    case Rejected => Rejected
  }

  lemma {:induction false} PointAt(s: string, p: nat)
    requires p < |s| && s[p] == '.' && forall i :: 0 <= i < p ==> s[i] != '.'
    ensures PointIn(s) == p
  {
    var r := PointIn(s);
    assert r <= p;
  }

  lemma {:induction false} NoPoint(s: string)
    requires AllDigits(s)
    ensures PointIn(s) == |s|
  {
  }

  /** A text that is read as a number and is not taken for a negative one. */
  predicate ReadsAs(s: string, value: real) {
    && s != "" && s[0] != '-'
    && ReadUnsigned(s).Ok? && ReadUnsigned(s).value.coefficient >= 0
    && Value(ReadUnsigned(s).value) == value
  }

  lemma {:induction false} WholeReads(digits: string, n: nat)
    requires AllDigits(digits) && digits != ""
    ensures ReadsAs(digits + Zeros(n), Value(Decimal(NumberOf(digits), n)))
  {
    hide Value, NumberOf, Ten;
    NumberShifts(digits, n);
    NoPoint(digits + Zeros(n));
    Rescaled(NumberOf(digits), 0, n);
  }

  /** A point between digits shifts by the number of digits behind it. */
  lemma {:induction false} ReadsAtPoint(a: string, b: string)
    requires a != "" && AllDigits(a) && AllDigits(b) && AllDigits(a + b)
    ensures ReadsAs(a + "." + b, Value(Decimal(NumberOf(a + b), -|b|)))
  {
    hide Value, NumberOf, AllDigits, PointIn;
    var s := a + "." + b;
    DigitsHaveNoPoint(a);
    Around(a, b);
    PointAt(s, |a|);
  }

  lemma Around(a: string, b: string)
    ensures var s := a + "." + b;
            |s| == |a| + 1 + |b| && s[|a|] == '.' && s[..|a|] == a && s[|a| + 1..] == b
            && (forall i :: 0 <= i < |a| ==> s[i] == a[i])
  {
  }

  lemma DigitsHaveNoPoint(s: string)
    requires AllDigits(s)
    ensures forall i :: 0 <= i < |s| ==> s[i] != '.' && s[i] != '-'
  {
  }

  lemma {:induction false} PointReads(digits: string, point: nat)
    requires AllDigits(digits) && 0 < point < |digits|
    ensures ReadsAs(digits[..point] + "." + digits[point..], Value(Decimal(NumberOf(digits), point - |digits|)))
  {
    hide Value, NumberOf, ReadsAs;
    assert digits[..point] + digits[point..] == digits;
    ReadsAtPoint(digits[..point], digits[point..]);
  }

  lemma {:induction false} FractionReads(digits: string, zeros: nat)
    requires AllDigits(digits) && digits != ""
    ensures ReadsAs("0." + Zeros(zeros) + digits, Value(Decimal(NumberOf(digits), -(zeros + |digits|))))
  {
    hide Value, NumberOf, ReadsAs;
    var behind := Zeros(zeros) + digits;
    assert "0" + behind == Zeros(zeros + 1) + digits;
    LeadingZeros(digits, zeros + 1);
    ReadsAtPoint("0", behind);
    assert "0" + "." + behind == "0." + Zeros(zeros) + digits;
  }

  /** The layout of a number's digits is read as the number at its exponent. */
  lemma {:induction false} LayoutReads(digits: string, exponent: int)
    requires AllDigits(digits) && digits != ""
    ensures ReadsAs(Layout(digits, exponent), Value(Decimal(NumberOf(digits), exponent)))
  {
    hide Value, NumberOf, ReadsAs;
    if exponent >= 0 {
      WholeReads(digits, exponent);
    } else if |digits| + exponent > 0 {
      PointReads(digits, |digits| + exponent);
    } else {
      FractionReads(digits, -(|digits| + exponent));
    }
  }

  lemma EmptyIsZero(p: nat)
    ensures NumberOf("") * p == 0
  {
  }

  lemma {:induction false} LastDigit(s: string)
    requires AllDigits(s) && s != "" && s[|s| - 1] != '0'
    ensures NumberOf(s) % 10 != 0
  {
  }

  lemma Stripped(d: Held)
    requires d.coefficient > 0
    ensures var all := DigitText(d.coefficient);
            var digits := StripZeros(all);
            && digits != "" && digits[0] != '0' && NumberOf(digits) % 10 != 0
            && Value(Decimal(NumberOf(digits), d.exponent + (|all| - |digits|)))
                == Value(Decimal(d.coefficient, d.exponent))
  {
    hide Value, NumberOf, Ten;
    var all := DigitText(d.coefficient);
    var digits := StripZeros(all);
    StripDivides(all);
    EmptyIsZero(Ten(|all| - |digits|));
    LastDigit(digits);
    Rescaled(NumberOf(digits), d.exponent, |all| - |digits|);
  }

  /** Reading the text of a decimal back gives its value. */
  lemma TextReads(d: Held)
    ensures Read(Text(d)).Ok? && ValueOf(Read(Text(d)).value) == ValueOf(d)
  {
    hide Value, StripZeros, Layout, ReadUnsigned;
    if d.coefficient == 0 {
      ZeroReads(d);
    } else {
      var all := DigitText(d.coefficient);
      var digits := StripZeros(all);
      var exponent := d.exponent + (|all| - |digits|);
      Stripped(d);
      LayoutReads(digits, exponent);
      var unsigned := Layout(digits, exponent);
      assert ("-" + unsigned)[1..] == unsigned && "" + unsigned == unsigned;
    }
  }

  lemma ZeroReads(d: Held)
    requires d.coefficient == 0
    ensures Read("0").Ok? && ValueOf(Read("0").value) == ValueOf(d)
  {
    hide Power;
    assert "0"[..0] == "" && NumberOf("0") == 0;
    NoPoint("0");
    assert ReadUnsigned("0") == Ok(Decimal(0, 0));
  }

  /** Two scaled numbers that do not end in a zero are equal only if they are the same. */
  lemma {:induction false} ScaleIsUnique(m: nat, e: int, n: nat, f: int)
    requires m % 10 != 0 && n % 10 != 0 && Value(Decimal(m, e)) == Value(Decimal(n, f))
    ensures m == n && e == f
  {
    hide Value;
    if e >= f {
      Rescaled(m, f, e - f);
      EqualAtScale(m * Ten(e - f), n, f);
      if e > f { EndsInZero(m, e - f); }
    } else {
      Rescaled(n, e, f - e);
      EqualAtScale(m, n * Ten(f - e), e);
      EndsInZero(n, f - e);
    }
  }

  lemma EqualAtScale(a: int, b: int, e: int)
    requires Value(Decimal(a, e)) == Value(Decimal(b, e))
    ensures a == b
  {
    hide Times, Power;
    Scaling(a as real, b as real, Power(e));
    Scaling(b as real, a as real, Power(e));
  }

  lemma SignOf(d: Held)
    ensures ValueOf(d) == 0.0 <==> d.coefficient == 0
    ensures d.coefficient > 0 ==> (ValueOf(d) < 0.0 <==> d.negative)
  {
    hide Times, Power;
    Signs(d.coefficient as real, Power(d.exponent));
  }

  /** Two decimals have the same text exactly when they have the same value, whatever their scale
      or the sign of a zero. */
  lemma TextIsCanonical(a: Held, b: Held)
    ensures Text(a) == Text(b) <==> ValueOf(a) == ValueOf(b)
  {
    hide Value, StripZeros, Layout, Read, DigitText, NumberOf;
    TextReads(a);
    TextReads(b);
    if ValueOf(a) == ValueOf(b) {
      SignOf(a);
      SignOf(b);
      if a.coefficient > 0 {
        Stripped(a);
        Stripped(b);
        SameStripped(a, b);
      }
    }
  }

  lemma SameStripped(a: Held, b: Held)
    requires a.coefficient > 0 && b.coefficient > 0
    requires Value(Decimal(a.coefficient, a.exponent)) == Value(Decimal(b.coefficient, b.exponent))
    ensures var x, y := DigitText(a.coefficient), DigitText(b.coefficient);
            && StripZeros(x) == StripZeros(y)
            && a.exponent + (|x| - |StripZeros(x)|) == b.exponent + (|y| - |StripZeros(y)|)
  {
    hide Value, StripZeros, DigitText;
    Stripped(a);
    Stripped(b);
    var x, y := DigitText(a.coefficient), DigitText(b.coefficient);
    var s, t := StripZeros(x), StripZeros(y);
    ScaleIsUnique(NumberOf(s), a.exponent + (|x| - |s|), NumberOf(t), b.exponent + (|y| - |t|));
    DigitsAreUnique(s, t);
  }
}
