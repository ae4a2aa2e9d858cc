/** Where costs stay within the limits: what can be computed for a quantity can be computed for every
    smaller one on the same scale. */
module CostLimits {
  import opened StateMachine
  import opened Decimals
  import opened Costs
  import opened Sizing

  /** Not negative, and not above the other number on the same scale. */
  predicate Beneath(a: Decimal, b: Decimal) {
    a.exponent == b.exponent && 0 <= a.coefficient <= b.coefficient
  }

  // One operation

  lemma {:induction false} FewerDigits(x: nat, y: nat)
    requires x <= y
    ensures Digits(x) <= Digits(y)
  {
    hide Digits, Ten;
    DigitsBound(x, Digits(y));
  }

  lemma StaysRepresentable(a: Decimal, b: Decimal)
    requires Beneath(a, b) && Representable(b)
    ensures Representable(a)
  {
    hide Digits;
    FewerDigits(a.coefficient, b.coefficient);
  }

  lemma ProductsBeneath(a: Decimal, b: Decimal, f: Decimal)
    requires Beneath(a, b) && f.coefficient >= 0 && MultiplyDecimals(b, f).Ok?
    ensures MultiplyDecimals(a, f).Ok? && Beneath(MultiplyDecimals(a, f).value, MultiplyDecimals(b, f).value)
  {
    hide Digits, Value;
    StaysRepresentable(a, b);
    FewerDigits(a.coefficient, b.coefficient);
    ProductsFit(a, f);
    MoreTimes(a.coefficient, b.coefficient, f.coefficient);
  }

  lemma MoreTimes(x: int, y: int, p: int)
    requires 0 <= x <= y && p >= 0
    ensures 0 <= x * p <= y * p
  {
  }

  lemma SumsBeneath(a: Decimal, b: Decimal, x: Decimal, y: Decimal)
    requires Beneath(a, b) && Beneath(x, y) && AddDecimals(b, y).Ok?
    ensures AddDecimals(a, x).Ok? && Beneath(AddDecimals(a, x).value, AddDecimals(b, y).value)
  {
    hide Digits, Value, Ten;
    StaysRepresentable(a, b);
    StaysRepresentable(x, y);
    FewerDigits(a.coefficient, b.coefficient);
    FewerDigits(x.coefficient, y.coefficient);
    var e := Min(a.exponent, x.exponent);
    var p, q := Ten(a.exponent - e), Ten(x.exponent - e);
    MoreTimes(a.coefficient, b.coefficient, p);
    MoreTimes(x.coefficient, y.coefficient, q);
    FewerDigits(a.coefficient * p + x.coefficient * q, b.coefficient * p + y.coefficient * q);
  }

  lemma RoundsInOrder(m: nat, n: nat, d: nat, mode: RoundingMode)
    requires m <= n && d > 0
    ensures 0 <= RoundRatio(m, d, mode) <= RoundRatio(n, d, mode)
  {
    hide Over, Times, Rounds, RoundRatio;
    RatioRounds(m, d, mode);
    RatioRounds(n, d, mode);
    OverInOrder(0, m, d);
    OverInOrder(m, n, d);
    OverZero(d);
    ZeroRounds(mode);
    RoundingIsMonotone(0.0, Over(m as real, d as real), mode, 0, RoundRatio(m, d, mode));
    RoundingIsMonotone(Over(m as real, d as real), Over(n as real, d as real), mode, RoundRatio(m, d, mode),
                       RoundRatio(n, d, mode));
  }

  lemma OverZero(d: nat)
    requires d > 0
    ensures Over(0.0, d as real) == 0.0
  {
  }

  lemma OverInOrder(m: nat, n: nat, d: nat)
    requires m <= n && d > 0
    ensures Over(m as real, d as real) <= Over(n as real, d as real)
  {
    hide Over, Times;
    OverTimes(m as real, d as real);
    OverTimes(n as real, d as real);
    Scaling(Over(m as real, d as real), Over(n as real, d as real), d as real);
  }

  lemma RatiosBeneath(a: Decimal, b: Decimal, quantum: Decimal)
    requires Beneath(a, b) && Ratio(b, quantum).Ok?
    ensures Ratio(a, quantum).Ok? && Ratio(a, quantum).value.1 == Ratio(b, quantum).value.1 > 0
    ensures 0 <= Ratio(a, quantum).value.0 <= Ratio(b, quantum).value.0
  {
    hide Digits, Value, Ten, Over;
    StaysRepresentable(a, b);
    FewerDigits(a.coefficient, b.coefficient);
    var difference := a.exponent - quantum.exponent;
    if difference >= 0 {
      MoreTimes(a.coefficient, b.coefficient, Ten(difference));
    }
  }

  lemma MoneyBeneath(p: Profile, a: Decimal, b: Decimal)
    requires Beneath(a, b) && p.Money(b).Ok?
    ensures p.Money(a).Ok? && Beneath(p.Money(a).value, p.Money(b).value)
    ensures p.Money(a).value.exponent == p.quantum.exponent
  {
    hide Digits, Value, Over, Ratio, RoundRatio;
    RatiosBeneath(a, b, p.quantum);
    var (m, d) := Ratio(a, p.quantum).value;
    var (n, e) := Ratio(b, p.quantum).value;
    RoundsInOrder(m, n, d, p.mode);
    QuantumIsPositive(b, p.quantum);
    var j, k := RoundRatio(m, d, p.mode), RoundRatio(n, d, p.mode);
    MoreTimes(j, k, p.quantum.coefficient);
    StaysRepresentable(Decimal(j * p.quantum.coefficient, p.quantum.exponent),
                       Decimal(k * p.quantum.coefficient, p.quantum.exponent));
  }

  lemma QuantumIsPositive(b: Decimal, quantum: Decimal)
    requires Ratio(b, quantum).Ok?
    ensures quantum.coefficient > 0
  {
  }

  // A purchase

  /** All parts of a purchase are beneath those of another one, in quanta. */
  predicate PurchaseBeneath(p: Profile, a: Purchase, b: Purchase) {
    && Beneath(a.gross, b.gross) && Beneath(a.total, b.total)
    && a.gross.exponent == a.total.exponent == p.quantum.exponent
  }

  /** What a quantity can be bought for can be computed for every smaller one on the same scale. */
  lemma PurchasesBeneath(p: Profile, a: Decimal, b: Decimal, price: Decimal)
    requires p.Valid() && Beneath(a, b) && PurchaseCost(p, b, price).Ok?
    ensures PurchaseCost(p, a, price).Ok?
    ensures PurchaseBeneath(p, PurchaseCost(p, a, price).value, PurchaseCost(p, b, price).value)
  {
    hide Value, MultiplyDecimals, AddDecimals, RoundToQuantum;
    RatesAreNonNegative(p);
    PositiveCoefficient(a);
    PositiveCoefficient(price);
    var u, v := MultiplyDecimals(a, price), MultiplyDecimals(b, price).value;
    ProductsBeneath(a, b, price);
    MoneyBeneath(p, u.value, v);
    var g, h := p.Money(u.value).value, p.Money(v).value;
    ProductsBeneath(g, h, p.purchaseSlippage);
    var s, t := MultiplyDecimals(g, p.purchaseSlippage).value, MultiplyDecimals(h, p.purchaseSlippage).value;
    MoneyBeneath(p, s, t);
    SumsBeneath(g, h, p.Money(s).value, p.Money(t).value);
    var l, m := AddDecimals(g, p.Money(s).value).value, AddDecimals(h, p.Money(t).value).value;
    ProductsBeneath(l, m, p.purchaseFee);
    var x, y := MultiplyDecimals(l, p.purchaseFee).value, MultiplyDecimals(m, p.purchaseFee).value;
    MoneyBeneath(p, x, y);
    SumsBeneath(l, m, p.Money(x).value, p.Money(y).value);
    MoneyBeneath(p, AddDecimals(l, p.Money(x).value).value, AddDecimals(m, p.Money(y).value).value);
  }

  lemma RatesAreNonNegative(p: Profile)
    requires p.Valid()
    ensures p.purchaseSlippage.coefficient >= 0 && p.purchaseFee.coefficient >= 0
  {
    hide Value;
    var rates := [p.purchaseFee, p.saleFee, p.saleTax, p.purchaseSlippage, p.saleSlippage];
    assert p.purchaseFee in rates && p.purchaseSlippage in rates;
    PositiveCoefficient(p.purchaseSlippage);
    PositiveCoefficient(p.purchaseFee);
  }

  lemma ZeroCoefficient(d: Decimal)
    ensures Value(d) == 0.0 <==> d.coefficient == 0
  {
    PositiveCoefficient(d);
  }

  // Total cash

  /** Every purchase of the first quantities can be computed and is beneath that of the second ones. */
  predicate CostsBeneath(c: Configuration, price: Decimal, a: seq<Decimal>, b: seq<Decimal>) {
    && |a| == |b|
    && forall i :: 0 <= i < |a| ==>
         && PurchaseCost(c.profile, a[i], price).Ok? && PurchaseCost(c.profile, b[i], price).Ok?
         && PurchaseBeneath(c.profile, PurchaseCost(c.profile, a[i], price).value,
                            PurchaseCost(c.profile, b[i], price).value)
  }

  /** Then the total cash of the first ones can be computed if that of the second ones can. */
  lemma {:induction false} CashBeneath(c: Configuration, price: Decimal, a: seq<Decimal>, b: seq<Decimal>)
    requires c.Valid() && CostsBeneath(c, price, a, b) && TotalCash(c, price, b).Ok?
    ensures TotalCash(c, price, a).Ok? && Beneath(TotalCash(c, price, a).value, TotalCash(c, price, b).value)
  {
    hide Value, PurchaseCost, AddDecimals;
    if a == [] {
      PositiveCoefficient(c.reserve);
    } else {
      var n := |a| - 1;
      CashBeneath(c, price, a[..n], b[..n]);
      SumsBeneath(TotalCash(c, price, a[..n]).value, TotalCash(c, price, b[..n]).value,
                  PurchaseCost(c.profile, a[n], price).value.total, PurchaseCost(c.profile, b[n], price).value.total);
    }
  }

  // Lots

  /** Nothing, or a whole number of lots as the sizing computes it. */
  predicate IsLot(c: Configuration, quantity: Decimal, m: nat) {
    Lots(c, m) == Ok(quantity)
  }

  ghost predicate InLots(c: Configuration, quantity: Decimal) {
    quantity == ZERO || exists m: nat :: IsLot(c, quantity, m)
  }

  ghost predicate AllInLots(c: Configuration, quantities: seq<Decimal>) {
    forall i :: 0 <= i < |quantities| ==> InLots(c, quantities[i])
  }

  /** Each quantity is no larger than the other one, and on the same scale. */
  predicate AllBeneath(a: seq<Decimal>, b: seq<Decimal>) {
    |a| == |b| && forall i :: 0 <= i < |a| ==> Beneath(a[i], b[i])
  }

  lemma LotsAreBeneath(c: Configuration, quantities: seq<Decimal>)
    requires c.Valid() && AllInLots(c, quantities)
    ensures AllBeneath(quantities, quantities)
  {
    hide Value, Lots;
    forall i | 0 <= i < |quantities| ensures Beneath(quantities[i], quantities[i]) {
      if quantities[i] != ZERO {
        var m: nat :| IsLot(c, quantities[i], m);
        LotsBeneath(c, m, m);
      }
    }
  }

  /** What quantities can be bought for can be added up for smaller ones on the same scales. */
  lemma {:induction false} SmallerCash(c: Configuration, price: Decimal, a: seq<Decimal>, b: seq<Decimal>)
    requires c.Valid() && AllBeneath(a, b) && TotalCash(c, price, b).Ok?
    ensures TotalCash(c, price, a).Ok?
  {
    hide Value, PurchaseCost, TotalCash;
    forall i | 0 <= i < |a|
      ensures PurchaseCost(c.profile, a[i], price).Ok? && PurchaseCost(c.profile, b[i], price).Ok?
      ensures PurchaseBeneath(c.profile, PurchaseCost(c.profile, a[i], price).value,
                              PurchaseCost(c.profile, b[i], price).value)
    {
      TotalCashCosts(c, price, b, i);
      PurchasesBeneath(c.profile, a[i], b[i], price);
    }
    CashBeneath(c, price, a, b);
  }

  lemma {:induction false} TotalCashCosts(c: Configuration, price: Decimal, quantities: seq<Decimal>, i: nat)
    requires TotalCash(c, price, quantities).Ok? && i < |quantities|
    ensures PurchaseCost(c.profile, quantities[i], price).Ok?
  {
    hide PurchaseCost;
    if TotalCash(c, price, quantities[..i + 1]).Rejected? {
      RejectionSpreads(c, price, quantities, i + 1);
    }
    assert quantities[..i + 1][..i] == quantities[..i];
  }

  lemma LotsBeneath(c: Configuration, m: nat, n: nat)
    requires c.Valid() && m <= n && Lots(c, n).Ok?
    ensures Lots(c, m).Ok? && Beneath(Lots(c, m).value, Lots(c, n).value)
  {
    hide Value, MultiplyDecimals;
    PositiveCoefficient(c.Increment());
    ProductsBeneath(Decimal(m, 0), Decimal(n, 0), c.Increment());
  }

  /** A number of lots divided by the lot gives back the number. */
  lemma LotsDivide(c: Configuration, m: nat)
    requires c.Valid() && Lots(c, m).Ok?
    ensures FloorDivide(Lots(c, m).value, c.Increment()) == Ok(m)
  {
    hide Value, Digits, Over, Times, Ten;
    PositiveCoefficient(c.Increment());
    ProductOfLots(m, c.Increment());
    var q := Lots(c, m).value;
    FloorIsExact(q, c.Increment());
    TenOfNothing();
    assert q.coefficient * Ten(0) == q.coefficient;
    ExactDivision(m, c.Increment().coefficient);
  }

  /** Once the purchases of smaller quantities can be costed, the search in a stage rejects nothing. */
  lemma {:induction false} LotsAreSearchable(c: Configuration, price: Decimal, quantities: seq<Decimal>, i: nat, n: nat)
    requires c.Valid() && i < |quantities| && TotalCash(c, price, quantities).Ok?
    requires AllBeneath(quantities, quantities) && IsLot(c, quantities[i], n)
    ensures FloorDivide(quantities[i], c.Increment()) == Ok(n) && Searchable(c, price, quantities, i)
    ensures forall m :: 0 <= m <= n ==> Lots(c, m).Ok? && Beneath(Lots(c, m).value, quantities[i])
  {
    hide Value, Lots, TotalCash, FloorDivide;
    LotsDivide(c, n);
    forall m | 0 <= m <= n
      ensures Lots(c, m).Ok? && Beneath(Lots(c, m).value, quantities[i])
      ensures TotalCash(c, price, quantities[i := Lots(c, m).value]).Ok?
    {
      LotsBeneath(c, m, n);
      SmallerCash(c, price, quantities[i := Lots(c, m).value], quantities);
    }
  }

  lemma ProductOfLots(m: nat, d: Decimal)
    requires MultiplyDecimals(Decimal(m, 0), d).Ok?
    ensures MultiplyDecimals(Decimal(m, 0), d).value == Decimal(m * d.coefficient, d.exponent)
    ensures Representable(MultiplyDecimals(Decimal(m, 0), d).value) && Representable(d)
  {
    hide Digits, Value;
  }

  lemma TenOfNothing()
    ensures Ten(0) == 1
  {
  }

  lemma FloorIsExact(a: Decimal, b: Decimal)
    requires Representable(a) && Representable(b) && a.exponent == b.exponent && b.coefficient > 0
    ensures FloorDivide(a, b) == Ok(a.coefficient * Ten(0) / b.coefficient)
  {
    hide Digits, Value, Over, Ten;
  }

  lemma ExactDivision(m: nat, d: int)
    requires d > 0
    ensures m * d / d == m
  {
    Division(m * d, d);
    FullStep(m, m * d / d, d);
    FullStep(m * d / d, m, d);
  }

  lemma FullStep(x: int, y: int, d: int)
    requires d > 0
    ensures x < y ==> x * d + d <= y * d
  {
    if x < y {
      MoreTimes(1, y - x, d);
    }
  }
}
