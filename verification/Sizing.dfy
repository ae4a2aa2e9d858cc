/** Staged sizing: stage targets, quantities on the lot grid, and the back-to-front adjustment that
    brings the purchases within the available funding. */
module Sizing {
  import opened StateMachine
  import opened Decimals
  import opened Costs

  /** An allocation stage, by its basis points. */
  datatype Stage = Stage(basisPoints: nat)

  datatype Configuration = Configuration(
    stages: seq<Stage>,
    profile: Profile,
    reserve: Decimal,
    minimum: Decimal,
    lot: Decimal,
    oddLots: bool)
  {
    ghost predicate Valid() {
      && stages != []
      && PointsOf(stages) == 10_000
      && profile.Valid()
      && Value(reserve) >= 0.0
      && 0.0 < Value(minimum) <= Value(lot)
    }

    function Increment(): Decimal {
      if oddLots then minimum else lot
    }
  }

  function PointsOf(stages: seq<Stage>): nat {
    if stages == [] then 0 else PointsOf(stages[..|stages| - 1]) + stages[|stages| - 1].basisPoints
  }

  function Weight(stage: Stage): Decimal {
    Decimal(stage.basisPoints, -4)
  }

  // Stages

  /** Whether a weight is a positive whole number of basis points, at most 10,000. */
  ghost predicate IsWeight(w: Decimal) {
    0.0 < Value(w) <= 1.0 && exists b: int :: Value(w) == Value(Decimal(b, -4))
  }

  method NewStage(weight: Decimal) returns (r: Checked<Stage>)
    ensures r.Ok? <==> IsWeight(weight)
    ensures r.Ok? ==> 1 <= r.value.basisPoints <= 10_000 && Value(Weight(r.value)) == Value(weight)
  {
    if Value(weight) <= 0.0 || Value(weight) > 1.0 {
      return Rejected;
    }
    var coefficient, exponent := weight.coefficient, weight.exponent;
    PositiveCoefficient(weight);
    while coefficient != 0 && coefficient % 10 == 0
      invariant coefficient > 0 && Value(Decimal(coefficient, exponent)) == Value(weight)
      decreases coefficient
    {
      Rescaled(coefficient / 10, exponent, 1);
      coefficient, exponent := coefficient / 10, exponent + 1;
    }
    if exponent < -4 {
      NotBasisPoints(coefficient, exponent);
      return Rejected;
    }
    Rescaled(coefficient, -4, exponent + 4);
    var points := coefficient * Ten(exponent + 4);
    assert Value(Decimal(points, -4)) == Value(weight);
    PointsInRange(points);
    if points < 1 || points > 10_000 {
      return Rejected;
    }
    r := Ok(Stage(points));
  }

  lemma PositiveCoefficient(d: Decimal)
    ensures Value(d) > 0.0 <==> d.coefficient > 0
    ensures Value(d) < 0.0 <==> d.coefficient < 0
  {
    hide Times, Power;
    Signs(d.coefficient as real, Power(d.exponent));
  }

  lemma SameExponent(a: int, b: int, e: int)
    ensures Value(Decimal(a, e)) == Value(Decimal(b, e)) <==> a == b
    ensures Value(Decimal(a, e)) <= Value(Decimal(b, e)) <==> a <= b
  {
    hide Times, Power;
    Scaling(a as real, b as real, Power(e));
    Scaling(b as real, a as real, Power(e));
  }

  /** A coefficient that does not end in a zero, below the fourth place, is no basis point. */
  lemma NotBasisPoints(coefficient: int, exponent: int)
    requires coefficient % 10 != 0 && exponent < -4
    ensures forall b: int :: Value(Decimal(coefficient, exponent)) != Value(Decimal(b, -4))
  {
    hide Value;
    forall b: int
      ensures Value(Decimal(coefficient, exponent)) != Value(Decimal(b, -4))
    {
      var n := -4 - exponent;
      Rescaled(b, exponent, n);
      SameExponent(coefficient, b * Ten(n), exponent);
      EndsInZero(b, n);
    }
  }

  lemma PointsInRange(points: int)
    ensures 0.0 < Value(Decimal(points, -4)) <= 1.0 <==> 1 <= points <= 10_000
  {
    hide Value;
    PositiveCoefficient(Decimal(points, -4));
    TenThousand();
    SameExponent(points, 10_000, -4);
  }

  lemma TenThousand()
    ensures Value(Decimal(10_000, -4)) == 1.0
  {
    assert Power(-1) == 0.1 && Power(-2) == 0.01 && Power(-3) == 0.001 && Power(-4) == 0.0001;
  }

  // Total cash

  /** The reserve and the cash of every stage's purchase. */
  function TotalCash(c: Configuration, price: Decimal, quantities: seq<Decimal>): Checked<Decimal> {
    if quantities == [] then Ok(c.reserve)
    else
      var before :- TotalCash(c, price, quantities[..|quantities| - 1]);
      var cost :- PurchaseCost(c.profile, quantities[|quantities| - 1], price);
      AddDecimals(before, cost.total)
  }

  method SumCash(c: Configuration, price: Decimal, quantities: seq<Decimal>) returns (total: Checked<Decimal>)
    ensures total == TotalCash(c, price, quantities)
  {
    var sum := c.reserve;
    for i := 0 to |quantities|
      invariant TotalCash(c, price, quantities[..i]) == Ok(sum)
    {
      assert quantities[..i + 1][..i] == quantities[..i];
      var cost := PurchaseCost(c.profile, quantities[i], price);
      var next := if cost.Ok? then AddDecimals(sum, cost.value.total) else Rejected;
      if next.Rejected? {
        RejectionSpreads(c, price, quantities, i + 1);
        return Rejected;
      }
      sum := next.value;
    }
    assert quantities[..|quantities|] == quantities;
    total := Ok(sum);
  }

  lemma {:induction false} RejectionSpreads(c: Configuration, price: Decimal, quantities: seq<Decimal>, i: nat)
    requires i <= |quantities| && TotalCash(c, price, quantities[..i]).Rejected?
    ensures TotalCash(c, price, quantities).Rejected?
    decreases |quantities| - i
  {
    if i < |quantities| {
      assert quantities[..i + 1][..i] == quantities[..i];
      RejectionSpreads(c, price, quantities, i + 1);
    } else {
      assert quantities[..i] == quantities;
    }
  }

  /** Pointwise smaller quantities never need more cash. */
  lemma {:induction false} CashIsMonotone(c: Configuration, price: Decimal, a: seq<Decimal>, b: seq<Decimal>)
    requires c.profile.Valid() && |a| == |b|
    requires forall i :: 0 <= i < |a| ==> Value(a[i]) <= Value(b[i])
    requires TotalCash(c, price, a).Ok? && TotalCash(c, price, b).Ok?
    ensures Value(TotalCash(c, price, a).value) <= Value(TotalCash(c, price, b).value)
  {
    hide Value, PurchaseCost, AddDecimals;
    if a != [] {
      var n := |a| - 1;
      CashIsMonotone(c, price, a[..n], b[..n]);
      PurchaseIsMonotone(c.profile, a[n], b[n], price);
    }
  }

  /** Without a purchase only the reserve is needed. */
  lemma {:induction false} ZeroCash(c: Configuration, price: Decimal, quantities: seq<Decimal>)
    requires c.profile.Valid() && TotalCash(c, price, quantities).Ok?
    requires forall i :: 0 <= i < |quantities| ==> Value(quantities[i]) == 0.0
    ensures Value(TotalCash(c, price, quantities).value) == Value(c.reserve)
  {
    hide Value, PurchaseCost, AddDecimals;
    if quantities != [] {
      var n := |quantities| - 1;
      ZeroCash(c, price, quantities[..n]);
      ZeroPurchase(c.profile, quantities[n], price);
    }
  }

  lemma ZeroPurchase(p: Profile, quantity: Decimal, price: Decimal)
    requires p.Valid() && Value(quantity) == 0.0 && PurchaseCost(p, quantity, price).Ok?
    ensures Value(PurchaseCost(p, quantity, price).value.total) == 0.0
  {
    hide Value, Times, Over, Share, PurchaseCost, Rounds;
    var g, s, f := PurchaseQuanta(p, quantity, price);
    Sane(p, quantity, price);
    QuotientOrdered(0.0, 0.0, Value(price), Value(p.quantum));
    WholeStays(0.0, 0, p.mode, g);
    NoShare(Value(p.purchaseSlippage));
    WholeStays(0.0, 0, p.mode, s);
    NoShare(Value(p.purchaseFee));
    WholeStays(0.0, 0, p.mode, f);
    Units(Value(p.quantum));
  }

  lemma NoShare(rate: real)
    ensures Share(0, rate) == 0.0
  {
  }

  // The adjustment of one stage

  const MAX_STEPS: nat := 4096

  function Lots(c: Configuration, m: int): Checked<Decimal> {
    MultiplyDecimals(Decimal(m, 0), c.Increment())
  }

  /** With m increments in stage i the purchases can be paid. */
  predicate Affordable(c: Configuration, price: Decimal, funding: Decimal, quantities: seq<Decimal>, i: nat, m: int)
    requires i < |quantities|
  {
    var lots := Lots(c, m);
    lots.Ok?
    && var total := TotalCash(c, price, quantities[i := lots.value]);
       total.Ok? && Value(total.value) <= Value(funding)
  }

  lemma LotsValue(c: Configuration, m: int)
    requires Lots(c, m).Ok?
    ensures Value(Lots(c, m).value) == Times(m as real, Value(c.Increment()))
  {
    hide Times;
    WholeValue(m);
  }

  lemma WholeValue(m: int)
    ensures Value(Decimal(m, 0)) == m as real
  {
  }

  lemma {:induction false} MoreLotsCostMore(c: Configuration, price: Decimal, funding: Decimal,
                                            quantities: seq<Decimal>, i: nat, m: int, n: int)
    requires c.Valid() && i < |quantities| && m <= n
    requires Lots(c, m).Ok? && TotalCash(c, price, quantities[i := Lots(c, m).value]).Ok?
    requires Affordable(c, price, funding, quantities, i, n)
    ensures Affordable(c, price, funding, quantities, i, m)
  {
    hide Value, TotalCash, Lots, Times;
    LotsValue(c, m);
    LotsValue(c, n);
    Scaling(m as real, n as real, Value(c.Increment()));
    CashIsMonotone(c, price, quantities[i := Lots(c, m).value], quantities[i := Lots(c, n).value]);
  }

  function Two(n: nat): (p: nat)
    ensures p > 0
  {
    if n == 0 then 1 else 2 * Two(n - 1)
  }

  lemma {:induction false} TenBelowTwo(n: nat)
    ensures Ten(n) <= Two(4 * n)
  {
    if n > 0 {
      TenBelowTwo(n - 1);
      assert Two(4 * n) == 2 * Two(4 * n - 1) == 4 * Two(4 * n - 2) == 8 * Two(4 * n - 3) == 16 * Two(4 * n - 4);
    }
  }

  /** Every number of increments the search may try can be costed within the limits on digits. */
  ghost predicate Searchable(c: Configuration, price: Decimal, quantities: seq<Decimal>, i: nat)
    requires i < |quantities|
  {
    && FloorDivide(quantities[i], c.Increment()).Ok?
    && Lots(c, 0).Ok?
    && forall m :: 0 <= m <= FloorDivide(quantities[i], c.Increment()).value ==>
         Lots(c, m).Ok? && TotalCash(c, price, quantities[i := Lots(c, m).value]).Ok?
  }

  /** The largest affordable number of increments of one stage, by bisection. The cutoff after
      4096 steps is never reached: the limits on digits leave fewer than 2^4000 candidates. */
  method MaxAffordableQuantity(c: Configuration, price: Decimal, funding: Decimal, quantities: seq<Decimal>, i: nat)
    returns (r: Checked<Option<Decimal>>)
    requires c.Valid() && i < |quantities|
    ensures Searchable(c, price, quantities, i) ==> r.Ok?
    ensures r.Ok? ==> r.value.Some?
    ensures r.Ok? ==>
              exists m: nat ::
                && IsLargest(c, price, funding, quantities, i, m)
                && Lots(c, m) == Ok(r.value.value)
  {
    hide TotalCash, Lots, Affordable, Value, FloorDivide, Ten, Two;
    var count := FloorDivide(quantities[i], c.Increment());
    if count.Rejected? {
      return Rejected;
    }
    var lower, upper, steps := 0, count.value, 0;
    ghost var limit := 4 * MAX_DIGITS;
    TenBelowTwo(MAX_DIGITS);
    while lower < upper
      invariant 0 <= steps <= limit && 0 <= lower && (lower > 0 ==> lower <= upper)
      invariant upper <= count.value
      invariant lower < upper ==> upper - lower < Two(limit - steps)
      invariant lower == 0 || Affordable(c, price, funding, quantities, i, lower)
      invariant forall m :: upper < m <= count.value ==> !Affordable(c, price, funding, quantities, i, m)
      decreases upper - lower
    {
      Halving(limit - steps, upper - lower);
      if steps >= MAX_STEPS {
        return Ok(None);
      }
      steps := steps + 1;
      var middle := (lower + upper + 1) / 2;
      var lots := Lots(c, middle);
      if lots.Rejected? {
        return Rejected;
      }
      var total := SumCash(c, price, quantities[i := lots.value]);
      if total.Rejected? {
        return Rejected;
      }
      var fits := Value(total.value) <= Value(funding);
      assert fits == Affordable(c, price, funding, quantities, i, middle)
             by { AffordableIs(c, price, funding, quantities, i, middle); }
      if fits {
        lower := middle;
      } else {
        forall m | middle <= m <= count.value ensures !Affordable(c, price, funding, quantities, i, m) {
          if Affordable(c, price, funding, quantities, i, m) {
            MoreLotsCostMore(c, price, funding, quantities, i, middle, m);
          }
        }
        upper := middle - 1;
      }
    }
    var lots := Lots(c, lower);
    if lots.Rejected? {
      return Rejected;
    }
    assert IsLargest(c, price, funding, quantities, i, lower);
    r := Ok(Some(lots.value));
  }

  lemma {:induction false} AffordableIs(c: Configuration, price: Decimal, funding: Decimal, quantities: seq<Decimal>,
                                        i: nat, m: int)
    requires i < |quantities| && Lots(c, m).Ok?
    ensures var total := TotalCash(c, price, quantities[i := Lots(c, m).value]);
            Affordable(c, price, funding, quantities, i, m) <==> total.Ok? && Value(total.value) <= Value(funding)
  {
  }

  lemma Halving(n: nat, width: int)
    requires 0 < width < Two(n)
    ensures n > 0 && Two(n) == 2 * Two(n - 1)
  {
  }

  /** m increments are affordable, or none, and no larger number up to the present one is. */
  ghost predicate IsLargest(c: Configuration, price: Decimal, funding: Decimal, quantities: seq<Decimal>, i: nat,
                            m: int)
    requires i < |quantities|
  {
    && m >= 0
    && (m > 0 ==> Affordable(c, price, funding, quantities, i, m))
    && FloorDivide(quantities[i], c.Increment()).Ok?
    && (m > 0 ==> m <= FloorDivide(quantities[i], c.Increment()).value)
    && forall n :: m < n <= FloorDivide(quantities[i], c.Increment()).value ==>
                     !Affordable(c, price, funding, quantities, i, n)
  }
}
