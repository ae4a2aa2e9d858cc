/** When sizing succeeds: where money is counted in units or fractions of one, a plan that can be
    costed and added up can always be adjusted, accounted for and shown. */
module SizingLimits {
  import opened Decimals
  import opened Costs
  import opened Sizing
  import opened CostLimits
  import opened SizingEngine

  // The scale of money

  lemma MoneyScale(p: Profile, value: Decimal)
    ensures p.Money(value).Ok? ==> p.Money(value).value.exponent == p.quantum.exponent
    ensures p.MoneyDown(value).Ok? ==> p.MoneyDown(value).value.exponent == p.quantum.exponent
  {
    hide Value, Digits, Ratio, RoundRatio;
  }

  lemma PurchaseScale(p: Profile, quantity: Decimal, price: Decimal)
    requires p.Valid() && PurchaseCost(p, quantity, price).Ok?
    ensures var cost := PurchaseCost(p, quantity, price).value;
            && cost.gross.exponent == cost.total.exponent == p.quantum.exponent
            && 0 <= cost.gross.coefficient <= cost.total.coefficient
  {
    hide Value, Rounds, Multiple, Share, MultiplyDecimals, AddDecimals, RoundToQuantum, Over, Times;
    var cost := PurchaseCost(p, quantity, price).value;
    var value := MultiplyDecimals(quantity, price).value;
    MoneyScale(p, value);
    assert exists sum :: p.Money(sum) == Ok(cost.total);
    var sum :| p.Money(sum) == Ok(cost.total);
    MoneyScale(p, sum);
    var g, s, f := PurchaseQuanta(p, quantity, price);
    Sane(p, quantity, price);
    PartsAreMonotone(Value(quantity), Value(quantity), Value(price), Value(p.quantum), Value(p.purchaseSlippage),
                     Value(p.purchaseFee), p.mode, g, s, f, g, s, f);
    MultiplesOrdered(cost.gross, cost.total, p.quantum, g, g + s + f);
    PositiveCoefficient(cost.gross);
    SameExponent(cost.gross.coefficient, cost.total.coefficient, p.quantum.exponent);
  }

  lemma SaleScale(p: Profile, quantity: Decimal, price: Decimal)
    requires SaleProceeds(p, quantity, price).Ok?
    ensures SaleProceeds(p, quantity, price).value.net.exponent == p.quantum.exponent
  {
    hide Value, MultiplyDecimals, AddDecimals, SubtractDecimals, RoundToQuantum, FloorToQuantum, Over, Times;
    var net := SaleProceeds(p, quantity, price).value.net;
    assert exists rest :: p.MoneyDown(rest) == Ok(net);
    var rest :| p.MoneyDown(rest) == Ok(net);
    MoneyScale(p, rest);
  }

  // Scaling within the limits

  lemma {:induction false} DigitsReach(n: nat)
    requires n > 0
    ensures Ten(Digits(n) - 1) <= n
  {
    if n >= 10 {
      DigitsReach(n / 10);
    }
  }

  /** What is not above a number within the limits once it is scaled may be scaled. */
  lemma {:induction false} ScalesBelow(c: nat, scale: nat, x: nat)
    requires c * Ten(scale) <= x && Digits(x) <= MAX_DIGITS && scale < MAX_DIGITS
    ensures Scalable(c, scale)
  {
    hide Digits, Ten;
    if c > 0 {
      DigitsReach(c);
      TenSum(Digits(c) - 1, scale);
      MoreTimes(Ten(Digits(c) - 1), c, Ten(scale));
      if Digits(c) - 1 + scale >= MAX_DIGITS {
        TenGrows(Digits(x), Digits(c) - 1 + scale);
      }
    } else {
      OneDigit();
    }
  }

  lemma OneDigit()
    ensures Digits(0) == 1
  {
  }

  lemma {:induction false} ScaledDigits(c: nat, scale: nat)
    requires Scalable(c, scale)
    ensures Digits(c * Ten(scale)) <= MAX_DIGITS
  {
    hide Digits, Ten;
    ScaledBelow(c, scale);
    MoreTimes(0, c, Ten(scale));
    DigitsBound(c * Ten(scale), MAX_DIGITS);
  }

  // Running totals

  /** A first amount joins nothing, and the reserve. */
  lemma FirstJoins(t: nat, e: int, reserve: Decimal, total: Decimal)
    requires 0 < e + MAX_DIGITS <= MAX_DIGITS && AddDecimals(reserve, Decimal(t, e)) == Ok(total)
    ensures AddDecimals(ZERO, Decimal(t, e)) == Ok(Decimal(t, e))
    ensures AddDecimals(Decimal(t, e), reserve) == Ok(total)
  {
    hide Digits, Ten, Value;
    OneDigit();
    OneTime();
  }

  lemma OneTime()
    ensures Ten(0) == 1
  {
  }

  /** A further amount joins the amounts before, as it joins them together with the reserve. */
  lemma NextJoins(k: nat, t: nat, e: int, reserve: Decimal, before: Decimal, total: Decimal)
    requires reserve.coefficient >= 0 && AddDecimals(Decimal(k, e), reserve) == Ok(before)
    requires AddDecimals(before, Decimal(t, e)) == Ok(total)
    ensures AddDecimals(Decimal(k, e), Decimal(t, e)) == Ok(Decimal(k + t, e))
    ensures AddDecimals(Decimal(k + t, e), reserve) == Ok(total)
  {
    hide Digits, Ten, Value;
    OneTime();
    var low := Min(e, reserve.exponent);
    var p, rest := Ten(e - low), reserve.coefficient * Ten(reserve.exponent - low);
    MoreTimes(0, reserve.coefficient, Ten(reserve.exponent - low));
    Spread(k, t, p);
    assert total == Decimal(rest + (k + t) * p, low);
    MoreTimes(1, p, k + t);
    FewerDigits(k + t, total.coefficient);
    ScalesBelow(k + t, e - low, total.coefficient);
  }

  lemma Spread(k: int, t: int, p: int)
    ensures (k + t) * p == k * p + t * p && (k + t) * p == p * (k + t)
  {
  }

  /** Smaller amounts join as well. */
  lemma SmallerJoins(g: nat, h: nat, k: nat, t: nat, e: int)
    requires g <= k && h <= t && AddDecimals(Decimal(k, e), Decimal(t, e)) == Ok(Decimal(k + t, e))
    ensures AddDecimals(Decimal(g, e), Decimal(h, e)) == Ok(Decimal(g + h, e))
  {
    hide Digits, Ten, Value;
    OneTime();
    FewerDigits(g, k);
    FewerDigits(h, t);
    FewerDigits(g + h, k + t);
  }

  /** Whether money is counted in units or in fractions of one. */
  predicate Customary(quantum: Decimal) {
    0 < quantum.exponent + MAX_DIGITS <= MAX_DIGITS
  }

  /** Purchases whose total cash can be computed can be added up by themselves. */
  lemma {:induction false} TotalsFit(c: Configuration, price: Decimal, quantities: seq<Decimal>,
                                     stages: seq<StageSizing>)
    requires c.Valid() && Customary(c.profile.quantum) && quantities != []
    requires StagesOf(c, price, quantities, stages) && TotalCash(c, price, quantities).Ok?
    ensures Totals(stages).Ok?
    ensures var (gross, cash) := Totals(stages).value;
            && gross.exponent == cash.exponent == c.profile.quantum.exponent
            && 0 <= gross.coefficient <= cash.coefficient
            && AddDecimals(cash, c.reserve) == TotalCash(c, price, quantities)
  {
    hide PurchaseCost, AddDecimals, Value;
    var n, e := |stages| - 1, c.profile.quantum.exponent;
    var cost := stages[n].cost;
    PositiveCoefficient(c.reserve);
    PurchaseScale(c.profile, quantities[n], price);
    if n == 0 {
      assert quantities[..n] == [] && stages[..n] == [];
      FirstJoins(cost.total.coefficient, e, c.reserve, TotalCash(c, price, quantities).value);
      NothingJoins(cost.gross.coefficient, cost.total.coefficient, e);
    } else {
      TotalsFit(c, price, quantities[..n], stages[..n]);
      var (gross, cash) := Totals(stages[..n]).value;
      NextJoins(cash.coefficient, cost.total.coefficient, e, c.reserve, TotalCash(c, price, quantities[..n]).value,
                TotalCash(c, price, quantities).value);
      SmallerJoins(gross.coefficient, cost.gross.coefficient, cash.coefficient, cost.total.coefficient, e);
    }
  }

  lemma NothingJoins(g: nat, t: nat, e: int)
    requires 0 < e + MAX_DIGITS <= MAX_DIGITS && g <= t && AddDecimals(ZERO, Decimal(t, e)).Ok?
    ensures AddDecimals(ZERO, Decimal(g, e)) == Ok(Decimal(g, e))
  {
    hide Digits, Ten, Value;
    OneDigit();
    OneTime();
    FewerDigits(g, t);
  }

  // The account

  /** The remainder of the funding can be computed. */
  lemma RemainderFits(available: Decimal, net: Decimal, funding: Decimal, cash: Decimal, reserve: Decimal,
                      total: Decimal)
    requires AddDecimals(available, net) == Ok(funding) && SubtractDecimals(funding, reserve).Ok?
    requires AddDecimals(cash, reserve) == Ok(total) && cash.exponent == net.exponent
    requires cash.coefficient >= 0 && reserve.coefficient >= 0 && Value(total) <= Value(funding)
    ensures SubtractDecimals(funding, total).Ok?
  {
    hide Digits, Ten, Value;
    var low := Min(funding.exponent, total.exponent);
    var l, r := funding.exponent - low, total.exponent - low;
    var x, y := funding.coefficient * Ten(l), total.coefficient * Ten(r);
    Rescaled(funding.coefficient, low, l);
    Rescaled(total.coefficient, low, r);
    SameExponent(y, x, low);
    TotalIsCounted(cash, reserve, total);
    MoreTimes(0, total.coefficient, Ten(r));
    CountedIsPositive(funding.coefficient, Ten(l), x);
    ScaledDigits(funding.coefficient, l);
    ScalesBelow(total.coefficient, r, x);
    FewerDigits(x - y, x);
  }

  lemma CountedIsPositive(c: int, p: int, x: int)
    requires p > 0 && x == c * p && x >= 0
    ensures c >= 0
  {
  }

  lemma TotalIsCounted(cash: Decimal, reserve: Decimal, total: Decimal)
    requires AddDecimals(cash, reserve) == Ok(total) && cash.coefficient >= 0 && reserve.coefficient >= 0
    ensures total.coefficient >= 0 && total.exponent == Min(cash.exponent, reserve.exponent)
    ensures Representable(total) && Representable(cash)
  {
    hide Digits, Ten, Value;
    var e := total.exponent;
    MoreTimes(0, cash.coefficient, Ten(cash.exponent - e));
    MoreTimes(0, reserve.coefficient, Ten(reserve.exponent - e));
  }

  /** Paid purchases can be accounted for once the funding above the reserve can be computed. */
  lemma PaidFits(request: SizingRequest, sale: Sale, funding: Decimal, quantities: seq<Decimal>)
    requires request.Valid() && Customary(request.configuration.profile.quantum) && quantities != []
    requires SaleProceeds(request.configuration.profile, request.saleQuantity, request.salePrice) == Ok(sale)
    requires Value(sale.net) >= 0.0 && AddDecimals(request.available, sale.net) == Ok(funding)
    requires SubtractDecimals(funding, request.configuration.reserve).Ok?
    requires Pays(request.configuration, request.price, funding, quantities)
    ensures Accountable(request, sale, quantities)
  {
    hide Value, PurchaseCost, SaleProceeds, AddDecimals, SubtractDecimals, TotalCash, Totals;
    var c := request.configuration;
    PositiveCoefficient(c.reserve);
    SaleScale(c.profile, request.saleQuantity, request.salePrice);
    forall stages | StagesOf(c, request.price, quantities, stages)
      ensures AccountOf(NoPurchaseQuantity, sale, stages, request.available, c.reserve).Ok?
    {
      TotalsFit(c, request.price, quantities, stages);
      var (gross, cash) := Totals(stages).value;
      RemainderFits(request.available, sale.net, funding, cash, c.reserve,
                    TotalCash(c, request.price, quantities).value);
      TotalIsCounted(cash, c.reserve, TotalCash(c, request.price, quantities).value);
      CostsFit(gross, cash);
      PositiveCoefficient(gross);
      PositiveCoefficient(cash);
      PositiveCoefficient(SubtractDecimals(cash, gross).value);
    }
  }

  lemma CostsFit(gross: Decimal, cash: Decimal)
    requires gross.exponent == cash.exponent && 0 <= gross.coefficient <= cash.coefficient && Representable(cash)
    ensures SubtractDecimals(cash, gross).Ok? && SubtractDecimals(cash, gross).value.coefficient >= 0
  {
    hide Digits, Ten, Value;
    OneTime();
    FewerDigits(gross.coefficient, cash.coefficient);
    FewerDigits(cash.coefficient - gross.coefficient, cash.coefficient);
  }

  /** With customary money the outcome of the adjustment does not matter for whether sizing succeeds:
      the funding above the reserve, the plan and the cash of the planned quantities decide. */
  lemma PlansDecide(request: SizingRequest, sale: Sale, funding: Decimal)
    requires request.Valid() && Customary(request.configuration.profile.quantum)
    requires SaleProceeds(request.configuration.profile, request.saleQuantity, request.salePrice) == Ok(sale)
    requires AddDecimals(request.available, sale.net) == Ok(funding)
    ensures var c, spendable := request.configuration, SubtractDecimals(funding, request.configuration.reserve);
            Fundable(request, sale, funding) <==>
              && Value(sale.net) >= 0.0
              && spendable.Ok?
              && Plannable(c, request.price, spendable.value)
              && TotalCash(c, request.price, InitialOf(c, request.price, spendable.value)).Ok?
  {
    hide Value, PurchaseCost, SaleProceeds, AddDecimals, SubtractDecimals, TotalCash, Plannable, InitialOf, Pays,
         CutAt, Accountable;
    var c, spendable := request.configuration, SubtractDecimals(funding, request.configuration.reserve);
    if Value(sale.net) >= 0.0 && spendable.Ok? && Plannable(c, request.price, spendable.value) {
      var initial := InitialOf(c, request.price, spendable.value);
      forall quantities | Adjusts(c, request.price, funding, initial, quantities)
        ensures Accountable(request, sale, quantities)
      {
        PaidFits(request, sale, funding, quantities);
      }
    }
  }
}
