/** Rounding to a money quantum, and the costs of a purchase and of a sale. */
module Costs {
  import opened Decimals

  datatype RoundingMode = Down | HalfEven | HalfUp

  // Rounding

  /** The rounded quotient, from the integer numerator and denominator. */
  function RoundRatio(n: int, d: nat, mode: RoundingMode): int
    requires d > 0
  {
    var floor := n / d;
    var remainder := n - floor * d;
    if mode == Down then
      if n >= 0 || remainder == 0 then floor else floor + 1
    else
      var comparison := remainder * 2 - d;
      if comparison < 0 then floor
      else if comparison > 0 then floor + 1
      else if mode == HalfUp then (if n >= 0 then floor + 1 else floor)
      else if floor % 2 == 0 then floor else floor + 1
  }

  /** What the modes mean: towards zero; to the nearest integer, a tie going up from a
      non-negative and down from a negative number; to the nearest, a tie going to the even one. */
  predicate Rounds(x: real, mode: RoundingMode, k: int) {
    var distance := if x >= k as real then x - k as real else k as real - x;
    match mode
    case Down => (x >= 0.0 ==> 0.0 <= x - k as real < 1.0) && (x < 0.0 ==> 0.0 <= k as real - x < 1.0)
    case HalfUp => distance <= 0.5 && (distance == 0.5 ==> if x >= 0.0 then k as real > x else k as real < x)
    case HalfEven => distance <= 0.5 && (distance == 0.5 ==> k % 2 == 0)
  }

  /** Each mode determines its result. */
  lemma RoundsUniquely(x: real, mode: RoundingMode, j: int, k: int)
    requires Rounds(x, mode, j) && Rounds(x, mode, k)
    ensures j == k
  {
  }

  lemma RatioRounds(n: int, d: nat, mode: RoundingMode)
    requires d > 0
    ensures Rounds(Over(n as real, d as real), mode, RoundRatio(n, d, mode))
  {
    hide Over;
    Fraction(n, d, n / d, n - n / d * d, Over(n as real, d as real));
  }

  /** Where a quotient lies between two integers, told from the integer remainder. */
  lemma Fraction(n: int, d: nat, f: int, r: int, x: real)
    requires d > 0 && f == n / d && r == n - f * d && x == Over(n as real, d as real)
    ensures f as real <= x < f as real + 1.0
    ensures r == 0 <==> x == f as real
    ensures n >= 0 <==> x >= 0.0
    ensures 2 * r < d <==> x - f as real < 0.5
    ensures 2 * r > d <==> x - f as real > 0.5
  {
    hide Times, Over;
    FloorOfRatio(n, d);
    OverTimes(n as real, d as real);
    WholeTimes(f, d);
    Distribute(x, f as real, d as real);
    Halves(x - f as real, r, d);
    Signs(x, d as real);
  }

  lemma Halves(x: real, r: int, d: nat)
    requires d > 0 && Times(x, d as real) == r as real
    ensures r == 0 <==> x == 0.0
    ensures 2 * r < d <==> x < 0.5
    ensures 2 * r > d <==> x > 0.5
  {
    hide Times;
    Signs(x, d as real);
    Distribute(x, x, d as real);
    Units(d as real);
    Scaling(x + x, 1.0, d as real);
    Scaling(1.0, x + x, d as real);
  }

  /** All three modes are monotone, whatever the scales of the two numbers. */
  lemma RoundingIsMonotone(x: real, y: real, mode: RoundingMode, j: int, k: int)
    requires x <= y && Rounds(x, mode, j) && Rounds(y, mode, k)
    ensures j <= k
  {
  }

  // Rounding to a quantum

  function FloorToQuantum(value: Decimal, quantum: Decimal): (r: Checked<Decimal>)
    ensures r.Ok? ==> Value(quantum) > 0.0 && Multiple(r.value, quantum, Over(Value(value), Value(quantum)).Floor)
  {
    match Ratio(value, quantum)
    case Rejected => Rejected
    case Ok((n, d)) =>
      FloorOfRatio(n, d);
      QuantumTimes(n / d, quantum);
      FromCoefficient(n / d * quantum.coefficient, quantum.exponent)
  }

  function RoundToQuantum(value: Decimal, quantum: Decimal, mode: RoundingMode): (r: Checked<Decimal>)
    ensures r.Ok? ==>
              && Value(quantum) > 0.0
              && exists k :: Multiple(r.value, quantum, k) && Rounds(Over(Value(value), Value(quantum)), mode, k)
  {
    match Ratio(value, quantum)
    case Rejected => Rejected
    case Ok((n, d)) =>
      var k := RoundRatio(n, d, mode);
      RatioRounds(n, d, mode);
      QuantumTimes(k, quantum);
      assert Multiple(Decimal(k * quantum.coefficient, quantum.exponent), quantum, k);
      FromCoefficient(k * quantum.coefficient, quantum.exponent)
  }

  predicate Multiple(d: Decimal, quantum: Decimal, k: int) {
    Value(d) == Times(k as real, Value(quantum))
  }

  lemma QuantumTimes(k: int, quantum: Decimal)
    ensures Multiple(Decimal(k * quantum.coefficient, quantum.exponent), quantum, k)
  {
    hide Times;
    WholeTimes(k, quantum.coefficient);
    Associate(k as real, quantum.coefficient as real, Power(quantum.exponent));
  }

  // Purchases

  /** Rates, quantum and mode; the configuration's checks are the predicate. */
  datatype Profile = Profile(
    quantum: Decimal,
    mode: RoundingMode,
    purchaseFee: Decimal,
    saleFee: Decimal,
    saleTax: Decimal,
    purchaseSlippage: Decimal,
    saleSlippage: Decimal)
  {
    predicate Valid() {
      && Representable(quantum) && Value(quantum) > 0.0
      && forall r :: r in [purchaseFee, saleFee, saleTax, purchaseSlippage, saleSlippage] ==> 0.0 <= Value(r) <= 1.0
    }

    function Money(value: Decimal): Checked<Decimal> {
      RoundToQuantum(value, quantum, mode)
    }

    function MoneyDown(value: Decimal): Checked<Decimal> {
      FloorToQuantum(value, quantum)
    }
  }

  datatype Purchase = Purchase(gross: Decimal, slippage: Decimal, fee: Decimal, total: Decimal)

  datatype Sale = Sale(gross: Decimal, slippage: Decimal, fee: Decimal, tax: Decimal, net: Decimal)

  function PurchaseCost(p: Profile, quantity: Decimal, price: Decimal): Checked<Purchase> {
    if Value(quantity) < 0.0 || Value(price) <= 0.0 then Rejected
    else
      var value :- MultiplyDecimals(quantity, price);
      var gross :- p.Money(value);
      var adverse :- MultiplyDecimals(gross, p.purchaseSlippage);
      var slippage :- p.Money(adverse);
      var loaded :- AddDecimals(gross, slippage);
      var charge :- MultiplyDecimals(loaded, p.purchaseFee);
      var fee :- p.Money(charge);
      var sum :- AddDecimals(loaded, fee);
      var total :- p.Money(sum);
      Ok(Purchase(gross, slippage, fee, total))
  }

  function SaleProceeds(p: Profile, quantity: Decimal, price: Decimal): Checked<Sale> {
    if Value(quantity) < 0.0 || Value(price) <= 0.0 then Rejected
    else
      var value :- MultiplyDecimals(quantity, price);
      var gross :- p.MoneyDown(value);
      var adverse :- MultiplyDecimals(gross, p.saleSlippage);
      var slippage :- p.Money(adverse);
      var left :- SubtractDecimals(gross, slippage);
      var charge :- MultiplyDecimals(left, p.saleFee);
      var fee :- p.Money(charge);
      var levy :- MultiplyDecimals(left, p.saleTax);
      var tax :- p.Money(levy);
      var afterFee :- SubtractDecimals(left, fee);
      var afterTax :- SubtractDecimals(afterFee, tax);
      var net :- p.MoneyDown(afterTax);
      Ok(Sale(gross, slippage, fee, tax, net))
  }

  /** A value that is a whole number of quanta is not changed by rounding. */
  lemma WholeStays(x: real, k: int, mode: RoundingMode, j: int)
    requires x == k as real && Rounds(x, mode, j)
    ensures j == k
  {
    assert Rounds(x, mode, k);
  }

  /** The given share of a whole number of quanta. */
  function Share(k: int, rate: real): real {
    Times(k as real, rate)
  }

  /** How many quanta a product of a rate and a whole number of quanta is. */
  lemma RateInQuanta(d: Decimal, quantum: Decimal, k: int, rate: real)
    requires Value(quantum) > 0.0 && Multiple(d, quantum, k)
    ensures Over(Times(Value(d), rate), Value(quantum)) == Share(k, rate)
  {
    hide Times, Over, Value;
    var q := Value(quantum);
    Associate(k as real, q, rate);
    Commute(q, rate);
    Associate(k as real, rate, q);
    QuotientIs(Times(Value(d), rate), q, Share(k, rate));
  }

  lemma WholeInQuanta(d: Decimal, quantum: Decimal, k: int)
    requires Value(quantum) > 0.0 && Multiple(d, quantum, k)
    ensures Over(Value(d), Value(quantum)) == k as real
  {
    hide Times, Over, Value;
    QuotientIs(Value(d), Value(quantum), k as real);
  }

  lemma MultiplesAdd(a: Decimal, b: Decimal, c: Decimal, quantum: Decimal, i: int, j: int)
    requires Multiple(a, quantum, i) && Multiple(b, quantum, j)
    ensures Value(c) == Value(a) + Value(b) ==> Multiple(c, quantum, i + j)
    ensures Value(c) == Value(a) - Value(b) ==> Multiple(c, quantum, i - j)
  {
    hide Times, Value;
    Distribute(i as real, j as real, Value(quantum));
  }

  /** A purchase in whole quanta: the gross value is the rounded product, slippage and fee are the
      rounded shares of what precedes them, and the total is exactly their sum. */
  lemma PurchaseQuanta(p: Profile, quantity: Decimal, price: Decimal) returns (g: int, s: int, f: int)
    requires PurchaseCost(p, quantity, price).Ok?
    ensures var c, q := PurchaseCost(p, quantity, price).value, p.quantum;
            && Value(q) > 0.0
            && Multiple(c.gross, q, g) && Multiple(c.slippage, q, s) && Multiple(c.fee, q, f)
            && Multiple(c.total, q, g + s + f)
            && Value(c.total) == Value(c.gross) + Value(c.slippage) + Value(c.fee)
            && Rounds(Over(Times(Value(quantity), Value(price)), Value(q)), p.mode, g)
            && Rounds(Share(g, Value(p.purchaseSlippage)), p.mode, s)
            && Rounds(Share(g + s, Value(p.purchaseFee)), p.mode, f)
  {
    hide Value, Rounds, Multiple, Share, MultiplyDecimals, AddDecimals, SubtractDecimals, FloorToQuantum,
         RoundToQuantum, Over, Times;
    var value := MultiplyDecimals(quantity, price).value;
    var gross := p.Money(value).value;
    g :| Multiple(gross, p.quantum, g) && Rounds(Over(Value(value), Value(p.quantum)), p.mode, g);
    var adverse := MultiplyDecimals(gross, p.purchaseSlippage).value;
    var slippage := p.Money(adverse).value;
    s :| Multiple(slippage, p.quantum, s) && Rounds(Over(Value(adverse), Value(p.quantum)), p.mode, s);
    RateInQuanta(gross, p.quantum, g, Value(p.purchaseSlippage));
    var loaded := AddDecimals(gross, slippage).value;
    MultiplesAdd(gross, slippage, loaded, p.quantum, g, s);
    var charge := MultiplyDecimals(loaded, p.purchaseFee).value;
    var fee := p.Money(charge).value;
    f :| Multiple(fee, p.quantum, f) && Rounds(Over(Value(charge), Value(p.quantum)), p.mode, f);
    RateInQuanta(loaded, p.quantum, g + s, Value(p.purchaseFee));
    var sum := AddDecimals(loaded, fee).value;
    MultiplesAdd(loaded, fee, sum, p.quantum, g + s, f);
    WholeInQuanta(sum, p.quantum, g + s + f);
    var t :| Multiple(p.Money(sum).value, p.quantum, t) && Rounds(Over(Value(sum), Value(p.quantum)), p.mode, t);
    WholeStays(Over(Value(sum), Value(p.quantum)), g + s + f, p.mode, t);
    EqualMultiples(sum, p.Money(sum).value, p.quantum, t);
  }

  lemma EqualMultiples(a: Decimal, b: Decimal, quantum: Decimal, k: int)
    requires Multiple(a, quantum, k) && Multiple(b, quantum, k)
    ensures Value(a) == Value(b)
  {
  }

  /** The total cash of a purchase does not fall when the quantity rises, in any mode. */
  lemma PurchaseIsMonotone(p: Profile, a: Decimal, b: Decimal, price: Decimal)
    requires p.Valid() && Value(a) <= Value(b)
    requires PurchaseCost(p, a, price).Ok? && PurchaseCost(p, b, price).Ok?
    ensures Value(PurchaseCost(p, a, price).value.total) <= Value(PurchaseCost(p, b, price).value.total)
    ensures 0.0 <= Value(PurchaseCost(p, a, price).value.total)
  {
    hide Value, Rounds, Share, MultiplyDecimals, AddDecimals, FloorToQuantum, RoundToQuantum, Over, Times,
         PurchaseCost, Multiple;
    var g, s, f := PurchaseQuanta(p, a, price);
    var h, t, e := PurchaseQuanta(p, b, price);
    Sane(p, a, price);
    assert Value(price) > 0.0 && 0.0 <= Value(a) && 0.0 <= Value(p.purchaseSlippage) && 0.0 <= Value(p.purchaseFee);
    PartsAreMonotone(Value(a), Value(b), Value(price), Value(p.quantum), Value(p.purchaseSlippage),
                     Value(p.purchaseFee), p.mode, g, s, f, h, t, e);
    MultiplesOrdered(PurchaseCost(p, a, price).value.total, PurchaseCost(p, b, price).value.total, p.quantum,
                     g + s + f, h + t + e);
  }

  lemma Sane(p: Profile, quantity: Decimal, price: Decimal)
    requires p.Valid() && PurchaseCost(p, quantity, price).Ok?
    ensures Value(price) > 0.0 && 0.0 <= Value(quantity)
    ensures 0.0 <= Value(p.purchaseSlippage) && 0.0 <= Value(p.purchaseFee)
  {
  }

  lemma MultiplesOrdered(c: Decimal, d: Decimal, quantum: Decimal, i: int, j: int)
    requires Value(quantum) > 0.0 && 0 <= i <= j && Multiple(c, quantum, i) && Multiple(d, quantum, j)
    ensures 0.0 <= Value(c) <= Value(d)
  {
    hide Value, Times;
    Units(Value(quantum));
    Scaling(i as real, j as real, Value(quantum));
    Scaling(0.0, i as real, Value(quantum));
  }

  lemma PartsAreMonotone(a: real, b: real, price: real, q: real, slippage: real, fee: real, mode: RoundingMode,
                         g: int, s: int, f: int, h: int, t: int, e: int)
    requires 0.0 <= a <= b && price > 0.0 && q > 0.0 && slippage >= 0.0 && fee >= 0.0
    requires Rounds(Over(Times(a, price), q), mode, g) && Rounds(Over(Times(b, price), q), mode, h)
    requires Rounds(Share(g, slippage), mode, s) && Rounds(Share(h, slippage), mode, t)
    requires Rounds(Share(g + s, fee), mode, f) && Rounds(Share(h + t, fee), mode, e)
    ensures 0 <= g <= h && 0 <= s <= t && 0 <= f <= e
  {
    hide Rounds, Share, Over, Times;
    QuotientOrdered(a, b, price, q);
    QuotientOrdered(0.0, a, price, q);
    ZeroRounds(mode);
    RoundingIsMonotone(Over(Times(0.0, price), q), Over(Times(a, price), q), mode, 0, g);
    RoundingIsMonotone(Over(Times(a, price), q), Over(Times(b, price), q), mode, g, h);
    ShareIsMonotone(g, h, slippage, mode, s, t);
    ShareIsMonotone(g + s, h + t, fee, mode, f, e);
  }

  lemma ZeroRounds(mode: RoundingMode)
    ensures Rounds(0.0, mode, 0)
  {
  }

  lemma QuotientOrdered(a: real, b: real, price: real, q: real)
    requires a <= b && price > 0.0 && q > 0.0
    ensures Over(Times(a, price), q) <= Over(Times(b, price), q)
    ensures Over(Times(0.0, price), q) == 0.0
  {
    hide Times, Over;
    var x, y := Times(a, price), Times(b, price);
    Scaling(a, b, price);
    OverTimes(x, q);
    OverTimes(y, q);
    Scaling(Over(x, q), Over(y, q), q);
    Units(price);
    Units(q);
    QuotientIs(0.0, q, 0.0);
  }

  lemma ShareIsMonotone(g: int, h: int, rate: real, mode: RoundingMode, s: int, t: int)
    requires 0 <= g <= h && rate >= 0.0
    requires Rounds(Share(g, rate), mode, s) && Rounds(Share(h, rate), mode, t)
    ensures 0 <= s <= t
  {
    hide Rounds;
    SharesOrdered(g, h, rate);
    ZeroRounds(mode);
    RoundingIsMonotone(0.0, Share(g, rate), mode, 0, s);
    RoundingIsMonotone(Share(g, rate), Share(h, rate), mode, s, t);
  }

  lemma SharesOrdered(g: int, h: int, rate: real)
    requires 0 <= g <= h && rate >= 0.0
    ensures 0.0 <= Share(g, rate) <= Share(h, rate)
  {
    hide Times;
    Commute(rate, g as real);
    Commute(rate, h as real);
    Units(g as real);
    Units(h as real);
    if rate > 0.0 {
      Units(rate);
      Scaling(0.0, g as real, rate);
      Scaling(g as real, h as real, rate);
    }
  }

  /** A sale in whole quanta: the gross value is the product rounded down, slippage is its rounded share
      at the sale's slippage, fee and tax are the rounded shares of what slippage leaves at the sale's fee
      and tax, and the net is exactly the rest. */
  lemma SaleQuanta(p: Profile, quantity: Decimal, price: Decimal) returns (g: int, s: int, f: int, t: int)
    requires SaleProceeds(p, quantity, price).Ok?
    ensures var c, q := SaleProceeds(p, quantity, price).value, p.quantum;
            && Value(q) > 0.0
            && Multiple(c.gross, q, g) && Multiple(c.slippage, q, s) && Multiple(c.fee, q, f) && Multiple(c.tax, q, t)
            && Multiple(c.net, q, g - s - f - t)
            && g == Over(Times(Value(quantity), Value(price)), Value(q)).Floor
            && Rounds(Share(g, Value(p.saleSlippage)), p.mode, s)
            && Rounds(Share(g - s, Value(p.saleFee)), p.mode, f)
            && Rounds(Share(g - s, Value(p.saleTax)), p.mode, t)
  {
    hide Value, Rounds, Multiple, Share, MultiplyDecimals, AddDecimals, SubtractDecimals, FloorToQuantum,
         RoundToQuantum, Over, Times;
    var sale, q := SaleProceeds(p, quantity, price).value, p.quantum;
    var value := MultiplyDecimals(quantity, price).value;
    g := Over(Value(value), Value(q)).Floor;
    var adverse := MultiplyDecimals(sale.gross, p.saleSlippage).value;
    s :| Multiple(sale.slippage, q, s) && Rounds(Over(Value(adverse), Value(q)), p.mode, s);
    RateInQuanta(sale.gross, q, g, Value(p.saleSlippage));
    var left := SubtractDecimals(sale.gross, sale.slippage).value;
    MultiplesAdd(sale.gross, sale.slippage, left, q, g, s);
    var charge, levy := MultiplyDecimals(left, p.saleFee).value, MultiplyDecimals(left, p.saleTax).value;
    f :| Multiple(sale.fee, q, f) && Rounds(Over(Value(charge), Value(q)), p.mode, f);
    t :| Multiple(sale.tax, q, t) && Rounds(Over(Value(levy), Value(q)), p.mode, t);
    RateInQuanta(left, q, g - s, Value(p.saleFee));
    RateInQuanta(left, q, g - s, Value(p.saleTax));
    var afterFee := SubtractDecimals(left, sale.fee).value;
    MultiplesAdd(left, sale.fee, afterFee, q, g - s, f);
    var afterTax := SubtractDecimals(afterFee, sale.tax).value;
    MultiplesAdd(afterFee, sale.tax, afterTax, q, g - s - f, t);
    WholeInQuanta(afterTax, q, g - s - f - t);
  }

  /** A sale conserves cash: its gross value is exactly slippage, fee, tax and net proceeds. */
  lemma SaleConserves(p: Profile, quantity: Decimal, price: Decimal)
    requires SaleProceeds(p, quantity, price).Ok?
    ensures var s := SaleProceeds(p, quantity, price).value;
            && Value(s.gross) == Value(s.slippage) + Value(s.fee) + Value(s.tax) + Value(s.net)
            && Value(p.quantum) > 0.0
            && (exists k :: Multiple(s.net, p.quantum, k))
            && Value(s.gross) <= Times(Value(quantity), Value(price)) < Value(s.gross) + Value(p.quantum)
  {
    hide Value, Rounds, Multiple, Share, MultiplyDecimals, AddDecimals, SubtractDecimals, FloorToQuantum,
         RoundToQuantum, Over, Times;
    var sale, q := SaleProceeds(p, quantity, price).value, p.quantum;
    var g, s, f, t := SaleQuanta(p, quantity, price);
    PartsAdd(sale, q, g, s, f, t);
    FloorBounds(Times(Value(quantity), Value(price)), sale.gross, q);
  }

  lemma PartsAdd(c: Sale, q: Decimal, g: int, s: int, f: int, t: int)
    requires Multiple(c.gross, q, g) && Multiple(c.slippage, q, s) && Multiple(c.fee, q, f) && Multiple(c.tax, q, t)
    requires Multiple(c.net, q, g - s - f - t)
    ensures Value(c.gross) == Value(c.slippage) + Value(c.fee) + Value(c.tax) + Value(c.net)
  {
    hide Value, Times;
    Distribute(g as real, s as real, Value(q));
    Distribute((g - s) as real, f as real, Value(q));
    Distribute((g - s - f) as real, t as real, Value(q));
  }

  lemma FloorBounds(x: real, d: Decimal, quantum: Decimal)
    requires Value(quantum) > 0.0 && Multiple(d, quantum, Over(x, Value(quantum)).Floor)
    ensures Value(d) <= x < Value(d) + Value(quantum)
  {
    RealFloorBounds(x, Value(quantum), Over(x, Value(quantum)).Floor);
  }

  lemma RealFloorBounds(x: real, q: real, k: int)
    requires q > 0.0 && k == Over(x, q).Floor
    ensures Times(k as real, q) <= x < Times(k as real, q) + q
  {
    hide Over, Times;
    OverTimes(x, q);
    ProductBounds(Over(x, q), q, k as real);
  }
}
