/** The sizing run: targets and initial quantities, the funding adjustment, and the result with its
    cash accounts. */
module SizingEngine {
  import opened StateMachine
  import opened Decimals
  import opened Costs
  import opened Sizing
  import opened CostLimits

  // Targets and initial quantities

  function Target(c: Configuration, spendable: Decimal, stage: Stage): Checked<Decimal> {
    var share :- MultiplyDecimals(spendable, Weight(stage));
    c.profile.MoneyDown(share)
  }

  /** So many minimum quantities where odd lots are allowed, so many lots where they are not. */
  predicate IsLots(c: Configuration, quantity: Decimal, m: int) {
    Value(quantity) == Times(m as real, Value(if c.oddLots then c.minimum else c.lot))
  }

  /** A quantity on the lot grid that is zero or at least the minimum. */
  ghost predicate OnGrid(c: Configuration, quantity: Decimal) {
    && (exists m: nat :: IsLots(c, quantity, m))
    && (Value(quantity) == 0.0 || Value(quantity) >= Value(c.minimum))
  }

  function QuantityForTarget(c: Configuration, target: Decimal, unitCost: Decimal): Checked<Decimal> {
    var lotCost :- MultiplyDecimals(unitCost, c.Increment());
    var count :- FloorDivide(target, lotCost);
    var quantity :- Lots(c, count);
    Ok(if Value(quantity) < Value(c.minimum) then ZERO else quantity)
  }

  /** An initial quantity lies on the grid, and at the rounded cost of one unit it does not cost
      more than its target. */
  lemma QuantityFits(c: Configuration, target: Decimal, unitCost: Decimal)
    requires c.Valid() && Value(target) >= 0.0 && QuantityForTarget(c, target, unitCost).Ok?
    ensures var quantity := QuantityForTarget(c, target, unitCost).value;
            OnGrid(c, quantity) && Times(Value(unitCost), Value(quantity)) <= Value(target)
  {
    hide Value, Times, Over, FloorDivide, MultiplyDecimals, Lots;
    var increment := Value(c.Increment());
    var lotCost := MultiplyDecimals(unitCost, c.Increment()).value;
    var count := FloorDivide(target, lotCost).value;
    LotsValue(c, count);
    var k := count as real;
    OverTimes(Value(target), Value(lotCost));
    ProductBounds(Over(Value(target), Value(lotCost)), Value(lotCost), k);
    NonNegative(Value(target), Value(lotCost));
    ThreeFactors(k, Value(unitCost), increment);
    ZeroValue();
    Units(Value(unitCost));
    Units(increment);
    Commute(Value(unitCost), 0.0);
    assert IsLots(c, ZERO, 0);
    assert IsLots(c, QuantityForTarget(c, target, unitCost).value, count)
        || IsLots(c, QuantityForTarget(c, target, unitCost).value, 0);
  }

  lemma ZeroValue()
    ensures Value(ZERO) == 0.0
  {
  }

  lemma NonNegative(x: real, y: real)
    requires x >= 0.0 && y > 0.0
    ensures Over(x, y) >= 0.0 && Over(x, y).Floor >= 0
  {
  }

  lemma ThreeFactors(k: real, u: real, i: real)
    ensures Times(k, Times(u, i)) == Times(u, Times(k, i))
  {
    hide Times;
    Associate(k, u, i);
    Commute(k, u);
    Associate(u, k, i);
  }

  /** No other grid quantity that fits the target at the cost of one unit is larger. */
  lemma QuantityIsLargest(c: Configuration, target: Decimal, unitCost: Decimal, other: Decimal)
    requires c.Valid() && Value(unitCost) > 0.0 && QuantityForTarget(c, target, unitCost).Ok?
    requires OnGrid(c, other) && Times(Value(unitCost), Value(other)) <= Value(target)
    ensures Value(other) <= Value(QuantityForTarget(c, target, unitCost).value)
  {
    hide Value, Times, Over, FloorDivide, MultiplyDecimals, Lots;
    var increment := Value(c.Increment());
    var lotCost := MultiplyDecimals(unitCost, c.Increment()).value;
    var count := FloorDivide(target, lotCost).value;
    var m: nat :| IsLots(c, other, m);
    var k, l := count as real, m as real;
    LotsValue(c, count);
    ThreeFactors(l, Value(unitCost), increment);
    OverTimes(Value(target), Value(lotCost));
    Scaling(l, Over(Value(target), Value(lotCost)), Value(lotCost));
    FloorAtLeast(Over(Value(target), Value(lotCost)), m);
    Scaling(l, k, increment);
    if Value(other) < Value(c.minimum) {
      BelowMinimumIsZero(c, other);
      ZeroValue();
    }
  }

  lemma FloorAtLeast(x: real, m: int)
    requires m as real <= x
    ensures m <= x.Floor
  {
  }

  /** The initial quantity of a stage. */
  function Planned(c: Configuration, target: Decimal, unitCost: Decimal): Checked<Decimal> {
    if Value(unitCost) <= 0.0 then Ok(ZERO) else QuantityForTarget(c, target, unitCost)
  }

  function UnitCost(c: Configuration, price: Decimal): Checked<Decimal> {
    var unit :- PurchaseCost(c.profile, Decimal(1, 0), price);
    Ok(unit.total)
  }

  predicate Plannable(c: Configuration, price: Decimal, spendable: Decimal) {
    && UnitCost(c, price).Ok?
    && forall i :: 0 <= i < |c.stages| ==>
         && Target(c, spendable, c.stages[i]).Ok?
         && Planned(c, Target(c, spendable, c.stages[i]).value, UnitCost(c, price).value).Ok?
  }

  method InitialQuantities(c: Configuration, price: Decimal, spendable: Decimal)
    returns (r: Checked<(seq<Decimal>, seq<Decimal>)>)
    requires c.Valid() && Value(spendable) >= 0.0
    ensures r.Ok? <==> Plannable(c, price, spendable)
    ensures r.Ok? ==>
              var (quantities, targets) := r.value;
              && |quantities| == |targets| == |c.stages|
              && forall i :: 0 <= i < |c.stages| ==>
                   && OnGrid(c, quantities[i]) && InLots(c, quantities[i])
                   && Target(c, spendable, c.stages[i]) == Ok(targets[i])
                   && Planned(c, targets[i], UnitCost(c, price).value) == Ok(quantities[i])
  {
    hide Target, QuantityForTarget, PurchaseCost, OnGrid, InLots;
    var unit := PurchaseCost(c.profile, Decimal(1, 0), price);
    if unit.Rejected? {
      return Rejected;
    }
    var quantities, targets := [], [];
    for i := 0 to |c.stages|
      invariant |quantities| == |targets| == i
      invariant forall j :: 0 <= j < i ==>
                  && OnGrid(c, quantities[j]) && InLots(c, quantities[j])
                  && Target(c, spendable, c.stages[j]) == Ok(targets[j])
                  && Planned(c, targets[j], unit.value.total) == Ok(quantities[j])
    {
      var target := Target(c, spendable, c.stages[i]);
      if target.Rejected? {
        return Rejected;
      }
      TargetNonNegative(c, spendable, c.stages[i]);
      var quantity := if Value(unit.value.total) <= 0.0 then Ok(ZERO)
                      else QuantityForTarget(c, target.value, unit.value.total);
      assert quantity == Planned(c, target.value, unit.value.total);
      if quantity.Rejected? {
        return Rejected;
      }
      ZeroOnGrid(c);
      PlannedInLots(c, target.value, unit.value.total);
      if Value(unit.value.total) > 0.0 {
        QuantityFits(c, target.value, unit.value.total);
      }
      quantities, targets := quantities + [quantity.value], targets + [target.value];
    }
    r := Ok((quantities, targets));
  }

  lemma PlannedInLots(c: Configuration, target: Decimal, unitCost: Decimal)
    requires Value(target) >= 0.0 && Planned(c, target, unitCost).Ok?
    ensures InLots(c, Planned(c, target, unitCost).value)
  {
    hide Value, Over, Times, FloorDivide, MultiplyDecimals, Lots;
    if Value(unitCost) > 0.0 && Planned(c, target, unitCost).value != ZERO {
      var lotCost := MultiplyDecimals(unitCost, c.Increment()).value;
      var count := FloorDivide(target, lotCost).value;
      NonNegative(Value(target), Value(lotCost));
      assert IsLot(c, Planned(c, target, unitCost).value, count);
    }
  }

  lemma ZeroOnGrid(c: Configuration)
    ensures OnGrid(c, ZERO)
  {
    hide Times;
    ZeroValue();
    Units(Value(c.Increment()));
    assert IsLots(c, ZERO, 0);
  }

  lemma TargetBounds(c: Configuration, spendable: Decimal, stage: Stage)
    requires Target(c, spendable, stage).Ok?
    ensures var t, share := Value(Target(c, spendable, stage).value), Times(Value(spendable), Value(Weight(stage)));
            && Value(c.profile.quantum) > 0.0
            && t <= share < t + Value(c.profile.quantum)
            && exists k :: Multiple(Target(c, spendable, stage).value, c.profile.quantum, k)
  {
    hide Value, Times, Over, MultiplyDecimals;
    var share := MultiplyDecimals(spendable, Weight(stage)).value;
    FloorBounds(Value(share), Target(c, spendable, stage).value, c.profile.quantum);
  }

  lemma TargetNonNegative(c: Configuration, spendable: Decimal, stage: Stage)
    requires Target(c, spendable, stage).Ok? && Value(spendable) >= 0.0
    ensures Value(Target(c, spendable, stage).value) >= 0.0
  {
    hide Value, Times, Over, MultiplyDecimals;
    var share, q := MultiplyDecimals(spendable, Weight(stage)).value, Value(c.profile.quantum);
    WeightNonNegative(stage);
    NonNegativeProduct(Value(spendable), Value(Weight(stage)));
    NonNegative(Value(share), q);
    var k := Over(Value(share), q).Floor;
    NonNegativeProduct(k as real, q);
  }

  lemma WeightNonNegative(stage: Stage)
    ensures Value(Weight(stage)) >= 0.0
  {
    PositiveCoefficient(Weight(stage));
  }

  lemma NonNegativeProduct(x: real, y: real)
    requires x >= 0.0 && y >= 0.0
    ensures Times(x, y) >= 0.0
  {
  }

  // Targets add up

  function Sum(values: seq<Decimal>): real {
    if values == [] then 0.0 else Sum(values[..|values| - 1]) + Value(values[|values| - 1])
  }

  lemma {:induction false} TargetsFollowPoints(c: Configuration, spendable: Decimal, targets: seq<Decimal>, n: nat)
    requires n <= |targets| == |c.stages| && Value(spendable) >= 0.0 && c.Valid()
    requires forall i :: 0 <= i < |targets| ==> Target(c, spendable, c.stages[i]) == Ok(targets[i])
    ensures var share := Times(Value(spendable), Value(Decimal(PointsOf(c.stages[..n]), -4)));
            Sum(targets[..n]) <= share && share <= Sum(targets[..n]) + Times(n as real, Value(c.profile.quantum))
    ensures n > 0 ==> Times(Value(spendable), Value(Decimal(PointsOf(c.stages[..n]), -4)))
                      < Sum(targets[..n]) + Times(n as real, Value(c.profile.quantum))
  {
    hide Value, Times, Target;
    if n == 0 {
      PositiveCoefficient(Decimal(0, -4));
      Units(Value(spendable));
      Commute(Value(spendable), 0.0);
      Units(Value(c.profile.quantum));
    } else {
      TargetsFollowPoints(c, spendable, targets, n - 1);
      assert targets[..n][..n - 1] == targets[..n - 1] && c.stages[..n][..n - 1] == c.stages[..n - 1];
      TargetBounds(c, spendable, c.stages[n - 1]);
      PointsAdd(Value(spendable), PointsOf(c.stages[..n - 1]), c.stages[n - 1].basisPoints);
      Distribute((n - 1) as real, 1.0, Value(c.profile.quantum));
      Units(Value(c.profile.quantum));
    }
  }

  lemma PointsAdd(spendable: real, a: int, b: int)
    ensures Times(spendable, Value(Decimal(a + b, -4)))
            == Times(spendable, Value(Decimal(a, -4))) + Times(spendable, Value(Decimal(b, -4)))
  {
    hide Times, Power;
    var p := Power(-4);
    Distribute(a as real, b as real, p);
    Commute(spendable, Times(a as real, p));
    Commute(spendable, Times(b as real, p));
    Commute(spendable, Times((a + b) as real, p));
    Distribute(Times(a as real, p), Times(b as real, p), spendable);
  }

  /** The stage targets never exceed what may be spent, and fall short of it by less than one
      quantum per stage. */
  lemma {:induction false} TargetsSpendAll(c: Configuration, spendable: Decimal, targets: seq<Decimal>)
    requires c.Valid() && |targets| == |c.stages| && Value(spendable) >= 0.0
    requires forall i :: 0 <= i < |targets| ==> Target(c, spendable, c.stages[i]) == Ok(targets[i])
    ensures Sum(targets) <= Value(spendable) < Sum(targets) + Times(|c.stages| as real, Value(c.profile.quantum))
  {
    hide Value, Times, Target;
    var n := |c.stages|;
    TargetsFollowPoints(c, spendable, targets, n);
    assert targets[..n] == targets && c.stages[..n] == c.stages;
    TenThousand();
    Units(Value(spendable));
  }

  // The funding adjustment

  datatype Funded = Kept(quantities: seq<Decimal>) | Emptied

  predicate Pays(c: Configuration, price: Decimal, funding: Decimal, quantities: seq<Decimal>) {
    var total := TotalCash(c, price, quantities);
    total.Ok? && Value(total.value) <= Value(funding)
  }

  /** Stage `cut` holds the largest affordable number of lots while the stages before it keep their
      initial quantities and the stages after it are empty; without the cut the purchases could
      not be paid. */
  ghost predicate CutAt(c: Configuration, price: Decimal, funding: Decimal, initial: seq<Decimal>,
                        quantities: seq<Decimal>, cut: nat)
    requires |initial| == |quantities| && cut < |initial|
  {
    var uncut := quantities[cut := initial[cut]];
    && (forall j :: 0 <= j < cut ==> quantities[j] == initial[j])
    && (forall j :: cut < j < |initial| ==> Value(quantities[j]) == 0.0)
    && TotalCash(c, price, uncut).Ok? && !Pays(c, price, funding, uncut)
    && exists m: nat :: IsLargest(c, price, funding, uncut, cut, m) && Lots(c, m) == Ok(quantities[cut])
  }

  /** The outcome of the adjustment: the initial quantities if they can be paid, else one cut. */
  ghost predicate Greedy(c: Configuration, price: Decimal, funding: Decimal, initial: seq<Decimal>,
                         quantities: seq<Decimal>)
  {
    && |initial| == |quantities|
    && Pays(c, price, funding, quantities)
    && (quantities == initial
        || exists cut: nat :: cut < |initial| && CutAt(c, price, funding, initial, quantities, cut))
  }

  lemma BelowMinimumIsZero(c: Configuration, quantity: Decimal)
    requires OnGrid(c, quantity) && Value(quantity) < Value(c.minimum)
    ensures Value(quantity) == 0.0
  {
  }

  lemma NoLots(c: Configuration)
    requires Lots(c, 0).Ok?
    ensures Value(Lots(c, 0).value) == 0.0
  {
    hide Value, Times;
    LotsValue(c, 0);
    Units(Value(c.Increment()));
  }

  /** A cut that leaves the purchases unpaid emptied its stage. */
  lemma UnpaidCutIsEmpty(c: Configuration, price: Decimal, funding: Decimal, initial: seq<Decimal>,
                         quantities: seq<Decimal>, cut: nat)
    requires |initial| == |quantities| && cut < |initial|
    requires CutAt(c, price, funding, initial, quantities, cut) && !Pays(c, price, funding, quantities)
    ensures Value(quantities[cut]) == 0.0
  {
    hide Value, Lots, TotalCash, FloorDivide;
    var uncut := quantities[cut := initial[cut]];
    var m: nat :| IsLargest(c, price, funding, uncut, cut, m) && Lots(c, m) == Ok(quantities[cut]);
    assert uncut[cut := quantities[cut]] == quantities;
    if m == 0 {
      NoLots(c);
    }
  }

  /** Reducing a stage to its largest affordable lots, with later stages empty, is a cut there. */
  lemma {:induction false} CutMade(c: Configuration, price: Decimal, funding: Decimal, initial: seq<Decimal>,
                                   quantities: seq<Decimal>, i: nat, lots: Decimal)
    requires |initial| == |quantities| && i < |initial|
    requires forall j :: 0 <= j <= i ==> quantities[j] == initial[j]
    requires forall j :: i < j < |initial| ==> Value(quantities[j]) == 0.0
    requires TotalCash(c, price, quantities).Ok? && !Pays(c, price, funding, quantities)
    requires exists m: nat :: IsLargest(c, price, funding, quantities, i, m) && Lots(c, m) == Ok(lots)
    ensures CutAt(c, price, funding, initial, quantities[i := lots], i)
  {
    hide TotalCash, Value, IsLargest, Lots, Pays;
    assert quantities[i := lots][i := initial[i]] == quantities;
  }

  /** Purchases of planned lots that can be costed can be reduced in any stage. */
  lemma {:induction false} PlansAreSearchable(c: Configuration, price: Decimal, initial: seq<Decimal>,
                                              quantities: seq<Decimal>, i: nat)
    requires c.Valid() && AllInLots(c, initial) && AllBeneath(quantities, initial) && i < |initial|
    requires TotalCash(c, price, initial).Ok? && quantities[i] == initial[i] && Value(initial[i]) >= Value(c.minimum)
    ensures Searchable(c, price, quantities, i)
    ensures forall m: nat, lots ::
              WithinLots(c, initial[i], m) && Lots(c, m) == Ok(lots) ==> Beneath(lots, initial[i])
    ensures WithinLots(c, initial[i], 0)
  {
    hide TotalCash, Lots, FloorDivide, Value;
    ZeroValue();
    var n: nat :| IsLot(c, initial[i], n);
    SmallerCash(c, price, quantities, initial);
    LotsAreBeneath(c, initial);
    LotsAreSearchable(c, price, quantities, i, n);
  }

  predicate WithinLots(c: Configuration, initial: Decimal, m: int) {
    FloorDivide(initial, c.Increment()).Ok? && 0 <= m <= FloorDivide(initial, c.Increment()).value
  }

  lemma LargestIsBeneath(c: Configuration, price: Decimal, funding: Decimal, quantities: seq<Decimal>, i: nat,
                         lots: Decimal)
    requires i < |quantities| && WithinLots(c, quantities[i], 0)
    requires exists m: nat :: IsLargest(c, price, funding, quantities, i, m) && Lots(c, m) == Ok(lots)
    requires forall m: nat, q :: WithinLots(c, quantities[i], m) && Lots(c, m) == Ok(q) ==> Beneath(q, quantities[i])
    ensures Beneath(lots, quantities[i])
  {
    hide FloorDivide, Lots, Affordable, Value, Beneath;
  }

  /** Brings the purchases within the funding from the last stage forwards. With funding for the
      reserve it never gives up: neither the exhausted search nor the final check can empty the plan. */
  method EnforceFunding(c: Configuration, price: Decimal, funding: Decimal, initial: seq<Decimal>)
    returns (r: Checked<Funded>)
    requires c.Valid() && Value(c.reserve) <= Value(funding)
    requires forall i :: 0 <= i < |initial| ==> OnGrid(c, initial[i])
    ensures AllInLots(c, initial) ==> (r.Ok? <==> TotalCash(c, price, initial).Ok?)
    ensures r.Ok? ==>
              && r.value.Kept?
              && Greedy(c, price, funding, initial, r.value.quantities)
              && (AllInLots(c, initial) ==> AllBeneath(r.value.quantities, initial))
  {
    hide TotalCash, Value, IsLargest, Lots, OnGrid, FloorDivide, Searchable, WithinLots, AllInLots, Beneath, CutAt;
    ghost var inLots, costed := AllInLots(c, initial), TotalCash(c, price, initial).Ok?;
    if inLots {
      LotsAreBeneath(c, initial);
    }
    var quantities, i, paid := initial, |initial|, false;
    ghost var cut := |initial|;
    while i > 0
      invariant 0 <= i <= |initial| == |quantities| && i <= cut <= |initial|
      invariant forall j :: 0 <= j < i ==> quantities[j] == initial[j]
      invariant forall j :: i <= j < |initial| && j != cut ==> Value(quantities[j]) == 0.0
      invariant inLots ==> AllBeneath(quantities, initial)
      invariant cut < |initial| ==> costed
      invariant if cut == |initial| then quantities == initial else CutAt(c, price, funding, initial, quantities, cut)
    {
      var total := SumCash(c, price, quantities);
      if inLots && costed {
        SmallerCash(c, price, quantities, initial);
      }
      if total.Rejected? {
        return Rejected;
      }
      if Value(total.value) <= Value(funding) {
        break;
      }
      if cut < |initial| {
        UnpaidCutIsEmpty(c, price, funding, initial, quantities, cut);
      }
      i := i - 1;
      if Value(quantities[i]) < Value(c.minimum) {
        BelowMinimumIsZero(c, quantities[i]);
        continue;
      }
      if inLots {
        PlansAreSearchable(c, price, initial, quantities, i);
      }
      var adjusted := MaxAffordableQuantity(c, price, funding, quantities, i);
      if adjusted.Rejected? {
        return Rejected;
      }
      if adjusted.value.None? {
        return Ok(Emptied);
      }
      CutMade(c, price, funding, initial, quantities, i, adjusted.value.value);
      if inLots {
        LargestIsBeneath(c, price, funding, quantities, i, adjusted.value.value);
      }
      quantities := quantities[i := adjusted.value.value];
      cut := i;
    }
    var total := SumCash(c, price, quantities);
    if inLots && costed {
      SmallerCash(c, price, quantities, initial);
    }
    if total.Rejected? {
      return Rejected;
    }
    if Value(total.value) > Value(funding) {
      if cut < |initial| {
        UnpaidCutIsEmpty(c, price, funding, initial, quantities, cut);
      }
      ZeroCash(c, price, quantities);
      return Ok(Emptied);
    }
    assert Pays(c, price, funding, quantities);
    r := Ok(Kept(quantities));
  }

  // The outcome of the adjustment is unique

  /** Without the cut the purchases could not be paid, so no outcome keeps more stages. */
  lemma CutIsNeeded(c: Configuration, price: Decimal, funding: Decimal, initial: seq<Decimal>, a: seq<Decimal>,
                    cut: nat, b: seq<Decimal>)
    requires c.Valid() && |a| == |b| == |initial| && cut < |initial|
    requires CutAt(c, price, funding, initial, a, cut) && AllBeneath(b, initial)
    requires forall j :: 0 <= j <= cut ==> b[j] == initial[j]
    ensures !Pays(c, price, funding, b)
  {
    hide Value, TotalCash, IsLargest, Lots;
    var uncut := a[cut := initial[cut]];
    forall j | 0 <= j < |initial| ensures Value(uncut[j]) <= Value(b[j]) {
      PositiveCoefficient(b[j]);
    }
    if Pays(c, price, funding, b) {
      CashIsMonotone(c, price, uncut, b);
    }
  }

  /** An emptied quantity on a known scale is known. */
  lemma EmptiesAgree(a: Decimal, b: Decimal, initial: Decimal)
    requires Beneath(a, initial) && Beneath(b, initial) && Value(a) == Value(b) == 0.0
    ensures a == b
  {
    hide Value;
    ZeroCoefficient(a);
    ZeroCoefficient(b);
  }

  lemma CutsAgree(c: Configuration, price: Decimal, funding: Decimal, initial: seq<Decimal>, a: seq<Decimal>,
                  b: seq<Decimal>, cut: nat)
    requires |a| == |b| == |initial| && cut < |initial| && AllBeneath(a, initial) && AllBeneath(b, initial)
    requires CutAt(c, price, funding, initial, a, cut) && CutAt(c, price, funding, initial, b, cut)
    ensures a == b
  {
    hide Value, TotalCash, Lots, Beneath, Affordable, FloorDivide;
    forall j | cut < j < |initial| ensures a[j] == b[j] {
      EmptiesAgree(a[j], b[j], initial[j]);
    }
    var uncut := a[cut := initial[cut]];
    assert uncut == b[cut := initial[cut]];
    var m: nat :| IsLargest(c, price, funding, uncut, cut, m) && Lots(c, m) == Ok(a[cut]);
    var n: nat :| IsLargest(c, price, funding, uncut, cut, n) && Lots(c, n) == Ok(b[cut]);
    assert m == n;
  }

  /** The outcome of the adjustment on the scales of the initial quantities. */
  ghost predicate Adjusts(c: Configuration, price: Decimal, funding: Decimal, initial: seq<Decimal>,
                          quantities: seq<Decimal>)
  {
    Greedy(c, price, funding, initial, quantities) && AllBeneath(quantities, initial)
  }

  /** The adjustment has one outcome only. */
  lemma GreedyIsUnique(c: Configuration, price: Decimal, funding: Decimal, initial: seq<Decimal>, a: seq<Decimal>,
                       b: seq<Decimal>)
    requires c.Valid() && Adjusts(c, price, funding, initial, a) && Adjusts(c, price, funding, initial, b)
    ensures a == b
  {
    hide CutAt, Pays, Beneath;
    if a == initial && b != initial {
      var cut: nat :| cut < |initial| && CutAt(c, price, funding, initial, b, cut);
      CutIsNeeded(c, price, funding, initial, b, cut, a);
    } else if a != initial && b == initial {
      var cut: nat :| cut < |initial| && CutAt(c, price, funding, initial, a, cut);
      CutIsNeeded(c, price, funding, initial, a, cut, b);
    } else if a != initial {
      var j: nat :| j < |initial| && CutAt(c, price, funding, initial, a, j);
      var k: nat :| k < |initial| && CutAt(c, price, funding, initial, b, k);
      CutKeeps(c, price, funding, initial, a, j);
      CutKeeps(c, price, funding, initial, b, k);
      if j < k {
        CutIsNeeded(c, price, funding, initial, a, j, b);
      } else if k < j {
        CutIsNeeded(c, price, funding, initial, b, k, a);
      } else {
        CutsAgree(c, price, funding, initial, a, b, j);
      }
    }
  }

  lemma CutKeeps(c: Configuration, price: Decimal, funding: Decimal, initial: seq<Decimal>, a: seq<Decimal>, cut: nat)
    requires |a| == |initial| && cut < |initial| && CutAt(c, price, funding, initial, a, cut)
    ensures forall j :: 0 <= j < cut ==> a[j] == initial[j]
  {
  }

  /** The adjusted quantities stay on the lot grid and nowhere exceed the initial ones. */
  lemma GreedyFits(c: Configuration, price: Decimal, funding: Decimal, initial: seq<Decimal>, quantities: seq<Decimal>,
                   j: nat)
    requires c.Valid() && Greedy(c, price, funding, initial, quantities) && j < |initial|
    requires forall i :: 0 <= i < |initial| ==> OnGrid(c, initial[i])
    ensures OnGrid(c, quantities[j]) && 0.0 <= Value(quantities[j]) <= Value(initial[j])
  {
    hide Value, Times, TotalCash, Lots, FloorDivide, Pays;
    GridIsNonNegative(c, initial[j]);
    if quantities[j] != initial[j] {
      var cut: nat :| cut < |initial| && CutAt(c, price, funding, initial, quantities, cut);
      var uncut := quantities[cut := initial[cut]];
      var m: nat :| IsLargest(c, price, funding, uncut, cut, m) && Lots(c, m) == Ok(quantities[cut]);
      if j > cut {
        Units(Value(c.Increment()));
        assert IsLots(c, quantities[j], 0);
      } else {
        LotsFit(c, initial[cut], quantities[cut], m);
      }
    }
  }

  lemma GridIsNonNegative(c: Configuration, quantity: Decimal)
    requires c.Valid() && OnGrid(c, quantity)
    ensures Value(quantity) >= 0.0
  {
  }

  lemma LotsFit(c: Configuration, initial: Decimal, quantity: Decimal, m: nat)
    requires c.Valid() && OnGrid(c, initial) && Lots(c, m) == Ok(quantity)
    requires FloorDivide(initial, c.Increment()).Ok? && (m > 0 ==> m <= FloorDivide(initial, c.Increment()).value)
    ensures OnGrid(c, quantity) && 0.0 <= Value(quantity) <= Value(initial)
  {
    hide Value, Times, Over, Lots, FloorDivide;
    var increment, k := Value(c.Increment()), FloorDivide(initial, c.Increment()).value;
    LotsValue(c, m);
    assert IsLots(c, quantity, m);
    GridIsNonNegative(c, initial);
    Units(increment);
    OverTimes(Value(initial), increment);
    ProductBounds(Over(Value(initial), increment), increment, k as real);
    Scaling(m as real, k as real, increment);
    Scaling(1.0, m as real, increment);
    Scaling(0.0, m as real, increment);
  }

  // The result

  datatype Status = Actionable | InsufficientCash | NoPurchaseQuantity

  datatype StageSizing = StageSizing(target: Decimal, quantity: Decimal, cost: Purchase)

  datatype SizingRequest = SizingRequest(
    saleQuantity: Decimal,
    salePrice: Decimal,
    price: Decimal,
    available: Decimal,
    configuration: Configuration)
  {
    ghost predicate Valid() {
      configuration.Valid() && Value(saleQuantity) >= 0.0 && Value(available) >= 0.0
      && Value(salePrice) > 0.0 && Value(price) > 0.0
    }
  }

  datatype SizingResult = SizingResult(
    status: Status,
    sale: Sale,
    stages: seq<StageSizing>,
    required: Decimal,
    costs: Decimal,
    total: Decimal,
    remaining: Decimal)

  function StageCash(stages: seq<StageSizing>): real {
    if stages == [] then 0.0 else StageCash(stages[..|stages| - 1]) + Value(stages[|stages| - 1].cost.total)
  }

  function StageGross(stages: seq<StageSizing>): real {
    if stages == [] then 0.0 else StageGross(stages[..|stages| - 1]) + Value(stages[|stages| - 1].cost.gross)
  }

  method StageResults(c: Configuration, price: Decimal, targets: seq<Decimal>, quantities: seq<Decimal>)
    returns (r: Checked<seq<StageSizing>>)
    requires |targets| == |quantities|
    ensures r.Ok? <==> forall i :: 0 <= i < |quantities| ==> PurchaseCost(c.profile, quantities[i], price).Ok?
    ensures r.Ok? ==>
              && |r.value| == |quantities|
              && forall i :: 0 <= i < |quantities| ==>
                   && r.value[i].target == targets[i]
                   && r.value[i].quantity == quantities[i]
                   && PurchaseCost(c.profile, quantities[i], price) == Ok(r.value[i].cost)
  {
    hide PurchaseCost;
    var stages: seq<StageSizing> := [];
    for i := 0 to |quantities|
      invariant |stages| == i
      invariant forall j :: 0 <= j < i ==>
                  && stages[j].target == targets[j]
                  && stages[j].quantity == quantities[j]
                  && PurchaseCost(c.profile, quantities[j], price) == Ok(stages[j].cost)
    {
      var cost := PurchaseCost(c.profile, quantities[i], price);
      if cost.Rejected? {
        return Rejected;
      }
      stages := stages + [StageSizing(targets[i], quantities[i], cost.value)];
    }
    r := Ok(stages);
  }

  lemma {:induction false} CashOfStages(c: Configuration, price: Decimal, quantities: seq<Decimal>,
                                        stages: seq<StageSizing>)
    requires |stages| == |quantities| && TotalCash(c, price, quantities).Ok?
    requires forall i :: 0 <= i < |stages| ==> PurchaseCost(c.profile, quantities[i], price) == Ok(stages[i].cost)
    ensures Value(TotalCash(c, price, quantities).value) == Value(c.reserve) + StageCash(stages)
  {
    hide PurchaseCost, Value, AddDecimals;
    if stages != [] {
      var n := |stages| - 1;
      CashOfStages(c, price, quantities[..n], stages[..n]);
    }
  }

  /** The purchase values and the cash of the stages, added up in order. */
  function Totals(stages: seq<StageSizing>): Checked<(Decimal, Decimal)> {
    if stages == [] then Ok((ZERO, ZERO))
    else
      var n := |stages| - 1;
      var before :- Totals(stages[..n]);
      var gross :- AddDecimals(before.0, stages[n].cost.gross);
      var cash :- AddDecimals(before.1, stages[n].cost.total);
      Ok((gross, cash))
  }

  lemma {:induction false} TotalsAre(stages: seq<StageSizing>)
    requires Totals(stages).Ok?
    ensures Value(Totals(stages).value.0) == StageGross(stages) && Value(Totals(stages).value.1) == StageCash(stages)
  {
    hide Value, AddDecimals;
    ZeroValue();
    if stages != [] {
      TotalsAre(stages[..|stages| - 1]);
    }
  }

  lemma {:induction false} TotalsSpread(stages: seq<StageSizing>, i: nat)
    requires i <= |stages| && Totals(stages[..i]).Rejected?
    ensures Totals(stages).Rejected?
    decreases |stages| - i
  {
    if i < |stages| {
      assert stages[..i + 1][..i] == stages[..i];
      TotalsSpread(stages, i + 1);
    } else {
      assert stages[..i] == stages;
    }
  }

  /** The cash account of a result. A remainder below zero is shown as zero; a result with a
      negative amount, or an actionable one beyond its funding, is rejected. */
  function AccountOf(status: Status, sale: Sale, stages: seq<StageSizing>, available: Decimal, reserve: Decimal)
    : Checked<SizingResult>
  {
    var totals :- Totals(stages);
    var costs :- SubtractDecimals(totals.1, totals.0);
    var total :- AddDecimals(totals.1, reserve);
    var funding :- AddDecimals(available, sale.net);
    var remaining :- SubtractDecimals(funding, total);
    if && (forall amount :: amount in [available, sale.net, reserve, totals.0, costs, total] ==> Value(amount) >= 0.0)
       && (status == Actionable ==> Value(total) <= Value(funding))
    then Ok(SizingResult(status, sale, stages, totals.0, costs, total,
                         if Value(remaining) < 0.0 then ZERO else remaining))
    else Rejected
  }

  /** What an account says of the cash. */
  lemma {:induction false} AccountIs(status: Status, sale: Sale, stages: seq<StageSizing>, available: Decimal,
                                     reserve: Decimal)
    requires AccountOf(status, sale, stages, available, reserve).Ok?
    ensures var r := AccountOf(status, sale, stages, available, reserve).value;
            var funding, spent := Value(available) + Value(sale.net), StageCash(stages) + Value(reserve);
            && Value(r.required) == StageGross(stages)
            && Value(r.costs) == StageCash(stages) - StageGross(stages)
            && Value(r.total) == spent
            && Value(r.remaining) == (if funding < spent then 0.0 else funding - spent)
            && Value(sale.net) >= 0.0
            && (status == Actionable ==> spent <= funding)
  {
    hide Value, AddDecimals, SubtractDecimals, Totals;
    TotalsAre(stages);
    ZeroValue();
    assert sale.net in [available, sale.net, reserve, Totals(stages).value.0,
                        SubtractDecimals(Totals(stages).value.1, Totals(stages).value.0).value,
                        AddDecimals(Totals(stages).value.1, reserve).value];
  }

  method Account(status: Status, sale: Sale, stages: seq<StageSizing>, available: Decimal, reserve: Decimal)
    returns (r: Checked<SizingResult>)
    ensures r == AccountOf(status, sale, stages, available, reserve)
  {
    hide Value, AddDecimals, SubtractDecimals;
    var gross, cash := ZERO, ZERO;
    for i := 0 to |stages|
      invariant Totals(stages[..i]) == Ok((gross, cash))
    {
      assert stages[..i + 1][..i] == stages[..i];
      var g, t := AddDecimals(gross, stages[i].cost.gross), AddDecimals(cash, stages[i].cost.total);
      if g.Rejected? || t.Rejected? {
        TotalsSpread(stages, i + 1);
        return Rejected;
      }
      gross, cash := g.value, t.value;
    }
    assert stages[..|stages|] == stages;
    var costs, total, funding := SubtractDecimals(cash, gross), AddDecimals(cash, reserve),
        AddDecimals(available, sale.net);
    if costs.Rejected? || total.Rejected? || funding.Rejected? {
      return Rejected;
    }
    var remaining := SubtractDecimals(funding.value, total.value);
    if remaining.Rejected? {
      return Rejected;
    }
    var shown := if Value(remaining.value) < 0.0 then ZERO else remaining.value;
    var amounts := [available, sale.net, reserve, gross, costs.value, total.value];
    for i := 0 to |amounts|
      invariant forall j :: 0 <= j < i ==> Value(amounts[j]) >= 0.0
    {
      if Value(amounts[i]) < 0.0 {
        assert amounts[i] in amounts;
        return Rejected;
      }
    }
    if status == Actionable && Value(total.value) > Value(funding.value) {
      return Rejected;
    }
    r := Ok(SizingResult(status, sale, stages, gross, costs.value, total.value, shown));
  }

  function Funding(request: SizingRequest, sale: Sale): real {
    Value(request.available) + Value(sale.net)
  }

  /** What a result says of its cash: funding is what the stages cost, the reserve, and the rest. */
  predicate Balances(request: SizingRequest, result: SizingResult) {
    Funding(request, result.sale)
    == StageCash(result.stages) + Value(request.configuration.reserve) + Value(result.remaining)
  }

  /** The stages of a result: targets that spend the funding above the reserve down to less than a
      quantum each, and the greedy adjustment of grid quantities for those targets. */
  ghost predicate Staged(request: SizingRequest, result: SizingResult, funding: Decimal, spendable: Decimal,
                         initial: seq<Decimal>)
  {
    var c := request.configuration;
    && Value(funding) == Funding(request, result.sale)
    && Value(spendable) == Value(funding) - Value(c.reserve)
    && |result.stages| == |c.stages| == |initial|
    && Greedy(c, request.price, funding, initial,
              seq(|initial|, i requires 0 <= i < |initial| => result.stages[i].quantity))
    && forall i :: 0 <= i < |initial| ==>
         && OnGrid(c, initial[i])
         && Target(c, spendable, c.stages[i]) == Ok(result.stages[i].target)
         && UnitCost(c, request.price).Ok?
         && Planned(c, result.stages[i].target, UnitCost(c, request.price).value) == Ok(initial[i])
         && PurchaseCost(c.profile, result.stages[i].quantity, request.price) == Ok(result.stages[i].cost)
  }

  predicate StagesOf(c: Configuration, price: Decimal, quantities: seq<Decimal>, stages: seq<StageSizing>) {
    && |stages| == |quantities|
    && forall i :: 0 <= i < |stages| ==>
         stages[i].quantity == quantities[i] && PurchaseCost(c.profile, quantities[i], price) == Ok(stages[i].cost)
  }

  /** The initial quantities that the planning gives. */
  function InitialOf(c: Configuration, price: Decimal, spendable: Decimal): (initial: seq<Decimal>)
    requires Plannable(c, price, spendable)
    ensures |initial| == |c.stages|
  {
    seq(|c.stages|, i requires 0 <= i < |c.stages| =>
      Planned(c, Target(c, spendable, c.stages[i]).value, UnitCost(c, price).value).value)
  }

  /** The account of any stages holding these quantities stays within the limits. */
  ghost predicate Accountable(request: SizingRequest, sale: Sale, quantities: seq<Decimal>) {
    var c := request.configuration;
    forall stages :: StagesOf(c, request.price, quantities, stages) ==>
      AccountOf(NoPurchaseQuantity, sale, stages, request.available, c.reserve).Ok?
  }

  /** The plan can be made, its purchases can be costed and added up, and what the adjustment leaves
      of them can be accounted for. */
  ghost predicate Fundable(request: SizingRequest, sale: Sale, funding: Decimal) {
    var c := request.configuration;
    var spendable := SubtractDecimals(funding, c.reserve);
    && Value(sale.net) >= 0.0
    && spendable.Ok?
    && Plannable(c, request.price, spendable.value)
    && var initial := InitialOf(c, request.price, spendable.value);
       && TotalCash(c, request.price, initial).Ok?
       && forall quantities :: Adjusts(c, request.price, funding, initial, quantities) ==>
            Accountable(request, sale, quantities)
  }

  /** When sizing succeeds: the sale, the funding and then either no purchase at all or the plan stay
      within the limits on digits. */
  ghost predicate Sizable(request: SizingRequest) {
    var c := request.configuration;
    var sale := SaleProceeds(c.profile, request.saleQuantity, request.salePrice);
    && sale.Ok?
    && AddDecimals(request.available, sale.value.net).Ok?
    && var funding := AddDecimals(request.available, sale.value.net).value;
       if Value(funding) < Value(c.reserve) then
         && PurchaseCost(c.profile, ZERO, request.price).Ok?
         && Accountable(request, sale.value, seq(|c.stages|, _ => ZERO))
       else Fundable(request, sale.value, funding)
  }

  /** Only the costs of the stages matter for whether they can be accounted for. */
  lemma {:induction false} SameTotals(c: Configuration, price: Decimal, quantities: seq<Decimal>,
                                      stages: seq<StageSizing>, others: seq<StageSizing>)
    requires StagesOf(c, price, quantities, stages) && StagesOf(c, price, quantities, others)
    ensures Totals(stages) == Totals(others)
  {
    hide PurchaseCost, AddDecimals;
    if stages != [] {
      var n := |stages| - 1;
      SameTotals(c, price, quantities[..n], stages[..n], others[..n]);
    }
  }

  lemma AccountableIs(request: SizingRequest, sale: Sale, quantities: seq<Decimal>, stages: seq<StageSizing>)
    requires StagesOf(request.configuration, request.price, quantities, stages)
    ensures Accountable(request, sale, quantities)
            <==> AccountOf(NoPurchaseQuantity, sale, stages, request.available, request.configuration.reserve).Ok?
  {
    hide StagesOf, Totals, Value, AddDecimals, SubtractDecimals;
    var c := request.configuration;
    forall others | StagesOf(c, request.price, quantities, others) ensures Totals(stages) == Totals(others) {
      SameTotals(c, request.price, quantities, stages, others);
    }
  }

  /** The check that an actionable result respects its funding never fails: it is the only one
      that an actionable result has to pass beyond the others. */
  lemma {:induction false} PaidIsAccountable(sale: Sale, stages: seq<StageSizing>, available: Decimal, reserve: Decimal)
    requires StageCash(stages) + Value(reserve) <= Value(available) + Value(sale.net)
    ensures AccountOf(Actionable, sale, stages, available, reserve).Ok?
            <==> AccountOf(NoPurchaseQuantity, sale, stages, available, reserve).Ok?
  {
    hide Value, AddDecimals, SubtractDecimals, Totals;
    if Totals(stages).Ok? {
      TotalsAre(stages);
    }
  }

  method Size(request: SizingRequest) returns (r: Checked<SizingResult>)
    requires request.Valid()
    ensures r.Ok? <==> Sizable(request)
    ensures r.Ok? ==>
              AccountOf(r.value.status, r.value.sale, r.value.stages, request.available,
                        request.configuration.reserve) == r
    ensures r.Ok? ==>
              && SaleProceeds(request.configuration.profile, request.saleQuantity, request.salePrice)
                  == Ok(r.value.sale)
              && (r.value.status == InsufficientCash <==>
                    Funding(request, r.value.sale) < Value(request.configuration.reserve))
    ensures r.Ok? && r.value.status != InsufficientCash ==>
              && Balances(request, r.value)
              && exists funding, spendable, initial :: Staged(request, r.value, funding, spendable, initial)
    ensures r.Ok? && r.value.status != InsufficientCash ==>
              (r.value.status == NoPurchaseQuantity <==>
                 forall i :: 0 <= i < |r.value.stages| ==> Value(r.value.stages[i].quantity) == 0.0)
    ensures r.Ok? && r.value.status == InsufficientCash ==>
              forall i :: 0 <= i < |r.value.stages| ==> r.value.stages[i].quantity == ZERO
  {
    hide Value, SaleProceeds, PurchaseCost, AddDecimals, SubtractDecimals, Greedy, OnGrid, Target, AccountOf, Fundable,
         Staged, Accountable;
    var c := request.configuration;
    var sale := SaleProceeds(c.profile, request.saleQuantity, request.salePrice);
    if sale.Rejected? {
      return Rejected;
    }
    var funding := AddDecimals(request.available, sale.value.net);
    if funding.Rejected? {
      return Rejected;
    }
    if Value(funding.value) < Value(c.reserve) {
      var none := seq(|c.stages|, _ => ZERO);
      var stages := StageResults(c, request.price, none, none);
      assert none[0] == ZERO && forall i :: 0 <= i < |none| ==> none[i] == ZERO;
      if stages.Rejected? {
        return Rejected;
      }
      AccountableIs(request, sale.value, none, stages.value);
      SameAccount(sale.value, stages.value, request.available, c.reserve);
      r := Account(InsufficientCash, sale.value, stages.value, request.available, c.reserve);
      return;
    }
    r := SizeFunded(request, sale.value, funding.value);
  }

  lemma SameAccount(sale: Sale, stages: seq<StageSizing>, available: Decimal, reserve: Decimal)
    ensures AccountOf(InsufficientCash, sale, stages, available, reserve).Ok?
            <==> AccountOf(NoPurchaseQuantity, sale, stages, available, reserve).Ok?
    ensures var r := AccountOf(InsufficientCash, sale, stages, available, reserve);
            r.Ok? ==> r.value.status == InsufficientCash && r.value.stages == stages && r.value.sale == sale
  {
  }

  /** What the account of paid purchases says: nothing is lost, and the shown remainder is exact. */
  lemma {:induction false} PaidBalances(status: Status, sale: Sale, stages: seq<StageSizing>, available: Decimal,
                                        reserve: Decimal)
    requires AccountOf(status, sale, stages, available, reserve).Ok?
    requires StageCash(stages) + Value(reserve) <= Value(available) + Value(sale.net)
    ensures var r := AccountOf(status, sale, stages, available, reserve).value;
            && r.status == status && r.sale == sale && r.stages == stages
            && Value(available) + Value(sale.net) == StageCash(r.stages) + Value(reserve) + Value(r.remaining)
  {
    hide Value, AddDecimals, SubtractDecimals, Totals;
    AccountIs(status, sale, stages, available, reserve);
  }

  lemma {:induction false} InitialIsCosted(c: Configuration, price: Decimal, initial: seq<Decimal>)
    requires TotalCash(c, price, initial).Ok?
    ensures forall i :: 0 <= i < |initial| ==> PurchaseCost(c.profile, initial[i], price).Ok?
  {
    hide PurchaseCost, TotalCash;
    forall i | 0 <= i < |initial| ensures PurchaseCost(c.profile, initial[i], price).Ok? {
      TotalCashCosts(c, price, initial, i);
    }
  }

  /** A sale of negative net proceeds is never accounted for. */
  lemma NegativeIsRejected(request: SizingRequest, sale: Sale)
    ensures Value(sale.net) < 0.0 ==> forall status, stages ::
              AccountOf(status, sale, stages, request.available, request.configuration.reserve).Rejected?
  {
    hide Value, AddDecimals, SubtractDecimals, Totals;
    forall status, stages |
      AccountOf(status, sale, stages, request.available, request.configuration.reserve).Ok?
      ensures Value(sale.net) >= 0.0
    {
      AccountIs(status, sale, stages, request.available, request.configuration.reserve);
    }
  }

  method SizeFunded(request: SizingRequest, sale: Sale, funding: Decimal) returns (r: Checked<SizingResult>)
    requires request.Valid() && Value(funding) == Funding(request, sale)
    requires Value(request.configuration.reserve) <= Value(funding)
    ensures r.Ok? <==> Fundable(request, sale, funding)
    ensures r.Ok? ==>
              AccountOf(r.value.status, r.value.sale, r.value.stages, request.available,
                        request.configuration.reserve) == r
    ensures r.Ok? ==>
              && r.value.sale == sale && r.value.status != InsufficientCash
              && Balances(request, r.value)
              && (exists spendable, initial :: Staged(request, r.value, funding, spendable, initial))
              && (r.value.status == NoPurchaseQuantity <==>
                    forall i :: 0 <= i < |r.value.stages| ==> Value(r.value.stages[i].quantity) == 0.0)
  {
    hide Value, SaleProceeds, AddDecimals, SubtractDecimals, OnGrid, Target, CutAt, TotalCash, AccountOf,
         InLots, Beneath, Accountable, Planned, UnitCost, PurchaseCost, StageCash, QuantityForTarget;
    var c := request.configuration;
    var spendable := SubtractDecimals(funding, c.reserve);
    if spendable.Rejected? {
      return Rejected;
    }
    var planned := InitialQuantities(c, request.price, spendable.value);
    if planned.Rejected? {
      return Rejected;
    }
    var (initial, targets) := planned.value;
    NegativeIsRejected(request, sale);
    ghost var fundable := Fundable(request, sale, funding);
    assert initial == InitialOf(c, request.price, spendable.value);
    if TotalCash(c, request.price, initial).Ok? {
      InitialIsCosted(c, request.price, initial);
    }
    var before := StageResults(c, request.price, targets, initial);
    if before.Rejected? {
      return Rejected;
    }
    var kept := EnforceFunding(c, request.price, funding, initial);
    if kept.Rejected? {
      return Rejected;
    }
    var quantities := kept.value.quantities;
    forall i | 0 <= i < |quantities| ensures PurchaseCost(c.profile, quantities[i], request.price).Ok? {
      TotalCashCosts(c, request.price, quantities, i);
    }
    var stages := StageResults(c, request.price, targets, quantities);
    assert StagesOf(c, request.price, quantities, stages.value);
    CashOfStages(c, request.price, quantities, stages.value);
    var empty := AllZero(quantities);
    var status := if empty then NoPurchaseQuantity else Actionable;
    PaidIsAccountable(sale, stages.value, request.available, c.reserve);
    AccountableIs(request, sale, quantities, stages.value);
    forall others | Adjusts(c, request.price, funding, initial, others) ensures others == quantities {
      GreedyIsUnique(c, request.price, funding, initial, others, quantities);
    }
    assert fundable <==> Accountable(request, sale, quantities);
    r := Account(status, sale, stages.value, request.available, c.reserve);
    if r.Ok? {
      PaidBalances(status, sale, stages.value, request.available, c.reserve);
      assert quantities == seq(|initial|, i requires 0 <= i < |initial| => r.value.stages[i].quantity);
      assert Staged(request, r.value, funding, spendable.value, initial);
    }
  }

  method AllZero(quantities: seq<Decimal>) returns (all: bool)
    ensures all <==> forall i :: 0 <= i < |quantities| ==> Value(quantities[i]) == 0.0
  {
    all := true;
    for i := 0 to |quantities|
      invariant all <==> forall j :: 0 <= j < i ==> Value(quantities[j]) == 0.0
    {
      if Value(quantities[i]) != 0.0 {
        all := false;
      }
    }
  }

  /** The stage targets of a result spend the funding above the reserve. */
  lemma ResultTargetsSpendAll(request: SizingRequest, result: SizingResult, funding: Decimal, spendable: Decimal,
                              initial: seq<Decimal>)
    requires request.Valid() && Staged(request, result, funding, spendable, initial)
    requires Value(spendable) >= 0.0
    ensures var targets := seq(|initial|, i requires 0 <= i < |initial| => result.stages[i].target);
            var above := Funding(request, result.sale) - Value(request.configuration.reserve);
            Sum(targets) <= above < Sum(targets) + Times(|initial| as real,
                Value(request.configuration.profile.quantum))
  {
    hide Value, Times, Target, Greedy, OnGrid, PurchaseCost;
    TargetsSpendAll(request.configuration, spendable,
                    seq(|initial|, i requires 0 <= i < |initial| => result.stages[i].target));
  }
}
