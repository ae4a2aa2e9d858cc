/** What more evidence can change: which decisions of a ruleset are final, told from its weights. */
module RuleDecisions {
  import Costs
  import Decimals
  import opened StateMachine
  import opened DecimalContext
  import DecimalSums
  import DecimalText
  import opened RuleNumbers
  import opened Rules
  import opened RuleChecks
  import opened RuleEvaluator
  import opened RuleScores
  import opened Rulesets

  // Scores of verdicts, without a run

  datatype Tally = Tally(total: Num, missing: Num)

  function Added(t: Tally, verdict: Verdict, weight: Num): Option<Tally> {
    match verdict
    case Failed => Some(t)
    case Matched =>
      var sum := AddScores(t.total, weight);
      if sum.None? then None else Some(Tally(sum.value, t.missing))
    case Unknown =>
      var sum := AddScores(t.missing, weight);
      if sum.None? then None else Some(Tally(t.total, sum.value))
  }

  /** The scores of the matched and of the missing weights, each added in order. */
  function Tallied(ws: seq<Num>, vs: seq<Verdict>): Option<Tally>
    requires |ws| == |vs|
  {
    if ws == [] then Some(Tally(NO_SCORE, NO_SCORE))
    else
      var n := |ws| - 1;
      match Tallied(ws[..n], vs[..n])
      case None => None
      case Some(t) => Added(t, vs[n], ws[n])
  }

  function PotentialOf(ws: seq<Num>, vs: seq<Verdict>): Option<Num>
    requires |ws| == |vs|
  {
    match Tallied(ws, vs)
    case None => None
    case Some(t) => AddScores(t.total, t.missing)
  }

  function Weights(rules: seq<Rule>): (ws: seq<Num>)
    ensures |ws| == |rules|
    ensures forall i :: 0 <= i < |rules| ==> ws[i] == rules[i].weight
  {
    seq(|rules|, i requires 0 <= i < |rules| => rules[i].weight)
  }

  predicate Positive(ws: seq<Num>) {
    forall i :: 0 <= i < |ws| ==> Amount(ws[i]) > 0.0
  }

  /** The scores of a run are those of its verdicts. */
  lemma {:induction false} RunTallies(m: Limits, rules: seq<Rule>, evidence: Evidence)
    requires Ran(m, rules, evidence).Ok?
    ensures var p := Ran(m, rules, evidence).value;
            Tallied(Weights(rules), p.verdicts) == Some(Tally(p.total, p.missing))
  {
    hide Judged, Evaluate, AddScores;
    if rules != [] {
      var n, p := |rules| - 1, Ran(m, rules, evidence).value;
      RunTallies(m, rules[..n], evidence);
      assert Weights(rules)[..n] == Weights(rules[..n]);
      var before := Ran(m, rules[..n], evidence).value;
      assert p.verdicts[..n] == before.verdicts;
    }
  }

  lemma {:induction false} TallyIsScore(ws: seq<Num>, vs: seq<Verdict>)
    requires |ws| == |vs| && Positive(ws) && Tallied(ws, vs).Some?
    ensures IsScore(Tallied(ws, vs).value.total) && IsScore(Tallied(ws, vs).value.missing)
  {
    hide AddScores, IsScore, Amount;
    if ws == [] {
      NothingIsScore();
    } else {
      var n := |ws| - 1;
      TallyIsScore(ws[..n], vs[..n]);
      var t := Tallied(ws[..n], vs[..n]).value;
      ScoresAreAmounts(t.total);
      ScoresAreAmounts(t.missing);
      match vs[n]
      case Matched => SumIsScore(t.total, ws[n]);
      case Unknown => SumIsScore(t.missing, ws[n]);
      case Failed =>
    }
  }

  lemma {:induction false} PotentialIsScore(ws: seq<Num>, vs: seq<Verdict>)
    requires |ws| == |vs| && Positive(ws) && PotentialOf(ws, vs).Some?
    ensures IsScore(PotentialOf(ws, vs).value)
    ensures 0.0 <= Amount(Tallied(ws, vs).value.total) <= Amount(PotentialOf(ws, vs).value)
  {
    hide AddScores, IsScore, Amount;
    TallyIsScore(ws, vs);
    var t := Tallied(ws, vs).value;
    ScoresAreAmounts(t.total);
    ScoresAreAmounts(t.missing);
    SumIsScore(t.total, t.missing);
    ScoresGrow(t.total, t.missing);
  }

  // Refined verdicts

  /** What was decided stays; what was missing may be decided. */
  predicate Refines(after: seq<Verdict>, before: seq<Verdict>) {
    |after| == |before| && forall i :: 0 <= i < |before| ==> before[i] == Unknown || after[i] == before[i]
  }

  /** Deciding more never lowers the total. */
  lemma {:induction false} TotalsGrow(ws: seq<Num>, v: seq<Verdict>, w: seq<Verdict>)
    requires |ws| == |v| && Positive(ws) && Refines(w, v) && Tallied(ws, v).Some? && Tallied(ws, w).Some?
    ensures Amount(Tallied(ws, v).value.total) <= Amount(Tallied(ws, w).value.total)
  {
    hide AddScores, IsScore, Amount;
    if ws != [] {
      var n := |ws| - 1;
      TotalsGrow(ws[..n], v[..n], w[..n]);
      TallyIsScore(ws[..n], v[..n]);
      TallyIsScore(ws[..n], w[..n]);
      var s, t := Tallied(ws[..n], v[..n]).value, Tallied(ws[..n], w[..n]).value;
      ScoresAreAmounts(s.total);
      if w[n] == Matched { ScoresGrow(t.total, ws[n]); }
      if v[n] == Matched { ScoresKeepOrder(s.total, ws[n], t.total, ws[n]); }
    }
  }

  /** Two verdict sequences whose outcomes the engine can show: the first one open to failing, the
      second one with a total within the limits. */
  predicate Comparable(ws: seq<Num>, v: seq<Verdict>, w: seq<Verdict>)
    requires |v| == |w| == |ws|
  {
    && PotentialOf(ws, v).Some? && InLimits(PotentialOf(ws, v).value)
    && PotentialOf(ws, w).Some? && InLimits(Tallied(ws, w).value.total)
  }

  /** However verdicts are refined, the potential score of these weights does not rise. */
  ghost predicate Steady(ws: seq<Num>) {
    forall v, w :: |v| == |ws| && Refines(w, v) && Comparable(ws, v, w) ==>
      Amount(PotentialOf(ws, w).value) <= Amount(PotentialOf(ws, v).value)
  }

  // Runs on more evidence

  const NOTHING: Evidence := map[]

  predicate Scorable(rules: seq<Rule>) {
    forall i :: 0 <= i < |rules| ==> ExistsFree(rules[i].expression) && Amount(rules[i].weight) > 0.0
  }

  lemma VerdictPersists(m: Limits, rule: Rule, evidence: Evidence, more: Evidence, b: int, c: int)
    requires ExistsFree(rule.expression) && Extends(more, evidence)
    requires Judged(m, rule, evidence, b).Ok? && Judged(m, rule, more, c).Ok?
    ensures Judged(m, rule, evidence, b).value == Unknown || Judged(m, rule, more, c) == Judged(m, rule, evidence, b)
  {
    hide Evaluate, ExistsFree, Extends;
    if Evaluate(m, rule.expression, evidence, b).0.value.Present? {
      ValuesPersist(m, rule.expression, evidence, more, b, c);
    }
  }

  lemma {:induction false} RunsRefine(m: Limits, rules: seq<Rule>, evidence: Evidence, more: Evidence)
    requires Extends(more, evidence) && Scorable(rules)
    requires Ran(m, rules, evidence).Ok? && Ran(m, rules, more).Ok?
    ensures Refines(Ran(m, rules, more).value.verdicts, Ran(m, rules, evidence).value.verdicts)
  {
    hide Evaluate, ExistsFree, Extends, AddScores, Judged, Amount;
    if rules != [] {
      var n := |rules| - 1;
      RunsRefine(m, rules[..n], evidence, more);
      VerdictPersists(m, rules[n], evidence, more, Ran(m, rules[..n], evidence).value.budget,
                      Ran(m, rules[..n], more).value.budget);
    }
  }

  function StatusOn(m: Limits, rules: seq<Rule>, evidence: Evidence, threshold: Num): Option<Rulesets.Status> {
    match Ran(m, rules, evidence)
    case Raises(_) => None
    case Ok(p) =>
      match Concluded(rules, p, threshold)
      case Raises(_) => None
      case Ok(e) => Some(e.status)
  }

  /** The status in terms of the scores of the verdicts. */
  lemma {:induction false} StatusIs(m: Limits, rules: seq<Rule>, evidence: Evidence, threshold: Num)
    requires Ran(m, rules, evidence).Ok?
    ensures var ws, vs := Weights(rules), Ran(m, rules, evidence).value.verdicts;
            && Tallied(ws, vs).Some?
            && (StatusOn(m, rules, evidence, threshold).Some? <==>
                  && PotentialOf(ws, vs).Some? && InLimits(Tallied(ws, vs).value.total)
                  && InLimits(Canonical(threshold)))
            && (StatusOn(m, rules, evidence, threshold).Some? ==>
                  StatusOn(m, rules, evidence, threshold)
                  == Some(StatusFor(Tallied(ws, vs).value.total, PotentialOf(ws, vs).value, threshold)))
  {
    hide Ran, AddScores, Amount, InLimits, Canonical, Ids, Tallied;
    RunTallies(m, rules, evidence);
  }

  /** A decision on partial evidence on every extension of it on which evaluation succeeds, where no
      rule uses `exists`: a ruleset that matched still matches; one with steady weights that failed
      still fails. */
  lemma {:induction false} DecisionsPersist(m: Limits, rules: seq<Rule>, evidence: Evidence, more: Evidence,
                                            threshold: Num)
    requires Extends(more, evidence) && Scorable(rules) && threshold.coefficient >= 0
    requires StatusOn(m, rules, evidence, threshold).Some? && StatusOn(m, rules, more, threshold).Some?
    ensures var before, after := StatusOn(m, rules, evidence, threshold), StatusOn(m, rules, more, threshold);
            && (before == Some(MATCHED) ==> after == Some(MATCHED))
            && (before == Some(FAILED) && Steady(Weights(rules)) ==> after == Some(FAILED))
  {
    hide Ran, ExistsFree, Extends, Amount, AddScores, InLimits, Canonical, Ids, Tallied;
    var ws := Weights(rules);
    StatusIs(m, rules, evidence, threshold);
    StatusIs(m, rules, more, threshold);
    RunsRefine(m, rules, evidence, more);
    var v, w := Ran(m, rules, evidence).value.verdicts, Ran(m, rules, more).value.verdicts;
    TotalsGrow(ws, v, w);
    PotentialIsScore(ws, v);
    PotentialIsScore(ws, w);
    ThresholdIsBelow(threshold);
    ScoreLimits(PotentialOf(ws, v).value);
  }

  // Weights decide

  const COMPLETE := "market.data_quality.bars_complete"
  const STALE := "market.data_quality.stale"

  /** A run of accepted rules in which a failure is undone by more evidence. */
  ghost predicate Reversed(m: Limits, rules: seq<Rule>, evidence: Evidence, more: Evidence, threshold: Num) {
    && Distinct(rules) && (forall i :: 0 <= i < |rules| ==> Plain(rules[i].expression))
    && threshold.coefficient >= 0 && InLimits(threshold)
    && Registered(evidence) && Registered(more) && Extends(more, evidence)
    && StatusOn(m, rules, evidence, threshold) == Some(FAILED)
    && StatusOn(m, rules, more, threshold) in {Some(INSUFFICIENT), Some(MATCHED)}
  }

  /** A boolean expression that the parser builds and the engine accepts, without `exists`. */
  predicate Plain(e: Expr) {
    Typed(e) && Acceptable(e) && e.kind == BOOLEAN && ExistsFree(e)
  }

  /** Whether failures are final is told from the weights alone: no ruleset with these positive weights,
      on no evidence and no extension of it and at no threshold, has a failure undone, exactly if the
      weights are steady. */
  lemma {:induction false} WeightsDecide(m: Limits, ws: seq<Num>)
    requires Positive(ws) && |ws| <= MAX_RULES
    ensures Steady(ws) <==>
              forall rules, evidence, more, threshold :: Weights(rules) == ws ==>
                !Reversed(m, rules, evidence, more, threshold)
  {
    hide Steady, Reversed;
    if Steady(ws) {
      forall rules, evidence, more, threshold | Weights(rules) == ws
        ensures !Reversed(m, rules, evidence, more, threshold)
      {
        SteadyNeverReverses(m, rules, evidence, more, threshold);
      }
    } else {
      var rules, threshold := UnsteadyReverses(m, ws);
    }
  }

  lemma {:induction false} SteadyNeverReverses(m: Limits, rules: seq<Rule>, evidence: Evidence, more: Evidence,
                                               threshold: Num)
    requires Positive(Weights(rules)) && Steady(Weights(rules))
    ensures !Reversed(m, rules, evidence, more, threshold)
  {
    hide Steady, StatusOn, Positive, Amount, Typed, Acceptable, ExistsFree, Registered, Extends;
    if Reversed(m, rules, evidence, more, threshold) {
      PositiveRules(rules);
      DecisionsPersist(m, rules, evidence, more, threshold);
    }
  }

  lemma PositiveRules(rules: seq<Rule>)
    requires Positive(Weights(rules)) && forall i :: 0 <= i < |rules| ==> Plain(rules[i].expression)
    ensures Scorable(rules)
  {
    hide Amount, Typed, Acceptable, ExistsFree;
    forall i | 0 <= i < |rules| ensures Amount(rules[i].weight) > 0.0 {
      assert Weights(rules)[i] == rules[i].weight;
    }
  }

  // Rules that reach given verdicts

  const LATER: Evidence := map[ACTIONABLE := Present(BOOLEAN, Flag(true)), COMPLETE := Present(BOOLEAN, Flag(false))]

  /** An expression with one verdict on no evidence and the other one later. */
  function Leaf(v: Verdict, w: Verdict): Expr {
    match v
    case Matched => Literal(BOOLEAN, Flag(true))
    case Failed => Literal(BOOLEAN, Flag(false))
    case Unknown => Path(match w case Matched => ACTIONABLE case Failed => COMPLETE case Unknown => STALE, BOOLEAN)
  }

  function Waiting(ws: seq<Num>, v: seq<Verdict>, w: seq<Verdict>): (rules: seq<Rule>)
    requires |v| == |w| == |ws|
    ensures |rules| == |ws|
    ensures forall i :: 0 <= i < |ws| ==> rules[i] == Rule(DecimalText.DigitText(i), Leaf(v[i], w[i]), ws[i])
  {
    seq(|ws|, i requires 0 <= i < |ws| => Rule(DecimalText.DigitText(i), Leaf(v[i], w[i]), ws[i]))
  }

  lemma LeafIsPlain(v: Verdict, w: Verdict)
    ensures Plain(Leaf(v, w))
  {
  }

  lemma {:induction false} LeafJudged(m: Limits, id: string, v: Verdict, w: Verdict, weight: Num, budget: int)
    requires budget >= 1 && (v == Unknown || w == v)
    ensures var rule := Rule(id, Leaf(v, w), weight);
            && Judged(m, rule, NOTHING, budget) == Ok(v) && Judged(m, rule, LATER, budget) == Ok(w)
            && Evaluate(m, rule.expression, NOTHING, budget).1 == budget - 1
            && Evaluate(m, rule.expression, LATER, budget).1 == budget - 1
  {
  }

  lemma CountedAdds(p: Progress, verdict: Verdict, weight: Num, left: int)
    requires Added(Tally(p.total, p.missing), verdict, weight).Some?
    ensures var t := Added(Tally(p.total, p.missing), verdict, weight).value;
            Counted(p, verdict, weight, left) == Ok(Progress(p.verdicts + [verdict], left, t.total, t.missing))
  {
    hide AddScores;
  }

  /** The rule takes one step and has the verdict. */
  predicate Takes(m: Limits, rule: Rule, evidence: Evidence, verdict: Verdict, budget: int) {
    Judged(m, rule, evidence, budget) == Ok(verdict)
    && Evaluate(m, rule.expression, evidence, budget).1 == budget - 1
  }

  /** Rules that take one step each run to their verdicts. */
  lemma {:induction false} LeavesRun(m: Limits, rules: seq<Rule>, evidence: Evidence, vs: seq<Verdict>)
    requires |rules| == |vs| && |rules| <= MAX_RULES && Tallied(Weights(rules), vs).Some?
    requires forall i, budget :: 0 <= i < |rules| && budget >= 1 ==> Takes(m, rules[i], evidence, vs[i], budget)
    ensures var t := Tallied(Weights(rules), vs).value;
            Ran(m, rules, evidence) == Ok(Progress(vs, MAX_STEPS - |rules|, t.total, t.missing))
  {
    hide Judged, Evaluate, AddScores, Ran, Counted, Added;
    if rules == [] {
      RanNothing(m, evidence);
    } else {
      var n := |rules| - 1;
      assert Weights(rules)[..n] == Weights(rules[..n]);
      LeavesRun(m, rules[..n], evidence, vs[..n]);
      var t := Tallied(Weights(rules[..n]), vs[..n]).value;
      var p := Progress(vs[..n], MAX_STEPS - n, t.total, t.missing);
      assert Takes(m, rules[n], evidence, vs[n], MAX_STEPS - n);
      RanNext(m, rules, evidence, n, p);
      CountedAdds(p, vs[n], rules[n].weight, MAX_STEPS - n - 1);
      assert rules[..n + 1] == rules && vs[..n] + [vs[n]] == vs;
    }
  }

  lemma {:induction false} WaitingRuns(m: Limits, ws: seq<Num>, v: seq<Verdict>, w: seq<Verdict>)
    requires |ws| == |v| && Refines(w, v) && |ws| <= MAX_RULES && Tallied(ws, v).Some? && Tallied(ws, w).Some?
    ensures var rules, s, t := Waiting(ws, v, w), Tallied(ws, v).value, Tallied(ws, w).value;
            && Ran(m, rules, NOTHING) == Ok(Progress(v, MAX_STEPS - |ws|, s.total, s.missing))
            && Ran(m, rules, LATER) == Ok(Progress(w, MAX_STEPS - |ws|, t.total, t.missing))
  {
    hide Judged, Evaluate, Tallied, Leaf, Ran;
    var rules := Waiting(ws, v, w);
    assert Weights(rules) == ws;
    forall i, budget | 0 <= i < |rules| && budget >= 1
      ensures Takes(m, rules[i], NOTHING, v[i], budget) && Takes(m, rules[i], LATER, w[i], budget)
    {
      LeafJudged(m, rules[i].id, v[i], w[i], ws[i], budget);
    }
    LeavesRun(m, rules, NOTHING, v);
    LeavesRun(m, rules, LATER, w);
  }

  lemma {:induction false} WaitingIsAccepted(ws: seq<Num>, v: seq<Verdict>, w: seq<Verdict>)
    requires |v| == |w| == |ws|
    ensures var rules := Waiting(ws, v, w);
            && Distinct(rules) && (forall i :: 0 <= i < |rules| ==> Plain(rules[i].expression))
            && Weights(rules) == ws
    ensures Registered(NOTHING) && Registered(LATER) && Extends(LATER, NOTHING)
  {
    hide DecimalText.DigitText, Leaf, Plain;
    var rules := Waiting(ws, v, w);
    forall i, j | 0 <= i < j < |rules| ensures rules[i].id != rules[j].id {
      assert DecimalText.NumberOf(DecimalText.DigitText(i)) == i;
      assert DecimalText.NumberOf(DecimalText.DigitText(j)) == j;
    }
    forall i | 0 <= i < |rules| ensures Plain(rules[i].expression) {
      LeafIsPlain(v[i], w[i]);
    }
  }

  /** Between two scores lies a threshold that the engine accepts, if the lower one is within the
      limits. */
  lemma {:induction false} Between(p: Num, q: Num) returns (threshold: Num)
    requires IsScore(p) && IsScore(q) && InLimits(p) && Amount(p) < Amount(q)
    ensures threshold.coefficient >= 0 && InLimits(threshold) && InLimits(Canonical(threshold))
    ensures Amount(p) < Amount(threshold) <= Amount(q)
  {
    hide Amount, InLimits, Canonical, Fits;
    ScoreLimits(p);
    ScoreLimits(q);
    if Amount(q) < TOP {
      threshold := q;
      var x: Num :| ScoreOf(q, x);
      CanonicalTwice(x);
      ScoresAreAmounts(q);
      NegativeAmount(q);
    } else {
      threshold := NINES;
      NinesAreLimited();
      ScoreBelowNines(p);
    }
  }

  lemma {:induction false} UnsteadyReverses(m: Limits, ws: seq<Num>) returns (rules: seq<Rule>, threshold: Num)
    requires Positive(ws) && |ws| <= MAX_RULES && !Steady(ws)
    ensures Weights(rules) == ws && Reversed(m, rules, NOTHING, LATER, threshold)
  {
    hide Amount, InLimits, Canonical, AddScores, Ran, Tallied, Registered, Extends, Plain, Distinct;
    var v, w :| |v| == |ws| && Refines(w, v) && Comparable(ws, v, w)
                && Amount(PotentialOf(ws, w).value) > Amount(PotentialOf(ws, v).value);
    rules := Waiting(ws, v, w);
    WaitingIsAccepted(ws, v, w);
    WaitingRuns(m, ws, v, w);
    PotentialIsScore(ws, v);
    PotentialIsScore(ws, w);
    TallyIsScore(ws, v);
    var p := PotentialOf(ws, v).value;
    ScoreLimits(p);
    ScoreLimits(Tallied(ws, v).value.total);
    threshold := Between(p, PotentialOf(ws, w).value);
    StatusIs(m, rules, NOTHING, threshold);
    StatusIs(m, rules, LATER, threshold);
  }

  // Exact sums are steady

  /** The units of all weights together. */
  function WeightUnits(ws: seq<Num>, e: int): nat
    requires forall i :: 0 <= i < |ws| ==> DecimalSums.Aligned(Stripped(ws[i]), e)
  {
    if ws == [] then 0
    else WeightUnits(ws[..|ws| - 1], e) + DecimalSums.UnitCount(Stripped(ws[|ws| - 1]), e)
  }

  /** Of the weights with the verdict. */
  function VerdictUnits(ws: seq<Num>, vs: seq<Verdict>, which: Verdict, e: int): nat
    requires |ws| == |vs| && forall i :: 0 <= i < |ws| ==> DecimalSums.Aligned(Stripped(ws[i]), e)
  {
    if ws == [] then 0
    else
      var n := |ws| - 1;
      VerdictUnits(ws[..n], vs[..n], which, e)
      + if vs[n] == which then DecimalSums.UnitCount(Stripped(ws[n]), e) else 0
  }

  /** At the exponent every weight is a whole number, and all of them together have 28 digits. */
  predicate Summable(ws: seq<Num>, e: int) {
    && (forall i :: 0 <= i < |ws| ==> DecimalSums.Aligned(Stripped(ws[i]), e))
    && WeightUnits(ws, e) < Decimals.Ten(PRECISION)
  }

  lemma {:induction false} UnitsAmount(n: Num, e: int)
    requires DecimalSums.Aligned(Stripped(n), e)
    ensures Amount(n) == Amount(Decimals.Decimal(DecimalSums.UnitCount(Stripped(n), e), e))
  {
    hide Decimals.Value, Decimals.Ten, Stripped;
    StrippedKeepsAmount(n);
    Decimals.Rescaled(Stripped(n).coefficient, e, Stripped(n).exponent - e);
  }

  lemma {:induction false} ExactTally(ws: seq<Num>, vs: seq<Verdict>, e: int)
    requires |ws| == |vs| && Summable(ws, e) && Tallied(ws, vs).Some?
    ensures var t := Tallied(ws, vs).value;
            && Amount(t.total) == Amount(Decimals.Decimal(VerdictUnits(ws, vs, Matched, e), e))
            && Amount(t.missing) == Amount(Decimals.Decimal(VerdictUnits(ws, vs, Unknown, e), e))
            && VerdictUnits(ws, vs, Matched, e) + VerdictUnits(ws, vs, Unknown, e) <= WeightUnits(ws, e)
  {
    hide AddScores, Decimals.Value, Decimals.Ten, DecimalSums.UnitCount, Stripped;
    if ws == [] {
      NothingIsScore();
      ZeroIs(e);
    } else {
      var n := |ws| - 1;
      ExactTally(ws[..n], vs[..n], e);
      UnitsAmount(ws[n], e);
      var t, unit := Tallied(ws[..n], vs[..n]).value, DecimalSums.UnitCount(Stripped(ws[n]), e);
      match vs[n]
      case Matched => ScoresAddExactly(t.total, ws[n], VerdictUnits(ws[..n], vs[..n], Matched, e), unit, e);
      case Unknown => ScoresAddExactly(t.missing, ws[n], VerdictUnits(ws[..n], vs[..n], Unknown, e), unit, e);
      case Failed =>
    }
  }

  lemma {:induction false} RefinedUnits(ws: seq<Num>, v: seq<Verdict>, w: seq<Verdict>, e: int)
    requires |ws| == |v| && Refines(w, v) && Summable(ws, e)
    ensures VerdictUnits(ws, w, Matched, e) + VerdictUnits(ws, w, Unknown, e)
            <= VerdictUnits(ws, v, Matched, e) + VerdictUnits(ws, v, Unknown, e)
  {
    hide Decimals.Ten, DecimalSums.UnitCount, Stripped;
    if ws != [] {
      var n := |ws| - 1;
      RefinedUnits(ws[..n], v[..n], w[..n], e);
    }
  }

  /** Weights that together have at most 28 digits at a common exponent, whichever, are steady. */
  lemma {:induction false} ExactIsSteady(ws: seq<Num>, e: int)
    requires Summable(ws, e)
    ensures Steady(ws)
  {
    hide AddScores, InLimits, Tallied, Decimals.Ten, Decimals.Value, WeightUnits, VerdictUnits;
    forall v, w | |v| == |ws| && Refines(w, v) && Comparable(ws, v, w)
      ensures Amount(PotentialOf(ws, w).value) <= Amount(PotentialOf(ws, v).value)
    {
      ExactPotential(ws, v, e);
      ExactPotential(ws, w, e);
      RefinedUnits(ws, v, w, e);
      UnitsOrder(VerdictUnits(ws, w, Matched, e) + VerdictUnits(ws, w, Unknown, e),
                 VerdictUnits(ws, v, Matched, e) + VerdictUnits(ws, v, Unknown, e), e);
    }
  }

  lemma {:induction false} ExactPotential(ws: seq<Num>, vs: seq<Verdict>, e: int)
    requires |ws| == |vs| && Summable(ws, e) && PotentialOf(ws, vs).Some?
    ensures Amount(PotentialOf(ws, vs).value)
            == Decimals.Value(Decimals.Decimal(VerdictUnits(ws, vs, Matched, e) + VerdictUnits(ws, vs, Unknown, e), e))
  {
    hide AddScores, Decimals.Value, Decimals.Ten, Tallied, VerdictUnits, WeightUnits;
    ExactTally(ws, vs, e);
    var t := Tallied(ws, vs).value;
    ScoresAddExactly(t.total, t.missing, VerdictUnits(ws, vs, Matched, e), VerdictUnits(ws, vs, Unknown, e), e);
  }

  // One move at a time

  /** Weights as the parser returns them. */
  predicate Parsed(ws: seq<Num>) {
    |ws| <= MAX_RULES && forall i :: 0 <= i < |ws| ==> ws[i].coefficient > 0 && IsCanonical(ws[i]) && InLimits(ws[i])
  }

  /** No single weight that moves from the missing to the matched ones raises the potential score. */
  ghost predicate MovesKeep(ws: seq<Num>) {
    forall v, i :: |v| == |ws| && 0 <= i < |v| && v[i] == Unknown && Comparable(ws, v, v[i := Matched]) ==>
      Amount(PotentialOf(ws, v[i := Matched]).value) <= Amount(PotentialOf(ws, v).value)
  }

  /** Scores of parsed weights always exist. */
  lemma {:induction false} TalliesExist(ws: seq<Num>, vs: seq<Verdict>)
    requires |ws| == |vs| && Parsed(ws)
    ensures Tallied(ws, vs).Some?
    ensures Modest(Tallied(ws, vs).value.total, |ws|) && Modest(Tallied(ws, vs).value.missing, |ws|)
  {
    hide AddScores, Modest, InLimits, Canonical;
    if ws == [] {
      NothingIsModest();
    } else {
      var n := |ws| - 1;
      TalliesExist(ws[..n], vs[..n]);
      var t := Tallied(ws[..n], vs[..n]).value;
      WeightIsModest(ws[n]);
      ModestGrows(t.total, n, n + 1);
      ModestGrows(t.missing, n, n + 1);
      match vs[n]
      case Matched => ModestSums(t.total, ws[n], n, 1);
      case Unknown => ModestSums(t.missing, ws[n], n, 1);
      case Failed =>
    }
  }

  lemma {:induction false} PotentialsExist(ws: seq<Num>, vs: seq<Verdict>)
    requires |ws| == |vs| && Parsed(ws)
    ensures PotentialOf(ws, vs).Some? && Positive(ws)
  {
    hide AddScores, Modest, InLimits, Canonical, Amount;
    TalliesExist(ws, vs);
    ModestSums(Tallied(ws, vs).value.total, Tallied(ws, vs).value.missing, |ws|, |ws|);
    forall i | 0 <= i < |ws| ensures Amount(ws[i]) > 0.0 {
      PositiveAmount(ws[i]);
    }
  }

  /** A missing weight that fails takes nothing from the total and does not raise what is missing. */
  lemma {:induction false} MissingFalls(ws: seq<Num>, v: seq<Verdict>, i: nat)
    requires |v| == |ws| && i < |v| && v[i] == Unknown && Positive(ws)
    requires Tallied(ws, v).Some? && Tallied(ws, v[i := Failed]).Some?
    ensures var s, t := Tallied(ws, v).value, Tallied(ws, v[i := Failed]).value;
            t.total == s.total && Amount(t.missing) <= Amount(s.missing)
  {
    hide AddScores, IsScore, Amount;
    var n, w := |ws| - 1, v[i := Failed];
    TallyIsScore(ws[..n], v[..n]);
    if i == n {
      assert w[..n] == v[..n];
      if AddScores(Tallied(ws[..n], v[..n]).value.missing, ws[n]).Some? {
        ScoresGrow(Tallied(ws[..n], v[..n]).value.missing, ws[n]);
      }
    } else {
      assert w[..n] == v[..n][i := Failed];
      MissingFalls(ws[..n], v[..n], i);
      TallyIsScore(ws[..n], w[..n]);
      var s, t := Tallied(ws[..n], v[..n]).value, Tallied(ws[..n], w[..n]).value;
      ScoresAreAmounts(t.missing);
      if v[n] == Unknown { ScoresKeepOrder(t.missing, ws[n], s.missing, ws[n]); }
    }
  }

  lemma {:induction false} FailingKeeps(ws: seq<Num>, v: seq<Verdict>, i: nat)
    requires |v| == |ws| && i < |v| && v[i] == Unknown && Parsed(ws)
    ensures PotentialOf(ws, v).Some? && PotentialOf(ws, v[i := Failed]).Some?
    ensures Amount(PotentialOf(ws, v[i := Failed]).value) <= Amount(PotentialOf(ws, v).value)
  {
    hide AddScores, IsScore, Amount, Tallied;
    PotentialsExist(ws, v);
    PotentialsExist(ws, v[i := Failed]);
    MissingFalls(ws, v, i);
    TallyIsScore(ws, v[i := Failed]);
    var s, t := Tallied(ws, v).value, Tallied(ws, v[i := Failed]).value;
    ScoresAreAmounts(t.total);
    ScoresAreAmounts(t.missing);
    ScoresKeepOrder(t.total, t.missing, s.total, s.missing);
  }

  /** Verdicts changed one after another. */
  lemma {:induction false} MovesChain(ws: seq<Num>, v: seq<Verdict>, w: seq<Verdict>, k: nat)
    requires Parsed(ws) && MovesKeep(ws) && |v| == |ws| && Refines(w, v) && Comparable(ws, v, w) && k <= |v|
    ensures var u := w[..k] + v[k..];
            PotentialOf(ws, u).Some? && Amount(PotentialOf(ws, u).value) <= Amount(PotentialOf(ws, v).value)
  {
    hide AddScores, IsScore, Amount, Tallied, InLimits, Parsed, MovesKeep;
    if k == 0 {
      assert w[..0] + v[0..] == v;
    } else {
      MovesChain(ws, v, w, k - 1);
      var before, after := w[..k - 1] + v[k - 1..], w[..k] + v[k..];
      if w[k - 1] == v[k - 1] {
        assert before == after;
      } else {
        assert after == before[k - 1 := w[k - 1]];
        PotentialsExist(ws, after);
        OneMove(ws, v, w, before, after, k - 1);
      }
    }
  }

  lemma {:induction false} OneMove(ws: seq<Num>, v: seq<Verdict>, w: seq<Verdict>, before: seq<Verdict>,
                                   after: seq<Verdict>, i: nat)
    requires Parsed(ws) && MovesKeep(ws) && |v| == |w| == |ws| && Comparable(ws, v, w) && Refines(w, after)
    requires |before| == |ws| && i < |ws| && before[i] == Unknown && w[i] != Unknown && after == before[i := w[i]]
    requires PotentialOf(ws, before).Some? && PotentialOf(ws, after).Some?
    requires Amount(PotentialOf(ws, before).value) <= Amount(PotentialOf(ws, v).value)
    ensures Amount(PotentialOf(ws, after).value) <= Amount(PotentialOf(ws, v).value)
  {
    hide AddScores, IsScore, Amount, Tallied, InLimits, Parsed;
    if w[i] == Failed {
      FailingKeeps(ws, before, i);
    } else {
      PotentialsExist(ws, before);
      PotentialIsScore(ws, before);
      PotentialIsScore(ws, v);
      ScoreLimits(PotentialOf(ws, v).value);
      ScoreLimits(PotentialOf(ws, before).value);
      TotalsGrow(ws, after, w);
      TallyIsScore(ws, after);
      TallyIsScore(ws, w);
      ScoreLimits(Tallied(ws, after).value.total);
      ScoreLimits(Tallied(ws, w).value.total);
      assert Comparable(ws, before, before[i := Matched]);
    }
  }

  /** Parsed weights are steady exactly if no single move raises the potential score. */
  lemma {:induction false} MovesDecide(ws: seq<Num>)
    requires Parsed(ws)
    ensures Steady(ws) <==> MovesKeep(ws)
  {
    hide Steady, MovesKeep;
    if Steady(ws) { SteadyMoves(ws); }
    if MovesKeep(ws) { MovesAreSteady(ws); }
  }

  lemma {:induction false} SteadyMoves(ws: seq<Num>)
    requires Steady(ws)
    ensures MovesKeep(ws)
  {
    hide Amount, Tallied, InLimits, AddScores;
    forall v, i | |v| == |ws| && 0 <= i < |v| && v[i] == Unknown && Comparable(ws, v, v[i := Matched])
      ensures Amount(PotentialOf(ws, v[i := Matched]).value) <= Amount(PotentialOf(ws, v).value)
    {
      var w := v[i := Matched];
      assert Refines(w, v);
    }
  }

  lemma {:induction false} MovesAreSteady(ws: seq<Num>)
    requires Parsed(ws) && MovesKeep(ws)
    ensures Steady(ws)
  {
    hide Amount, Tallied, InLimits, AddScores, Parsed, MovesKeep;
    forall v, w | |v| == |ws| && Refines(w, v) && Comparable(ws, v, w)
      ensures Amount(PotentialOf(ws, w).value) <= Amount(PotentialOf(ws, v).value)
    {
      MovesChain(ws, v, w, |v|);
      assert w[..|v|] + v[|v|..] == w;
    }
  }

  // Where the promise ends

  const LARGE: nat := 1000000000000000000000000001

  /** A rule that always matches, and two that wait for evidence. */
  const LARGE_AND_SMALL := [
    Rule("large", Literal(BOOLEAN, Flag(true)), Decimals.Decimal(LARGE, 0)),
    Rule("half", Path(ACTIONABLE, BOOLEAN), Decimals.Decimal(5, -1)),
    Rule("more", Path(ACTIONABLE, BOOLEAN), Decimals.Decimal(6, -1))]

  /** The scores before the evidence: the weights that wait are added to each other first. */
  lemma ScoresBefore()
    ensures var large, half, more := Decimals.Decimal(LARGE, 0), Decimals.Decimal(5, -1), Decimals.Decimal(6, -1);
            && AddScores(NO_SCORE, large) == Some(large)
            && AddScores(NO_SCORE, half) == Some(half)
            && AddScores(half, more) == Some(Decimals.Decimal(11, -1))
            && AddScores(large, Decimals.Decimal(11, -1)) == Some(Decimals.Decimal(LARGE + 1, 0))
  {
    hide Decimals.Ten, Decimals.Digits, Fits, InLimits, IsCanonical, AddScores, Costs.RoundRatio;
    LargeFits(LARGE);
    LargeFits(LARGE + 1);
    NothingAdds(Decimals.Decimal(LARGE, 0));
    SmallScores(5);
    SmallScores(11);
    SmallSum();
    RoundsTo(LARGE, 11, LARGE + 1);
    TenthsRound(LARGE, 11, LARGE + 1);
  }

  lemma SmallScores(t: nat)
    requires t == 5 || t == 11
    ensures AddScores(NO_SCORE, Decimals.Decimal(t, -1)) == Some(Decimals.Decimal(t, -1))
    ensures Fits(Decimals.Decimal(t, -1)) && CanonicalNumber(Decimals.Decimal(t, -1)) == Some(Decimals.Decimal(t, -1))
  {
    hide Decimals.Ten, AddScores, Plus;
    NothingAdds(Decimals.Decimal(t, -1));
  }

  lemma SmallSum()
    ensures AddScores(Decimals.Decimal(5, -1), Decimals.Decimal(6, -1)) == Some(Decimals.Decimal(11, -1))
  {
    hide Decimals.Ten, CanonicalNumber, Fits;
    DecimalSums.TenOfZero();
    SmallScores(11);
    assert ExactSum(Decimals.Decimal(5, -1), Decimals.Decimal(6, -1)) == Decimals.Decimal(11, -1);
  }

  /** Rounding of tenths, on the last digit alone. */
  lemma RoundsTo(c: nat, t: nat, r: nat)
    requires (c == LARGE && t == 11 && r == LARGE + 1) || (c == LARGE && t == 5 && r == LARGE + 1)
             || (c == LARGE + 1 && t == 6 && r == LARGE + 2)
    ensures r == Costs.RoundRatio(10 * c + t, 10, Costs.HalfEven)
  {
  }

  /** The scores with the evidence: each is added to the total, which is rounded up twice. */
  lemma ScoresAfter()
    ensures var large, half, more := Decimals.Decimal(LARGE, 0), Decimals.Decimal(5, -1), Decimals.Decimal(6, -1);
            && AddScores(large, half) == Some(Decimals.Decimal(LARGE + 1, 0))
            && AddScores(Decimals.Decimal(LARGE + 1, 0), more) == Some(Decimals.Decimal(LARGE + 2, 0))
            && AddScores(Decimals.Decimal(LARGE + 2, 0), NO_SCORE) == Some(Decimals.Decimal(LARGE + 2, 0))
  {
    hide Decimals.Ten, Decimals.Digits, Fits, InLimits, IsCanonical, AddScores, Costs.RoundRatio;
    LargeFits(LARGE);
    LargeFits(LARGE + 1);
    LargeFits(LARGE + 2);
    RoundsTo(LARGE, 5, LARGE + 1);
    RoundsTo(LARGE + 1, 6, LARGE + 2);
    TenthsRound(LARGE, 5, LARGE + 1);
    TenthsRound(LARGE + 1, 6, LARGE + 2);
    NothingAdds(Decimals.Decimal(LARGE + 2, 0));
  }

  lemma LargeFits(n: nat)
    requires LARGE <= n <= LARGE + 2
    ensures Decimals.Ten(PRECISION - 1) < LARGE && 10 * n + 11 < Decimals.Ten(PRECISION + 1)
    ensures n < Decimals.Ten(PRECISION) && Fits(Decimals.Decimal(n, 0)) && InLimits(Decimals.Decimal(n, 0))
    ensures n % 10 != 0 && IsCanonical(Decimals.Decimal(n, 0))
  {
    hide Decimals.Ten, Decimals.Digits, Fits, InLimits, IsCanonical;
    PowersOfTen();
    FitsIs(n);
  }

  lemma PowersOfTen()
    ensures Decimals.Ten(27) == 1000000000000000000000000000
    ensures Decimals.Ten(28) == 10000000000000000000000000000 && Decimals.Ten(29) == 100000000000000000000000000000
  {
    hide Decimals.Ten;
    NinePowers();
    Decimals.TenSum(9, 9);
    Decimals.TenSum(18, 9);
    Decimals.TenSum(27, 1);
    Decimals.TenSum(28, 1);
  }

  lemma NinePowers()
    ensures Decimals.Ten(1) == 10 && Decimals.Ten(9) == 1000000000
  {
  }

  lemma FitsIs(n: nat)
    requires n < Decimals.Ten(PRECISION) && n % 10 != 0
    ensures Fits(Decimals.Decimal(n, 0)) && InLimits(Decimals.Decimal(n, 0)) && IsCanonical(Decimals.Decimal(n, 0))
  {
    hide Decimals.Digits, Decimals.Ten;
    Decimals.DigitsBound(n, PRECISION);
    DecimalSums.TenOfZero();
  }

  /** A run of the three rules, from what becomes of each. */
  lemma {:induction false} ThreeRun(m: Limits, rules: seq<Rule>, evidence: Evidence, p: Progress, q: Progress,
                                    r: Progress)
    requires |rules| == 3
    requires Follows(m, rules[0], evidence, Progress([], MAX_STEPS, NO_SCORE, NO_SCORE), p)
    requires Follows(m, rules[1], evidence, p, q) && Follows(m, rules[2], evidence, q, r)
    ensures Ran(m, rules, evidence) == Ok(r)
  {
    hide Judged, Counted, Evaluate;
    RanNothing(m, evidence);
    assert rules[..0] == [] && rules[..3] == rules;
    RanNext(m, rules, evidence, 0, Progress([], MAX_STEPS, NO_SCORE, NO_SCORE));
    RanNext(m, rules, evidence, 1, p);
    RanNext(m, rules, evidence, 2, q);
  }

  predicate Follows(m: Limits, rule: Rule, evidence: Evidence, p: Progress, q: Progress) {
    && Judged(m, rule, evidence, p.budget).Ok?
    && Counted(p, Judged(m, rule, evidence, p.budget).value, rule.weight,
               Evaluate(m, rule.expression, evidence, p.budget).1) == Ok(q)
  }

  lemma {:induction false} LargeBefore(m: Limits)
    ensures Ran(m, LARGE_AND_SMALL, map[])
            == Ok(Progress([Matched, Unknown, Unknown], MAX_STEPS - 3, Decimals.Decimal(LARGE, 0),
                           Decimals.Decimal(11, -1)))
  {
    hide AddScores;
    ScoresBefore();
    var large, half := Decimals.Decimal(LARGE, 0), Decimals.Decimal(5, -1);
    var p := Progress([Matched], MAX_STEPS - 1, large, NO_SCORE);
    var q := Progress([Matched, Unknown], MAX_STEPS - 2, large, half);
    var r := Progress([Matched, Unknown, Unknown], MAX_STEPS - 3, large, Decimals.Decimal(11, -1));
    assert [] + [Matched] == [Matched] && [Matched] + [Unknown] == q.verdicts && q.verdicts + [Unknown] == r.verdicts;
    ThreeRun(m, LARGE_AND_SMALL, map[], p, q, r);
  }

  lemma {:induction false} LargeAfter(m: Limits)
    ensures Ran(m, LARGE_AND_SMALL, map[ACTIONABLE := Present(BOOLEAN, Flag(true))])
            == Ok(Progress([Matched, Matched, Matched], MAX_STEPS - 3, Decimals.Decimal(LARGE + 2, 0), NO_SCORE))
  {
    hide AddScores;
    ScoresBefore();
    ScoresAfter();
    var evidence := map[ACTIONABLE := Present(BOOLEAN, Flag(true))];
    var p := Progress([Matched], MAX_STEPS - 1, Decimals.Decimal(LARGE, 0), NO_SCORE);
    var q := Progress([Matched, Matched], MAX_STEPS - 2, Decimals.Decimal(LARGE + 1, 0), NO_SCORE);
    var r := Progress([Matched, Matched, Matched], MAX_STEPS - 3, Decimals.Decimal(LARGE + 2, 0), NO_SCORE);
    assert [] + [Matched] == [Matched] && [Matched] + [Matched] == q.verdicts && q.verdicts + [Matched] == r.verdicts;
    ThreeRun(m, LARGE_AND_SMALL, evidence, p, q, r);
  }

  /** Without `exists`, a ruleset that failed matches on more evidence, where its scores are rounded: its
      weights are not steady. */
  lemma {:induction false} RoundingCanReverse(m: Limits)
    ensures var more, threshold := map[ACTIONABLE := Present(BOOLEAN, Flag(true))], Decimals.Decimal(LARGE + 2, 0);
            && Reversed(m, LARGE_AND_SMALL, NOTHING, more, threshold)
            && StatusOn(m, LARGE_AND_SMALL, more, threshold) == Some(MATCHED)
    ensures !Steady(Weights(LARGE_AND_SMALL))
  {
    hide Steady, Reversed, StatusOn, Positive, Weights;
    LargeAmounts();
    LargeReverses(m);
    if Steady(Weights(LARGE_AND_SMALL)) {
      SteadyNeverReverses(m, LARGE_AND_SMALL, NOTHING, map[ACTIONABLE := Present(BOOLEAN, Flag(true))],
                          Decimals.Decimal(LARGE + 2, 0));
    }
  }

  lemma {:induction false} LargeReverses(m: Limits)
    ensures var more, threshold := map[ACTIONABLE := Present(BOOLEAN, Flag(true))], Decimals.Decimal(LARGE + 2, 0);
            && Reversed(m, LARGE_AND_SMALL, NOTHING, more, threshold)
            && StatusOn(m, LARGE_AND_SMALL, more, threshold) == Some(MATCHED)
  {
    hide AddScores, Ran, InLimits, Canonical, Amount, Ids, Plain;
    LargeBefore(m);
    LargeAfter(m);
    ScoresBefore();
    ScoresAfter();
    LargeFits(LARGE);
    LargeFits(LARGE + 2);
    LargeAmounts();
    LeafIsPlain(Matched, Matched);
    LeafIsPlain(Unknown, Matched);
  }

  lemma LargeAmounts()
    ensures Amount(Decimals.Decimal(LARGE, 0)) < Amount(Decimals.Decimal(LARGE + 2, 0))
    ensures Amount(Decimals.Decimal(LARGE + 1, 0)) < Amount(Decimals.Decimal(LARGE + 2, 0))
    ensures Positive(Weights(LARGE_AND_SMALL))
  {
    hide Amount;
    WholeAmount(LARGE);
    WholeAmount(LARGE + 1);
    WholeAmount(LARGE + 2);
    PositiveAmount(Decimals.Decimal(5, -1));
    PositiveAmount(Decimals.Decimal(6, -1));
    PositiveAmount(Decimals.Decimal(LARGE, 0));
  }

  const EXISTS_RULE := Rule("exists", Operation(Exists, [Path(ACTIONABLE, BOOLEAN)], BOOLEAN), ONE)

  lemma {:induction false} ExistsVerdict(m: Limits, evidence: Evidence)
    requires ACTIONABLE in evidence ==> evidence[ACTIONABLE].Present?
    ensures var r := Ran(m, [EXISTS_RULE], evidence);
            r.Ok? && r.value.verdicts == [if ACTIONABLE in evidence then Matched else Failed]
  {
    hide AddScores;
    var leaf := Path(ACTIONABLE, BOOLEAN);
    var (first, left) := Evaluate(m, leaf, evidence, MAX_STEPS - 1);
    assert [leaf][1..] == [] && EvaluateAll(m, [], evidence, left).0 == Ok([]);
    assert first.Ok? && [first.value] + [] == [first.value];
    assert EvaluateAll(m, [leaf], evidence, MAX_STEPS - 1).0 == Ok([first.value]);
    assert Evaluate(m, EXISTS_RULE.expression, evidence, MAX_STEPS).0
           == Ok(Present(BOOLEAN, Flag(ACTIONABLE in evidence)));
    OneScore();
    assert [EXISTS_RULE][..0] == [];
    RanNothing(m, evidence);
  }

  lemma OneScore()
    ensures AddScores(NO_SCORE, ONE) == Some(ONE)
  {
    hide Decimals.Ten, AddScores;
    DecimalSums.TenOfZero();
    NothingAdds(ONE);
  }

  /** `exists` is not monotone: with it a rule that failed may match on more evidence. */
  lemma {:induction false} ExistsCanReverse(m: Limits)
    ensures var more := map[ACTIONABLE := Present(BOOLEAN, Flag(true))];
            && Typed(EXISTS_RULE.expression) && Extends(more, map[])
            && Ran(m, [EXISTS_RULE], map[]).Ok? && Ran(m, [EXISTS_RULE], map[]).value.verdicts == [Failed]
            && Ran(m, [EXISTS_RULE], more).Ok? && Ran(m, [EXISTS_RULE], more).value.verdicts == [Matched]
  {
    hide Ran;
    assert AllTyped([Path(ACTIONABLE, BOOLEAN)]) by { assert [Path(ACTIONABLE, BOOLEAN)][1..] == []; }
    ExistsVerdict(m, map[]);
    ExistsVerdict(m, map[ACTIONABLE := Present(BOOLEAN, Flag(true))]);
  }
}
