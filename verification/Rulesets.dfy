/** Rulesets: parsing within the node limit, and evaluation under one budget with rounded
    scores. */
module Rulesets {
  import Costs
  import Decimals
  import opened StateMachine
  import opened DecimalContext
  import opened DecimalSums
  import opened RuleNumbers
  import opened Rules
  import opened RuleChecks
  import opened RuleEvaluator
  import opened RuleScores

  datatype Rule = Rule(id: string, expression: Expr, weight: Num)

  datatype RawRule = RawRule(id: string, expression: Raw, weight: Num)

  const MAX_RULES: nat := 512
  const MAX_STEPS: int := 512

  // Parsing a ruleset

  /** The weight is canonical, positive, and within the limits once more in that form. */
  function ParsedWeight(raw: Num): Option<Num> {
    if !InLimits(raw) || raw.coefficient <= 0 || !InLimits(Canonical(raw)) then None else Some(Canonical(raw))
  }

  function ParsedRule(raw: RawRule): Option<Rule> {
    var parsed, weight := Parse(raw.expression, 0, 1), ParsedWeight(raw.weight);
    if raw.id == "" || weight.None? || parsed.None? || parsed.value.0.kind != BOOLEAN then None
    else Some(Rule(raw.id, parsed.value.0, weight.value))
  }

  function TotalSize(rules: seq<Rule>): nat {
    if rules == [] then 0 else TotalSize(rules[..|rules| - 1]) + Size(rules[|rules| - 1].expression)
  }

  predicate Distinct(rules: seq<Rule>) {
    forall i, j :: 0 <= i < j < |rules| ==> rules[i].id != rules[j].id
  }

  predicate Reads(raws: seq<RawRule>, rules: seq<Rule>) {
    |raws| == |rules| && forall i :: 0 <= i < |raws| ==> ParsedRule(raws[i]) == Some(rules[i])
  }

  /** Exactly the rulesets whose rules all parse, fit the node limit together and have distinct
      identifiers are accepted. */
  method ParseRules(raws: seq<RawRule>) returns (r: Option<seq<Rule>>)
    ensures r.Some? ==>
              && |raws| <= MAX_RULES && Reads(raws, r.value) && TotalSize(r.value) <= MAX_RULESET_NODES
              && Distinct(r.value)
    ensures r.None? ==>
              |raws| > MAX_RULES
              || forall rules | Reads(raws, rules) :: TotalSize(rules) > MAX_RULESET_NODES || !Distinct(rules)
  {
    hide ParsedRule, Size;
    if |raws| > MAX_RULES {
      return None;
    }
    var rules: seq<Rule>, total := [], 0;
    for i := 0 to |raws|
      invariant Reads(raws[..i], rules) && total == TotalSize(rules) <= MAX_RULESET_NODES
    {
      var rule := ParsedRule(raws[i]);
      if rule.None? {
        return None;
      }
      var count := CountNodes(rule.value.expression);
      ghost var longer := rules + [rule.value];
      assert longer[..i] == rules;
      if total + count > MAX_RULESET_NODES {
        forall all | Reads(raws, all) ensures TotalSize(all) > MAX_RULESET_NODES {
          assert all[..i + 1] == longer;
          SizesGrow(all, i + 1);
        }
        return None;
      }
      total := total + count;
      rules := rules + [rule.value];
    }
    assert raws[..|raws|] == raws;
    var distinct := AllDistinct(rules);
    if !distinct {
      forall all | Reads(raws, all) ensures !Distinct(all) {
        assert all == rules;
      }
      return None;
    }
    r := Some(rules);
  }

  /** A weight is accepted exactly if it is positive, within the limits, and written out still has at
      most 256 digits. */
  lemma WeightsParse(raw: Num)
    ensures ParsedWeight(raw).Some? <==> Amount(raw) > 0.0 && InLimits(raw) && Expandable(raw)
    ensures ParsedWeight(raw).Some? ==>
              && Amount(ParsedWeight(raw).value) == Amount(raw)
              && IsCanonical(ParsedWeight(raw).value) && InLimits(ParsedWeight(raw).value)
  {
    hide InLimits, Canonical, Expandable;
    CanonicalKeepsAmount(raw);
    CanonicalTwice(raw);
    PositiveAmount(raw);
    if InLimits(raw) { CanonicalInLimits(raw); }
  }

  lemma {:induction false} SizesGrow(rules: seq<Rule>, n: nat)
    requires n <= |rules|
    ensures TotalSize(rules[..n]) <= TotalSize(rules)
    decreases |rules| - n
  {
    if n < |rules| {
      assert rules[..n + 1][..n] == rules[..n];
      SizesGrow(rules, n + 1);
    } else {
      assert rules[..n] == rules;
    }
  }

  method AllDistinct(rules: seq<Rule>) returns (distinct: bool)
    ensures distinct <==> Distinct(rules)
  {
    var seen: set<string> := {};
    for i := 0 to |rules|
      invariant forall j :: 0 <= j < i ==> rules[j].id in seen
      invariant forall id :: id in seen ==> exists j :: 0 <= j < i && rules[j].id == id
      invariant forall j, k :: 0 <= j < k < i ==> rules[j].id != rules[k].id
    {
      if rules[i].id in seen {
        return false;
      }
      seen := seen + {rules[i].id};
    }
    distinct := true;
  }

  // Evaluating a ruleset

  datatype Verdict = Matched | Failed | Unknown

  datatype Status = MATCHED | INSUFFICIENT | FAILED

  datatype Evaluation = Evaluation(status: Status, total: Num, matched: seq<string>, failed: seq<string>,
      missing: seq<string>)

  /** How far the evaluation of a ruleset has come: a verdict per rule, the budget left, and the
      scores of the matched and of the missing rules. */
  datatype Progress = Progress(verdicts: seq<Verdict>, budget: int, total: Num, missing: Num)

  function VerdictOf(v: Value): Result<Verdict> {
    match v
    case Missing(_) => Ok(Unknown)
    case Present(kind, s) =>
      if kind != BOOLEAN || !s.Flag? then Raises(KindGuard) else Ok(if s.flag then Matched else Failed)
  }

  function Judged(m: Limits, rule: Rule, evidence: Evidence, budget: int): Result<Verdict> {
    match Evaluate(m, rule.expression, evidence, budget).0
    case Raises(f) => Raises(f)
    case Ok(value) => VerdictOf(value)
  }

  function Counted(p: Progress, verdict: Verdict, weight: Num, left: int): Result<Progress> {
    var longer := p.verdicts + [verdict];
    match verdict
    case Failed => Ok(Progress(longer, left, p.total, p.missing))
    case Matched =>
      var sum := AddScores(p.total, weight);
      if sum.None? then Raises(ResourceLimit) else Ok(Progress(longer, left, sum.value, p.missing))
    case Unknown =>
      var sum := AddScores(p.missing, weight);
      if sum.None? then Raises(ResourceLimit) else Ok(Progress(longer, left, p.total, sum.value))
  }

  /** The evaluation of the rules in their order under one budget; the first failure ends it. */
  function Ran(m: Limits, rules: seq<Rule>, evidence: Evidence): (r: Result<Progress>)
    ensures r.Ok? ==> |r.value.verdicts| == |rules|
  {
    if rules == [] then Ok(Progress([], MAX_STEPS, NO_SCORE, NO_SCORE))
    else
      var n := |rules| - 1;
      match Ran(m, rules[..n], evidence)
      case Raises(f) => Raises(f)
      case Ok(p) =>
        match Judged(m, rules[n], evidence, p.budget)
        case Raises(f) => Raises(f)
        case Ok(verdict) =>
          Counted(p, verdict, rules[n].weight, Evaluate(m, rules[n].expression, evidence, p.budget).1)
  }

  function Ids(rules: seq<Rule>, verdicts: seq<Verdict>, which: Verdict): seq<string>
    requires |rules| == |verdicts|
  {
    if rules == [] then []
    else
      var n := |rules| - 1;
      Ids(rules[..n], verdicts[..n], which) + if verdicts[n] == which then [rules[n].id] else []
  }

  function StatusFor(total: Num, potential: Num, threshold: Num): Status {
    if Amount(total) >= Amount(threshold) then MATCHED
    else if Amount(potential) >= Amount(threshold) then INSUFFICIENT
    else FAILED
  }

  /** The potential score decides what the total leaves open; total and threshold are shown only
      within the limits. */
  function Concluded(rules: seq<Rule>, p: Progress, threshold: Num): Result<Evaluation>
    requires |p.verdicts| == |rules|
  {
    var potential := AddScores(p.total, p.missing);
    if potential.None? || !InLimits(p.total) || !InLimits(Canonical(threshold)) then Raises(ResourceLimit)
    else
      Ok(Evaluation(StatusFor(p.total, potential.value, threshold), p.total, Ids(rules, p.verdicts, Matched),
                    Ids(rules, p.verdicts, Failed), Ids(rules, p.verdicts, Unknown)))
  }

  /** The outcome of the rules: their evaluation with the lists of their identifiers, or the first
      failure. */
  method RunRules(m: Limits, rules: seq<Rule>, evidence: Evidence)
    returns (r: Result<Progress>, matched: seq<string>, failed: seq<string>, missing: seq<string>)
    ensures r == Ran(m, rules, evidence)
    ensures r.Ok? ==>
              && matched == Ids(rules, r.value.verdicts, Matched)
              && failed == Ids(rules, r.value.verdicts, Failed)
              && missing == Ids(rules, r.value.verdicts, Unknown)
  {
    hide Evaluate, InLimits, Canonical, AddScores, VerdictOf, Ran, Ids;
    matched, failed, missing := [], [], [];
    var budget, total, unknown := MAX_STEPS, NO_SCORE, NO_SCORE;
    var done: seq<Verdict> := [];
    RanNothing(m, evidence);
    for i := 0 to |rules|
      invariant |done| == i && Ran(m, rules[..i], evidence) == Ok(Progress(done, budget, total, unknown))
      invariant matched == Ids(rules[..i], done, Matched) && failed == Ids(rules[..i], done, Failed)
      invariant missing == Ids(rules[..i], done, Unknown)
    {
      ghost var p := Progress(done, budget, total, unknown);
      RanNext(m, rules, evidence, i, p);
      RaisesAtOnce(m, rules, evidence, i + 1);
      var (value, left) := Evaluate(m, rules[i].expression, evidence, budget);
      if value.Raises? {
        return Raises(value.failure), matched, failed, missing;
      }
      var verdict := VerdictOf(value.value);
      if verdict.Raises? {
        return Raises(verdict.failure), matched, failed, missing;
      }
      IdsNext(rules, done, verdict.value);
      match verdict.value {
        case Matched =>
          var sum := AddScores(total, rules[i].weight);
          if sum.None? {
            return Raises(ResourceLimit), matched, failed, missing;
          }
          matched, total := matched + [rules[i].id], sum.value;
        case Failed =>
          failed := failed + [rules[i].id];
        case Unknown =>
          var sum := AddScores(unknown, rules[i].weight);
          if sum.None? {
            return Raises(ResourceLimit), matched, failed, missing;
          }
          missing, unknown := missing + [rules[i].id], sum.value;
      }
      budget := left;
      done := done + [verdict.value];
    }
    assert rules[..|rules|] == rules;
    r := Ok(Progress(done, budget, total, unknown));
  }

  lemma {:induction false} RanNothing(m: Limits, evidence: Evidence)
    ensures Ran(m, [], evidence) == Ok(Progress([], MAX_STEPS, NO_SCORE, NO_SCORE))
    ensures forall which :: Ids([], [], which) == []
  {
  }

  /** One more rule. */
  lemma {:induction false} RanNext(m: Limits, rules: seq<Rule>, evidence: Evidence, n: nat, p: Progress)
    requires n < |rules| && Ran(m, rules[..n], evidence) == Ok(p)
    ensures Ran(m, rules[..n + 1], evidence)
            == match Judged(m, rules[n], evidence, p.budget)
               case Raises(f) => Raises(f)
               case Ok(verdict) =>
                 Counted(p, verdict, rules[n].weight, Evaluate(m, rules[n].expression, evidence, p.budget).1)
  {
    hide Judged, Counted, Evaluate;
    assert rules[..n + 1][..n] == rules[..n];
  }

  lemma {:induction false} IdsNext(rules: seq<Rule>, done: seq<Verdict>, verdict: Verdict)
    requires |done| < |rules|
    ensures var n := |done|;
            forall which ::
              Ids(rules[..n + 1], done + [verdict], which)
              == Ids(rules[..n], done, which) + if verdict == which then [rules[n].id] else []
  {
    var n, longer := |done|, done + [verdict];
    assert rules[..n + 1][..n] == rules[..n] && longer[..n] == done;
  }

  method EvaluateRuleset(m: Limits, rules: seq<Rule>, evidence: Evidence, threshold: Num)
    returns (r: Option<Result<Evaluation>>)
    ensures r.None? <==> threshold.coefficient < 0 || !InLimits(threshold) || !Distinct(rules)
                         || exists i :: 0 <= i < |rules| && !Acceptable(rules[i].expression)
    ensures r.Some? ==>
              r.value == match Ran(m, rules, evidence)
                         case Raises(f) => Raises(f)
                         case Ok(p) => Concluded(rules, p, threshold)
  {
    hide Acceptable, InLimits, Canonical, AddScores, Ran, Ids;
    var distinct := AllDistinct(rules);
    if threshold.coefficient < 0 || !InLimits(threshold) || !distinct {
      return None;
    }
    for i := 0 to |rules|
      invariant forall j :: 0 <= j < i ==> Acceptable(rules[j].expression)
    {
      var ok := ValidateExpression(rules[i].expression);
      if !ok {
        return None;
      }
    }
    var run, matched, failed, missing := RunRules(m, rules, evidence);
    if run.Raises? {
      return Some(Raises(run.failure));
    }
    var total, potential := run.value.total, AddScores(run.value.total, run.value.missing);
    if potential.None? || !InLimits(total) || !InLimits(Canonical(threshold)) {
      return Some(Raises(ResourceLimit));
    }
    r := Some(Ok(Evaluation(StatusFor(total, potential.value, threshold), total, matched, failed, missing)));
  }

  /** A failure of the first rules is the failure of the ruleset. */
  lemma {:induction false} RaisesAtOnce(m: Limits, rules: seq<Rule>, evidence: Evidence, n: nat)
    requires n <= |rules|
    ensures Ran(m, rules[..n], evidence).Raises? ==> Ran(m, rules, evidence) == Ran(m, rules[..n], evidence)
    decreases |rules| - n
  {
    hide Judged, Counted;
    if n < |rules| {
      assert rules[..n + 1][..n] == rules[..n];
      RaisesAtOnce(m, rules, evidence, n + 1);
    } else {
      assert rules[..n] == rules;
    }
  }

  // The budget and the failures of a parsed ruleset

  /** The rules run so far have used no more than their nodes. */
  lemma {:induction false} BudgetLasts(m: Limits, rules: seq<Rule>, evidence: Evidence)
    requires TotalSize(rules) <= MAX_STEPS
    ensures Ran(m, rules, evidence) != Raises(BudgetExhausted)
    ensures Ran(m, rules, evidence).Ok? ==> Ran(m, rules, evidence).value.budget >= MAX_STEPS - TotalSize(rules)
  {
    hide Evaluate, Size, VerdictOf, AddScores;
    if rules != [] {
      var n := |rules| - 1;
      BudgetLasts(m, rules[..n], evidence);
      var before := Ran(m, rules[..n], evidence);
      if before.Ok? {
        BudgetSuffices(m, rules[n].expression, evidence, before.value.budget);
        JudgedRaises(m, rules[n], evidence, before.value.budget);
      }
    }
  }

  lemma {:induction false} JudgedRaises(m: Limits, rule: Rule, evidence: Evidence, budget: int)
    ensures var r, v := Judged(m, rule, evidence, budget), Evaluate(m, rule.expression, evidence, budget).0;
            && (v.Raises? ==> r == Raises(v.failure))
            && (v.Ok? && r.Raises? ==> r.failure == KindGuard)
            && (v.Ok? && WellFormed(v.value) && v.value.kind == BOOLEAN ==> r.Ok?)
            && (r.Ok? ==> v.Ok? && (v.value.Present? <==> r.value != Unknown))
  {
    hide Evaluate;
  }

  /** A parsed ruleset never exhausts the evaluation budget, whatever the evidence. */
  lemma {:induction false} ParsedRulesetsNeverExhaust(m: Limits, raws: seq<RawRule>, rules: seq<Rule>,
                                                      evidence: Evidence)
    requires Reads(raws, rules) && TotalSize(rules) <= MAX_RULESET_NODES
    ensures Ran(m, rules, evidence) != Raises(BudgetExhausted)
  {
    BudgetLasts(m, rules, evidence);
  }

  /** On registered evidence a parsed ruleset without a null `if` raises only where a division or a
      resource limit fails. */
  lemma {:induction false} ParsedRulesetsFailOnlyOnNumbers(m: Limits, rules: seq<Rule>, evidence: Evidence)
    requires Registered(evidence) && TotalSize(rules) <= MAX_RULESET_NODES
    requires forall i :: 0 <= i < |rules| ==>
               Typed(rules[i].expression) && rules[i].expression.kind == BOOLEAN && !HasNullIf(rules[i].expression)
    ensures var r := Ran(m, rules, evidence); r.Raises? ==> r.failure in {DivisionByZero, ResourceLimit}
  {
    hide Evaluate, Size, Typed, HasNullIf, VerdictOf, AddScores, Judged;
    if rules != [] {
      var n, e := |rules| - 1, rules[|rules| - 1].expression;
      ParsedRulesetsFailOnlyOnNumbers(m, rules[..n], evidence);
      BudgetLasts(m, rules[..n], evidence);
      var before := Ran(m, rules[..n], evidence);
      if before.Ok? {
        KindsAreSound(m, e, evidence, before.value.budget);
        BudgetSuffices(m, e, evidence, before.value.budget);
        JudgedRaises(m, rules[n], evidence, before.value.budget);
        var v := Evaluate(m, e, evidence, before.value.budget).0;
        if v.Raises? {
          match v.failure case BudgetExhausted => case NullMissing => case DivisionByZero => case ResourceLimit =>
              case KindGuard =>
        }
      }
    }
  }

  // A null `if`

  const ACTIONABLE := "market.is_actionable"

  /** A null `if` whose condition is missing raises instead of being missing. */
  lemma {:induction false} NullIfRaises(m: Limits, budget: int)
    requires budget >= 4
    ensures var path := "market.is_actionable";
            var e := Operation(If, [Path(path, BOOLEAN), Literal(NULL, Nothing), Literal(NULL, Nothing)], NULL);
            Typed(e) && Evaluate(m, e, map[], budget).0 == Raises(NullMissing)
  {
    var path := "market.is_actionable";
    var leaf, nothing := Path(path, BOOLEAN), Literal(NULL, Nothing);
    assert Typed(leaf) by { assert KindFor(path) == Some(BOOLEAN); }
    ThreeTyped(leaf, nothing, nothing);
    assert Evaluate(m, leaf, map[], budget - 1).0 == Ok(Missing(BOOLEAN));
  }

  lemma {:induction false} ThreeTyped(a: Expr, b: Expr, c: Expr)
    requires Typed(a) && Typed(b) && Typed(c)
    ensures AllTyped([a, b, c])
  {
    assert [c][1..] == [];
    assert AllTyped([c]);
    assert [b, c][1..] == [c];
    assert AllTyped([b, c]);
    assert [a, b, c][1..] == [b, c];
  }
}
