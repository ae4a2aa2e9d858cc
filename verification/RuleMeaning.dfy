/** What rules mean, told without budget, short cuts or accumulators: the value that an expression
    denotes, and what the outcome of a ruleset says of its rules. */
module RuleMeaning {
  import Decimals
  import opened StateMachine
  import opened DecimalContext
  import opened DecimalSums
  import opened RuleNumbers
  import opened Rules
  import opened RuleChecks
  import opened RuleEvaluator
  import opened RuleScores
  import opened Rulesets

  // Signatures

  /** The kind that all operands of an operator have, if it asks for one. */
  function Takes(operator: Operator): Option<Kind> {
    if operator in {And, Or, Not} then Some(BOOLEAN)
    else if operator in {Add, Subtract, Multiply, Divide} then Some(DECIMAL)
    else if operator == In then Some(STRING)
    else None
  }

  /** Which operands an operator accepts and what it yields: how many, of which kinds, and for a division
      none that is a constant zero or beyond the limits. */
  lemma SignaturesAre(operator: Operator, es: seq<Expr>)
    ensures var kind, n := OperatorKind(operator, es), |es|;
            && (kind.Some? <==>
                  && (operator in {And, Or} ==> n >= 1)
                  && (operator in {Not, Exists} ==> n == 1)
                  && (operator in {Add, Multiply} ==> n >= 2)
                  && (operator in {Eq, Ne, Lt, Lte, Gt, Gte, Subtract, Divide, In} ==> n == 2)
                  && (operator == If ==> n == 3 && es[0].kind == BOOLEAN && es[1].kind == es[2].kind)
                  && (operator in {Eq, Ne, Lt, Lte, Gt, Gte} ==> es[0].kind == es[1].kind)
                  && (operator in {Lt, Lte, Gt, Gte} ==> es[0].kind in {DECIMAL, DATETIME})
                  && (Takes(operator).Some? ==> forall i :: 0 <= i < n ==> Some(es[i].kind) == Takes(operator))
                  && (operator == Divide ==>
                        var d := StaticDecimal(es[1]); d.Open? || (d.Static? && d.value.coefficient != 0)))
            && (kind.Some? ==>
                  kind.value == if operator == If then es[1].kind
                                else if operator in {Add, Subtract, Multiply, Divide} then DECIMAL else BOOLEAN)
  {
    hide StaticDecimal;
  }

  /** A rule is accepted exactly if it has an identifier, a positive weight within the limits and a truth
      value for its expression; it keeps its identifier and its weight, and its expression reads as given. */
  lemma {:induction false} RulesAre(raw: RawRule)
    ensures var r, parsed := ParsedRule(raw), Parse(raw.expression, 0, 1);
            && (r.Some? <==>
                  && raw.id != "" && Amount(raw.weight) > 0.0 && InLimits(raw.weight) && Expandable(raw.weight)
                  && parsed.Some? && parsed.value.0.kind == BOOLEAN)
            && (r.Some? ==>
                  && r.value.id == raw.id && Amount(r.value.weight) == Amount(raw.weight)
                  && Typed(r.value.expression) && r.value.expression.kind == BOOLEAN
                  && Render(r.value.expression) == RuleChecks.Normal(raw.expression))
  {
    hide InLimits, Expandable, ParsedWeight, Decimals.Value, Typed, Render, RuleChecks.Normal, Parse;
    WeightsParse(raw.weight);
    if Parse(raw.expression, 0, 1).Some? { ParseRenders(raw.expression, 0, 1); }
  }

  // Operators

  function Absent(kind: Kind): Result<Value> {
    if kind == NULL then Raises(NullMissing) else Ok(Missing(kind))
  }

  function Decided(b: bool): Result<Value> {
    Ok(Present(BOOLEAN, Flag(b)))
  }

  /** A number within the limits, in its canonical form. */
  function Shown(n: Num): Result<Value> {
    if InLimits(n) then Ok(Present(DECIMAL, Number(Canonical(n)))) else Raises(ResourceLimit)
  }

  /** A result, which has to stay within the limits once it is written out. */
  function Calculates(n: Num): Result<Value> {
    if InLimits(n) && InLimits(Canonical(n)) then Shown(n) else Raises(ResourceLimit)
  }

  /** Where a number or an instant stands. */
  function Place(s: Scalar): real {
    match s
    case Number(n) => Amount(n)
    case Instant(at) => at as real
    case _ => 0.0
  }

  predicate Equal(a: Scalar, b: Scalar) {
    if a.Number? && b.Number? then Place(a) == Place(b) else a == b
  }

  ghost predicate Contains(whole: string, part: string) {
    exists before: string, after: string :: Parts(whole, before, part, after)
  }

  predicate Parts(whole: string, before: string, part: string, after: string) {
    whole == before + part + after
  }

  function NumberOf(v: Value): Num {
    if v.Present? && v.scalar.Number? then v.scalar.number else Decimals.ZERO
  }

  function NumbersOf(vs: seq<Value>): seq<Num> {
    seq(|vs|, i requires 0 <= i < |vs| => NumberOf(vs[i]))
  }

  predicate Enough(operator: Operator, n: nat) {
    n >= if operator in {And, Or, Not, Add, Multiply, Exists} then 1 else 2
  }

  /** What an operator makes of operands that are all there and of its kinds. */
  ghost function Operates(operator: Operator, vs: seq<Value>): Result<Value>
    requires operator != If && !AnyMissing(vs) && Enough(operator, |vs|)
  {
    match operator
    case And => Decided(forall i :: 0 <= i < |vs| ==> vs[i].scalar == Flag(true))
    case Or => Decided(exists i :: 0 <= i < |vs| && vs[i].scalar == Flag(true))
    case Not => Decided(vs[0].scalar == Flag(false))
    case Eq => Decided(Equal(vs[0].scalar, vs[1].scalar))
    case Ne => Decided(!Equal(vs[0].scalar, vs[1].scalar))
    case Lt => Decided(Place(vs[0].scalar) < Place(vs[1].scalar))
    case Lte => Decided(Place(vs[0].scalar) <= Place(vs[1].scalar))
    case Gt => Decided(Place(vs[0].scalar) > Place(vs[1].scalar))
    case Gte => Decided(Place(vs[0].scalar) >= Place(vs[1].scalar))
    case In => Decided(vs[0].scalar.Text? && vs[1].scalar.Text? && Contains(vs[1].scalar.text, vs[0].scalar.text))
    case Add => Calculates(SumOf(NumbersOf(vs)))
    case Subtract => Calculates(Minus(NumberOf(vs[0]), NumberOf(vs[1])))
    case Multiply => Calculates(ProductOf(NumbersOf(vs)))
    case Divide =>
      if NumberOf(vs[1]).coefficient == 0 then Raises(DivisionByZero)
      else Calculates(Quotient(NumberOf(vs[0]), NumberOf(vs[1])))
    case _ => Decided(true)
  }

  // Expressions

  /** The kinds of the paths and of the operands fit. */
  predicate Shaped(e: Expr)
    decreases e
  {
    match e
    case Literal(_, _) => true
    case Path(path, kind) => KindFor(path) == Some(kind)
    case Operation(operator, operands, kind) =>
      && OperatorKind(operator, operands) == Some(kind)
      && forall i :: 0 <= i < |operands| ==> Shaped(operands[i])
  }

  function LiteralMeaning(m: Limits, kind: Kind, s: Scalar): Result<Value> {
    if kind != KindOf(s) then Raises(KindGuard)
    else match s
      case Number(n) => Shown(n)
      case Text(text) => if m.fits(text) then Ok(Present(STRING, s)) else Raises(ResourceLimit)
      case _ => Ok(Present(kind, s))
  }

  predicate FailsFirst(rs: seq<Result<Value>>, i: nat) {
    i < |rs| && rs[i].Raises? && forall j :: 0 <= j < i ==> rs[j].Ok?
  }

  function ValuesOf(rs: seq<Result<Value>>): seq<Value>
    requires forall i :: 0 <= i < |rs| ==> rs[i].Ok?
  {
    seq(|rs|, i requires 0 <= i < |rs| => rs[i].value)
  }

  /** What an operation makes of what its operands denote: the first failure, or else what there is,
      or that something is missing, or what the operator makes of the values. */
  ghost function Combines(operator: Operator, kind: Kind, rs: seq<Result<Value>>): Result<Value>
    requires operator != If && Enough(operator, |rs|)
  {
    if exists i: nat :: FailsFirst(rs, i) then
      var i: nat :| FailsFirst(rs, i);
      Raises(rs[i].failure)
    else
      FirstFailure(rs);
      var vs := ValuesOf(rs);
      if operator == Exists then Decided(vs[0].Present?)
      else if AnyMissing(vs) then Absent(kind)
      else Operates(operator, vs)
  }

  lemma {:induction false} FirstFailure(rs: seq<Result<Value>>)
    ensures (exists i: nat :: FailsFirst(rs, i)) || forall i :: 0 <= i < |rs| ==> rs[i].Ok?
  {
    if rs != [] {
      var n := |rs| - 1;
      FirstFailure(rs[..n]);
      if i: nat :| FailsFirst(rs[..n], i) {
        assert FailsFirst(rs, i);
      } else if rs[n].Raises? {
        forall j | 0 <= j < n ensures rs[j].Ok? { assert rs[j] == rs[..n][j]; }
        assert FailsFirst(rs, n);
      }
    }
  }

  lemma OperandsSuffice(operator: Operator, operands: seq<Expr>)
    requires OperatorKind(operator, operands).Some?
    ensures operator != If ==> Enough(operator, |operands|)
    ensures operator == If ==> |operands| == 3
  {
    hide StaticDecimal;
  }

  /** What an expression denotes on evidence. */
  ghost function Meaning(m: Limits, e: Expr, evidence: Evidence): Result<Value>
    requires Shaped(e)
    decreases e
  {
    match e
    case Literal(kind, s) => LiteralMeaning(m, kind, s)
    case Path(path, kind) => Ok(if path in evidence then evidence[path] else Missing(kind))
    case Operation(operator, operands, kind) =>
      OperandsSuffice(operator, operands);
      if operator == If then
        match Meaning(m, operands[0], evidence)
        case Raises(f) => Raises(f)
        case Ok(Missing(_)) => Absent(kind)
        case Ok(Present(_, s)) => Meaning(m, if s == Flag(true) then operands[1] else operands[2], evidence)
      else
        Combines(operator, kind, seq(|operands|, i requires 0 <= i < |operands| => Meaning(m, operands[i], evidence)))
  }

  ghost function Meanings(m: Limits, es: seq<Expr>, evidence: Evidence): seq<Result<Value>>
    requires forall i :: 0 <= i < |es| ==> Shaped(es[i])
  {
    seq(|es|, i requires 0 <= i < |es| => Meaning(m, es[i], evidence))
  }

  predicate OfKind(r: Result<Value>, kind: Kind) {
    r.Ok? ==> WellFormed(r.value) && r.value.kind == kind
  }

  /** The evaluator yields what the expression denotes, unless it runs out of budget. */
  lemma {:induction false} EvaluationMeans(m: Limits, e: Expr, evidence: Evidence, budget: int)
    requires Shaped(e) && Registered(evidence)
    ensures var r := Evaluate(m, e, evidence, budget).0;
            OfKind(r, e.kind) && (r == Raises(BudgetExhausted) || r == Meaning(m, e, evidence))
    decreases e
  {
    hide KindFor, OperatorKind, Operated, Combines, CanonicalNumber, LiteralOf, LiteralMeaning;
    if budget >= 1 {
      match e
      case Literal(kind, s) => LiteralMeans(m, kind, s);
      case Path(path, kind) => PathsAreNotNull(path);
      case Operation(operator, operands, kind) =>
        OperandsSuffice(operator, operands);
        if operator == If {
          BranchKinds(operands, kind);
          EvaluationMeans(m, operands[0], evidence, budget - 1);
          var (condition, left) := Evaluate(m, operands[0], evidence, budget - 1);
          EvaluationMeans(m, operands[1], evidence, left);
          EvaluationMeans(m, operands[2], evidence, left);
        } else {
          OperandsMean(m, operands, evidence, budget - 1);
          var values := EvaluateAll(m, operands, evidence, budget - 1).0;
          assert Meanings(m, operands, evidence)
                 == seq(|operands|, i requires 0 <= i < |operands| => Meaning(m, operands[i], evidence));
          if values.Ok? {
            OperationMeans(m, e, values.value, Meanings(m, operands, evidence));
          } else if values.failure != BudgetExhausted {
            CombinesFailure(operator, kind, Meanings(m, operands, evidence), values.failure);
          }
        }
    }
  }

  lemma LiteralMeans(m: Limits, kind: Kind, s: Scalar)
    ensures LiteralOf(m, kind, s) == LiteralMeaning(m, kind, s) && OfKind(LiteralOf(m, kind, s), kind)
  {
    hide InLimits, Canonical;
  }

  lemma BranchKinds(operands: seq<Expr>, kind: Kind)
    requires OperatorKind(If, operands) == Some(kind)
    ensures |operands| == 3 && operands[0].kind == BOOLEAN && operands[1].kind == operands[2].kind == kind
  {
  }

  /** The operands were all found, or the first of them that denotes a failure was. */
  ghost predicate Found(r: Result<seq<Value>>, rs: seq<Result<Value>>) {
    match r
    case Ok(vs) => |vs| == |rs| && forall i :: 0 <= i < |rs| ==> rs[i] == Ok(vs[i])
    case Raises(f) => f == BudgetExhausted || exists i: nat :: FailsFirst(rs, i) && rs[i].failure == f
  }

  lemma {:induction false} OperandsMean(m: Limits, es: seq<Expr>, evidence: Evidence, budget: int)
    requires Registered(evidence) && forall i :: 0 <= i < |es| ==> Shaped(es[i])
    ensures var r := EvaluateAll(m, es, evidence, budget).0;
            (r.Ok? ==> AllOfKind(r.value, es)) && Found(r, Meanings(m, es, evidence))
    decreases es
  {
    hide Shaped, Evaluate, Meaning;
    if es != [] {
      EvaluationMeans(m, es[0], evidence, budget);
      var (first, left) := Evaluate(m, es[0], evidence, budget);
      OperandsMean(m, es[1..], evidence, left);
      var rs, rest := Meanings(m, es, evidence), Meanings(m, es[1..], evidence);
      FoundNext(first, EvaluateAll(m, es[1..], evidence, left).0, rs, rest);
    }
  }

  lemma {:induction false} FoundNext(first: Result<Value>, later: Result<seq<Value>>, rs: seq<Result<Value>>,
                                     rest: seq<Result<Value>>)
    requires |rs| == |rest| + 1 && forall i :: 0 <= i < |rest| ==> rest[i] == rs[i + 1]
    requires first == Raises(BudgetExhausted) || first == rs[0]
    requires Found(later, rest)
    ensures Found(match first
                  case Raises(f) => Raises(f)
                  case Ok(v) => match later case Raises(f) => Raises(f) case Ok(vs) => Ok([v] + vs), rs)
  {
    if first.Raises? {
      assert first != Raises(BudgetExhausted) ==> FailsFirst(rs, 0);
    } else if later.Raises? && later.failure != BudgetExhausted {
      var i: nat :| FailsFirst(rest, i) && rest[i].failure == later.failure;
      forall j | 0 <= j < i + 1 ensures rs[j].Ok? { if j > 0 { assert rs[j] == rest[j - 1]; } }
      assert FailsFirst(rs, i + 1);
    }
  }

  lemma {:induction false} CombinesFailure(operator: Operator, kind: Kind, rs: seq<Result<Value>>, f: Failure)
    requires operator != If && Enough(operator, |rs|)
    requires exists i: nat :: FailsFirst(rs, i) && rs[i].failure == f
    ensures Combines(operator, kind, rs) == Raises(f)
  {
    var i: nat :| FailsFirst(rs, i) && rs[i].failure == f;
    var j: nat :| FailsFirst(rs, j) && Combines(operator, kind, rs) == Raises(rs[j].failure);
    assert i == j;
  }

  /** One operation on operands that were found. */
  lemma {:induction false} OperationMeans(m: Limits, e: Expr, vs: seq<Value>, rs: seq<Result<Value>>)
    requires e.Operation? && OperatorKind(e.operator, e.operands) == Some(e.kind) && e.operator != If
    requires AllOfKind(vs, e.operands) && Found(Ok(vs), rs) && Enough(e.operator, |rs|)
    ensures OfKind(Operated(m, e.operator, e.kind, vs), e.kind)
    ensures Operated(m, e.operator, e.kind, vs) == Combines(e.operator, e.kind, rs)
  {
    hide OperatorKind, Operates, Applied, WellFormed;
    OperationIsSound(m, e, vs);
    assert !exists i: nat :: FailsFirst(rs, i);
    assert ValuesOf(rs) == vs;
    if e.operator != Exists && !AnyMissing(vs) {
      OperatorMeans(m, e, vs);
    }
  }

  lemma {:induction false} OperatorMeans(m: Limits, e: Expr, vs: seq<Value>)
    requires e.Operation? && OperatorKind(e.operator, e.operands) == Some(e.kind) && e.operator !in {Exists, If}
    requires AllOfKind(vs, e.operands) && !AnyMissing(vs) && Enough(e.operator, |vs|)
    ensures Operated(m, e.operator, e.kind, vs) == Operates(e.operator, vs)
  {
    hide StaticDecimal, InLimits, Canonical, Decimals.Value, Computed;
    match e.operator {
      case And => AllFlags(vs);
      case Or => AllFlags(vs);
      case In => SubstringIs(vs[0].scalar.text, vs[1].scalar.text);
      case Add => ArithmeticMeans(m, Add, e.kind, vs);
      case Subtract => ArithmeticMeans(m, Subtract, e.kind, vs);
      case Multiply => ArithmeticMeans(m, Multiply, e.kind, vs);
      case Divide => ArithmeticMeans(m, Divide, e.kind, vs);
      case _ =>
    }
  }

  lemma {:induction false} AllFlags(vs: seq<Value>)
    requires forall i :: 0 <= i < |vs| ==> vs[i].Present? && vs[i].scalar.Flag?
    ensures Conjunction(vs) == Ok(forall i :: 0 <= i < |vs| ==> vs[i].scalar == Flag(true))
    ensures Disjunction(vs) == Ok(exists i :: 0 <= i < |vs| && vs[i].scalar == Flag(true))
  {
    if vs != [] {
      AllFlags(vs[1..]);
      assert forall i :: 0 < i < |vs| ==> vs[i] == vs[1..][i - 1];
      assert forall i :: 0 <= i < |vs| - 1 ==> vs[1..][i] == vs[i + 1];
    }
  }

  lemma SubstringIs(part: string, whole: string)
    ensures Substring(part, whole) <==> Contains(whole, part)
  {
    if i :| 0 <= i <= |whole| - |part| && StandsAt(part, whole, i) {
      assert Parts(whole, whole[..i], part, whole[i + |part|..]);
    }
    if before: string, after: string :| Parts(whole, before, part, after) {
      assert StandsAt(part, whole, |before|);
    }
  }

  lemma {:induction false} ArithmeticMeans(m: Limits, operator: Operator, kind: Kind, vs: seq<Value>)
    requires operator in {Add, Subtract, Multiply, Divide} && !AnyMissing(vs) && Enough(operator, |vs|)
    requires forall i :: 0 <= i < |vs| ==> vs[i].Present? && vs[i].scalar.Number?
    ensures Operated(m, operator, kind, vs) == Operates(operator, vs)
  {
    hide InLimits, Canonical, SumOf, ProductOf, Minus, Quotient;
    NumbersAreSound(vs);
    assert Numbers(vs).value == NumbersOf(vs);
    assert NumbersOf(vs)[0] == NumberOf(vs[0]) && (|vs| >= 2 ==> NumbersOf(vs)[1] == NumberOf(vs[1]));
    var r := Calculated(operator, NumbersOf(vs));
    if r.Ok? {
      CanonicalTwice(Computed(operator, NumbersOf(vs)).value);
    }
  }

  // Arithmetic

  /** Sums, differences, products and quotients of the rules are those of the numbers, rounded. */
  lemma {:induction false} ArithmeticRounds(xs: seq<Num>, x: Num, y: Num)
    ensures AddsUp(xs, SumOf(xs)) && MultipliesUp(xs, ProductOf(xs))
    ensures CorrectlyRounded(Amount(x) - Amount(y), Minus(x, y))
    ensures y.coefficient != 0 ==> Amount(y) != 0.0 && CorrectlyRounded(Amount(x) / Amount(y), Quotient(x, y))
  {
    hide SumOf, ProductOf, Minus, Quotient, CorrectlyRounded, Decimals.Value, AddsUp, MultipliesUp;
    SumIsCorrect(x, y);
    SumsAccumulate(xs);
    if y.coefficient != 0 {
      QuotientIsCorrect(x, y);
      DividedIs(Amount(x), Amount(y));
    }
  }

  lemma DividedIs(x: real, y: real)
    requires y != 0.0
    ensures Divided(x, y) == x / y
  {
  }

  lemma NothingAddsUp()
    ensures AddsUp([], Decimals.ZERO)
  {
  }

  // Rulesets

  ghost predicate AllShaped(rules: seq<Rule>) {
    forall i :: 0 <= i < |rules| ==> Shaped(rules[i].expression)
  }

  /** What a rule says of the evidence: that it holds, that it does not, or that something is missing. */
  ghost predicate Says(m: Limits, rule: Rule, evidence: Evidence, which: Verdict)
    requires Shaped(rule.expression)
  {
    var v := Meaning(m, rule.expression, evidence);
    match which
    case Matched => v == Decided(true)
    case Failed => v == Decided(false)
    case Unknown => v.Ok? && v.value.Missing?
  }

  ghost predicate Answers(m: Limits, rule: Rule, evidence: Evidence)
    requires Shaped(rule.expression)
  {
    exists which :: Says(m, rule, evidence, which)
  }

  /** The rules that say so, in their order. */
  ghost function Those(m: Limits, rules: seq<Rule>, evidence: Evidence, which: Verdict): seq<Rule>
    requires AllShaped(rules)
    decreases |rules|
  {
    if rules == [] then []
    else
      var n := |rules| - 1;
      Those(m, rules[..n], evidence, which) + if Says(m, rules[n], evidence, which) then [rules[n]] else []
  }

  function Names(rules: seq<Rule>): seq<string> {
    seq(|rules|, i requires 0 <= i < |rules| => rules[i].id)
  }

  function Weighing(rules: seq<Rule>): seq<Num> {
    seq(|rules|, i requires 0 <= i < |rules| => rules[i].weight)
  }

  /** What a run of the rules has found. */
  ghost predicate Finds(m: Limits, rules: seq<Rule>, evidence: Evidence, p: Progress)
    requires AllShaped(rules) && |p.verdicts| == |rules|
  {
    && (forall i :: 0 <= i < |rules| ==> Says(m, rules[i], evidence, p.verdicts[i]))
    && (forall which :: Ids(rules, p.verdicts, which) == Names(Those(m, rules, evidence, which)))
    && AddsUp(Weighing(Those(m, rules, evidence, Matched)), p.total)
    && AddsUp(Weighing(Those(m, rules, evidence, Unknown)), p.missing)
  }

  lemma {:induction false} RunFinds(m: Limits, rules: seq<Rule>, evidence: Evidence)
    requires AllShaped(rules) && Registered(evidence) && Ran(m, rules, evidence).Ok?
    ensures Finds(m, rules, evidence, Ran(m, rules, evidence).value)
    decreases |rules|
  {
    hide Meaning, Evaluate, Decimals.Value, CorrectlyRounded, AddScores, Shaped;
    if rules == [] {
      NothingAddsUp();
    } else {
      var n := |rules| - 1;
      RunFinds(m, rules[..n], evidence);
      var p := Ran(m, rules[..n], evidence).value;
      EvaluationMeans(m, rules[n].expression, evidence, p.budget);
      FindsNext(m, rules, evidence, p, Ran(m, rules, evidence).value);
    }
  }

  lemma {:induction false} ThoseNext(m: Limits, rules: seq<Rule>, evidence: Evidence, which: Verdict, verdict: Verdict)
    requires AllShaped(rules) && rules != [] && Says(m, rules[|rules| - 1], evidence, verdict)
    ensures var n := |rules| - 1;
            var before, all := Those(m, rules[..n], evidence, which), Those(m, rules, evidence, which);
            && Names(all) == Names(before) + (if which == verdict then [rules[n].id] else [])
            && Weighing(all) == Weighing(before) + (if which == verdict then [rules[n].weight] else [])
  {
    hide Meaning, Shaped;
    var n := |rules| - 1;
    assert Says(m, rules[n], evidence, which) <==> which == verdict;
    assert Those(m, rules, evidence, which)
           == Those(m, rules[..n], evidence, which) + if which == verdict then [rules[n]] else [];
  }

  lemma {:induction false} FindsNext(m: Limits, rules: seq<Rule>, evidence: Evidence, p: Progress, q: Progress)
    requires AllShaped(rules) && rules != []
    requires |p.verdicts| == |rules| - 1 && Finds(m, rules[..|rules| - 1], evidence, p)
    requires |q.verdicts| == |rules| && Says(m, rules[|rules| - 1], evidence, q.verdicts[|rules| - 1])
    requires Counted(p, q.verdicts[|rules| - 1], rules[|rules| - 1].weight, q.budget) == RuleEvaluator.Ok(q)
    ensures Finds(m, rules, evidence, q)
  {
    hide Says, Those, AddsUp, CorrectlyRounded, AddScores, Shaped;
    var n, verdict := |rules| - 1, q.verdicts[|rules| - 1];
    assert q.verdicts[..n] == p.verdicts;
    forall i | 0 <= i < |rules| ensures Says(m, rules[i], evidence, q.verdicts[i]) {
      if i < n { assert rules[..n][i] == rules[i] && p.verdicts[i] == q.verdicts[i]; }
    }
    forall which
      ensures Ids(rules, q.verdicts, which) == Names(Those(m, rules, evidence, which))
      ensures Weighing(Those(m, rules, evidence, which))
              == Weighing(Those(m, rules[..n], evidence, which)) + if which == verdict then [rules[n].weight] else []
    {
      ThoseNext(m, rules, evidence, which, verdict);
    }
    assert forall xs: seq<Num> :: xs + [] == xs;
    if verdict == Matched {
      ScoreAdds(Weighing(Those(m, rules[..n], evidence, Matched)), p.total, rules[n].weight);
    } else if verdict == Unknown {
      ScoreAdds(Weighing(Those(m, rules[..n], evidence, Unknown)), p.missing, rules[n].weight);
    }
  }

  lemma {:induction false} ScoreAdds(xs: seq<Num>, before: Num, x: Num)
    requires AddsUp(xs, before) && AddScores(before, x).Some?
    ensures AddsUp(xs + [x], AddScores(before, x).value)
  {
    hide Decimals.Value, CorrectlyRounded, Canonical, InLimits, Plus;
    SumIsCorrect(before, x);
    CanonicalKeepsAmount(Plus(before, x));
    assert (xs + [x])[..|xs|] == xs;
    assert AddsLast(xs + [x], before, Plus(before, x), AddScores(before, x).value);
  }

  /** What a report says of its rules, and by which scores it has its status. */
  ghost predicate Reports(m: Limits, rules: seq<Rule>, evidence: Evidence, threshold: Num, r: Evaluation,
                          potential: Num)
    requires AllShaped(rules)
  {
    && r.matched == Names(Those(m, rules, evidence, Matched))
    && r.failed == Names(Those(m, rules, evidence, Failed))
    && r.missing == Names(Those(m, rules, evidence, Unknown))
    && (r.status == MATCHED <==> Amount(r.total) >= Amount(threshold))
    && (r.status == FAILED <==> Amount(r.total) < Amount(threshold) && Amount(potential) < Amount(threshold))
  }

  /** The scores a ruleset comes to: of the rules that match, of those that are missing, and of both. */
  ghost predicate Scores(m: Limits, rules: seq<Rule>, evidence: Evidence, total: Num, open: Num, potential: Num)
    requires AllShaped(rules)
  {
    && AddsUp(Weighing(Those(m, rules, evidence, Matched)), total)
    && AddsUp(Weighing(Those(m, rules, evidence, Unknown)), open)
    && CorrectlyRounded(Amount(total) + Amount(open), potential)
  }

  /** The outcome of a run that comes to such scores: a report, if all that it shows is within the limits. */
  ghost predicate ComesTo(m: Limits, rules: seq<Rule>, evidence: Evidence, threshold: Num, r: Result<Evaluation>,
                          total: Num, open: Num, potential: Num)
    requires AllShaped(rules)
  {
    && Scores(m, rules, evidence, total, open, potential)
    && if InLimits(potential) && InLimits(total) && InLimits(Canonical(threshold)) then
         r.Ok? && r.value.total == total && Reports(m, rules, evidence, threshold, r.value, potential)
       else r == Raises(ResourceLimit)
  }

  /** The outcome of a ruleset that runs to its end: every rule says one thing and is listed under that
      and under nothing else, and the status follows from the rounded scores of those that match and of
      those that are missing. */
  lemma {:induction false} ReportMeans(m: Limits, rules: seq<Rule>, evidence: Evidence, threshold: Num)
    requires AllShaped(rules) && Registered(evidence) && Ran(m, rules, evidence).Ok?
    ensures forall i :: 0 <= i < |rules| ==> Answers(m, rules[i], evidence)
    ensures var r := Concluded(rules, Ran(m, rules, evidence).value, threshold);
            exists total: Num, open: Num, potential: Num ::
              ComesTo(m, rules, evidence, threshold, r, total, open, potential)
  {
    hide Meaning, Evaluate, Decimals.Value, CorrectlyRounded, Canonical, InLimits, Plus, Those, AddsUp, Ran, Ids, Says,
         Shaped;
    RunFinds(m, rules, evidence);
    var p := Ran(m, rules, evidence).value;
    forall i | 0 <= i < |rules| ensures Answers(m, rules[i], evidence) {
      assert Says(m, rules[i], evidence, p.verdicts[i]);
    }
    SumIsCorrect(p.total, p.missing);
    CanonicalKeepsAmount(Plus(p.total, p.missing));
    assert ComesTo(m, rules, evidence, threshold, Concluded(rules, p, threshold), p.total, p.missing,
                   Plus(p.total, p.missing));
  }

  /** A score that one more weight takes beyond the limits. */
  ghost predicate Outgrows(xs: seq<Num>, x: Num, before: Num, beyond: Num) {
    AddsUp(xs, before) && CorrectlyRounded(Amount(before) + Amount(x), beyond) && !InLimits(beyond)
  }

  /** Why a run ends at a rule: there is no budget left, which a ruleset of few nodes never meets; the
      rule denotes a failure, or no truth value; or its weight takes a score beyond the limits. */
  ghost predicate EndsAt(m: Limits, rules: seq<Rule>, evidence: Evidence, n: nat, f: Failure)
    requires AllShaped(rules)
  {
    && n < |rules|
    && (forall i :: 0 <= i < n ==> Answers(m, rules[i], evidence))
    && (|| (f == BudgetExhausted && TotalSize(rules) > MAX_STEPS)
        || Meaning(m, rules[n].expression, evidence) == Raises(f)
        || (f == KindGuard && !Answers(m, rules[n], evidence))
        || (f == ResourceLimit && exists which, before: Num, beyond: Num ::
              && which != Failed && Says(m, rules[n], evidence, which)
              && Outgrows(Weighing(Those(m, rules[..n], evidence, which)), rules[n].weight, before, beyond)))
  }

  /** A ruleset fails only so. */
  lemma {:induction false} FailureMeans(m: Limits, rules: seq<Rule>, evidence: Evidence)
    requires AllShaped(rules) && Registered(evidence) && Ran(m, rules, evidence).Raises?
    ensures exists n: nat :: EndsAt(m, rules, evidence, n, Ran(m, rules, evidence).failure)
    decreases |rules|
  {
    hide Meaning, Evaluate, CorrectlyRounded, AddScores, Shaped, Says, Those, Size, AddsUp, InLimits;
    if rules != [] {
      var n, f := |rules| - 1, Ran(m, rules, evidence).failure;
      var before := Ran(m, rules[..n], evidence);
      if before.Raises? {
        FailureMeans(m, rules[..n], evidence);
        var i: nat :| EndsAt(m, rules[..n], evidence, i, f);
        assert rules[..n][..i] == rules[..i];
        assert EndsAt(m, rules, evidence, i, f);
      } else {
        RunFinds(m, rules[..n], evidence);
        LastEnds(m, rules, evidence, before.value);
        assert EndsAt(m, rules, evidence, n, f);
      }
    }
  }

  lemma {:induction false} LastEnds(m: Limits, rules: seq<Rule>, evidence: Evidence, p: Progress)
    requires AllShaped(rules) && Registered(evidence) && rules != [] && |p.verdicts| == |rules| - 1
    requires Ran(m, rules[..|rules| - 1], evidence) == RuleEvaluator.Ok(p)
    requires Finds(m, rules[..|rules| - 1], evidence, p) && Ran(m, rules, evidence).Raises?
    ensures EndsAt(m, rules, evidence, |rules| - 1, Ran(m, rules, evidence).failure)
  {
    hide Meaning, Evaluate, CorrectlyRounded, Shaped, Those, Size, AddsUp, InLimits, Canonical, Plus, Decimals.Value;
    var n, rule := |rules| - 1, rules[|rules| - 1];
    forall i | 0 <= i < n ensures Answers(m, rules[i], evidence) {
      assert rules[..n][i] == rules[i] && Says(m, rules[..n][i], evidence, p.verdicts[i]);
    }
    EvaluationMeans(m, rule.expression, evidence, p.budget);
    if TotalSize(rules) <= MAX_STEPS { BudgetLasts(m, rules, evidence); }
    var judged := Judged(m, rule, evidence, p.budget);
    if judged.Ok? {
      assert Says(m, rule, evidence, judged.value);
      var score := if judged.value == Matched then p.total else p.missing;
      SumIsCorrect(score, rule.weight);
      assert Outgrows(Weighing(Those(m, rules[..n], evidence, judged.value)), rule.weight, score,
                      Plus(score, rule.weight));
    }
  }

  lemma {:induction false} AcceptableIsShaped(e: Expr)
    requires Sound(e)
    ensures Shaped(e)
    decreases e
  {
    hide KindFor, OperatorKind, InLimits;
    if e.Operation? {
      forall i | 0 <= i < |e.operands| ensures Shaped(e.operands[i]) { AcceptableIsShaped(e.operands[i]); }
    }
  }
}
