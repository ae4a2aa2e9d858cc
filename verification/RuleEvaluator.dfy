/** Evaluation of typed expressions against partial evidence, and of whole rulesets. */
module RuleEvaluator {
  import opened StateMachine
  import opened RuleNumbers
  import opened Rules

  datatype Value = Present(kind: Kind, scalar: Scalar) | Missing(kind: Kind)

  datatype Failure = BudgetExhausted | NullMissing | DivisionByZero | ResourceLimit | KindGuard

  datatype Result<+T> = Ok(value: T) | Raises(failure: Failure)

  type Evidence = map<string, Value>

  /** Which texts are short enough for evidence. */
  datatype Limits = Limits(fits: string -> bool)

  // Building values

  function MissingOf(kind: Kind): Result<Value> {
    if kind == NULL then Raises(NullMissing) else Ok(Missing(kind))
  }

  /** A present value: a number in its canonical form, and only within the limits. */
  function PresentOf(m: Limits, s: Scalar): Result<Value> {
    match s
    case Number(n) =>
      var canonical := CanonicalNumber(n);
      if canonical.None? then Raises(ResourceLimit) else Ok(Present(DECIMAL, Number(canonical.value)))
    case Text(text) => if m.fits(text) then Ok(Present(STRING, s)) else Raises(ResourceLimit)
    case _ => Ok(Present(KindOf(s), s))
  }

  function LiteralOf(m: Limits, kind: Kind, s: Scalar): Result<Value> {
    if kind != KindOf(s) then Raises(KindGuard) else PresentOf(m, s)
  }

  // Operators on present values

  function Conjunction(operands: seq<Value>): Result<bool> {
    if operands == [] then Ok(true)
    else if !operands[0].Present? || !operands[0].scalar.Flag? then Raises(KindGuard)
    else if !operands[0].scalar.flag then Ok(false)
    else Conjunction(operands[1..])
  }

  function Disjunction(operands: seq<Value>): Result<bool> {
    if operands == [] then Ok(false)
    else if !operands[0].Present? || !operands[0].scalar.Flag? then Raises(KindGuard)
    else if operands[0].scalar.flag then Ok(true)
    else Disjunction(operands[1..])
  }

  function Numbers(operands: seq<Value>): Result<seq<Num>> {
    if operands == [] then Ok([])
    else if !operands[0].Present? || !operands[0].scalar.Number? then Raises(KindGuard)
    else
      match Numbers(operands[1..])
      case Raises(f) => Raises(f)
      case Ok(rest) => Ok([operands[0].scalar.number] + rest)
  }

  predicate StandsAt(part: string, whole: string, i: nat)
    requires i + |part| <= |whole|
  {
    whole[i..i + |part|] == part
  }

  predicate Substring(part: string, whole: string) {
    exists i :: 0 <= i <= |whole| - |part| && StandsAt(part, whole, i)
  }

  predicate Ordered(operator: Operator, x: real, y: real) {
    match operator case Lt => x < y case Lte => x <= y case Gt => x > y case _ => x >= y
  }

  /** Numbers are equal as numbers, whatever their scale. */
  predicate SameScalar(a: Scalar, b: Scalar) {
    if a.Number? && b.Number? then Amount(a.number) == Amount(b.number) else a == b
  }

  function Compare(operator: Operator, operands: seq<Value>): Result<bool> {
    if |operands| != 2 || !operands[0].Present? || !operands[1].Present? then Raises(KindGuard)
    else
      match (operands[0].scalar, operands[1].scalar)
      case (Number(x), Number(y)) =>
        Ok(Ordered(operator, Amount(x), Amount(y)))
      case (Instant(x), Instant(y)) =>
        Ok(Ordered(operator, x as real, y as real))
      case _ => Raises(KindGuard)
  }

  /** The canonical result of an arithmetic operator. */
  function Calculated(operator: Operator, values: seq<Num>): Result<Scalar> {
    if operator == Divide && |values| >= 2 && values[1].coefficient == 0 then Raises(DivisionByZero)
    else
      match Computed(operator, values)
      case None => Raises(KindGuard)
      case Some(n) => if InLimits(n) then Ok(Number(Canonical(n))) else Raises(ResourceLimit)
  }

  function Truth(r: Result<bool>): Result<Scalar> {
    match r
    case Ok(b) => Ok(Flag(b))
    case Raises(f) => Raises(f)
  }

  /** An operator other than `exists` and `if` on operands that are all present. */
  function Applied(operator: Operator, operands: seq<Value>): Result<Scalar> {
    match operator
    case And => Truth(Conjunction(operands))
    case Or => Truth(Disjunction(operands))
    case Not =>
      if |operands| < 1 || !operands[0].Present? || !operands[0].scalar.Flag? then Raises(KindGuard)
      else Ok(Flag(!operands[0].scalar.flag))
    case Eq =>
      if |operands| < 2 || !operands[0].Present? || !operands[1].Present? then Raises(KindGuard)
      else Ok(Flag(SameScalar(operands[0].scalar, operands[1].scalar)))
    case Ne =>
      if |operands| < 2 || !operands[0].Present? || !operands[1].Present? then Raises(KindGuard)
      else Ok(Flag(!SameScalar(operands[0].scalar, operands[1].scalar)))
    case In =>
      if |operands| < 2 || !operands[0].Present? || !operands[1].Present?
         || !operands[0].scalar.Text? || !operands[1].scalar.Text? then Raises(KindGuard)
      else Ok(Flag(Substring(operands[0].scalar.text, operands[1].scalar.text)))
    case Lt => Truth(Compare(operator, operands))
    case Lte => Truth(Compare(operator, operands))
    case Gt => Truth(Compare(operator, operands))
    case Gte => Truth(Compare(operator, operands))
    case _ =>
      match Numbers(operands)
      case Raises(f) => Raises(f)
      case Ok(values) => Calculated(operator, values)
  }

  predicate AnyMissing(operands: seq<Value>) {
    exists i :: 0 <= i < |operands| && operands[i].Missing?
  }

  function Operated(m: Limits, operator: Operator, kind: Kind, operands: seq<Value>): Result<Value> {
    if operator == Exists then
      if |operands| < 1 then Raises(KindGuard) else PresentOf(m, Flag(!operands[0].Missing?))
    else if AnyMissing(operands) then MissingOf(kind)
    else
      match Applied(operator, operands)
      case Raises(f) => Raises(f)
      case Ok(s) => PresentOf(m, s)
  }

  // Evaluation

  /** The value of an expression, and the budget left; every node visited costs one step. */
  function Evaluate(m: Limits, e: Expr, evidence: Evidence, budget: int): (r: (Result<Value>, int))
    ensures r.1 <= budget - 1
    decreases e
  {
    if budget - 1 < 0 then (Raises(BudgetExhausted), budget - 1)
    else match e
      case Literal(kind, s) => (LiteralOf(m, kind, s), budget - 1)
      case Path(path, kind) => (if path in evidence then Ok(evidence[path]) else MissingOf(kind), budget - 1)
      case Operation(operator, operands, kind) =>
        if operator == If then
          if |operands| < 3 then (Raises(KindGuard), budget - 1)
          else
            var (condition, left) := Evaluate(m, operands[0], evidence, budget - 1);
            if condition.Raises? then (condition, left)
            else if condition.value.Missing? then (MissingOf(kind), left)
            else if !condition.value.scalar.Flag? then (Raises(KindGuard), left)
            else Evaluate(m, if condition.value.scalar.flag then operands[1] else operands[2], evidence, left)
        else
          var (values, left) := EvaluateAll(m, operands, evidence, budget - 1);
          (match values
           case Raises(f) => Raises(f)
           case Ok(vs) => Operated(m, operator, kind, vs), left)
  }

  function EvaluateAll(m: Limits, es: seq<Expr>, evidence: Evidence, budget: int): (r: (Result<seq<Value>>, int))
    ensures r.1 <= budget
    ensures r.0.Ok? ==> |r.0.value| == |es|
    decreases es
  {
    if es == [] then (Ok([]), budget)
    else
      var (first, left) := Evaluate(m, es[0], evidence, budget);
      match first
      case Raises(f) => (Raises(f), left)
      case Ok(v) =>
        var (rest, end) := EvaluateAll(m, es[1..], evidence, left);
        (match rest case Raises(f) => Raises(f) case Ok(vs) => Ok([v] + vs), end)
  }

  // Evidence

  /** A value of the kind it claims; a missing value is never of the null kind. */
  predicate WellFormed(v: Value) {
    match v
    case Present(kind, s) => kind == KindOf(s)
    case Missing(kind) => kind != NULL
  }

  predicate Registered(evidence: Evidence) {
    forall path :: path in evidence ==> WellFormed(evidence[path]) && Some(evidence[path].kind) == KindFor(path)
  }

  /** More evidence of the same facts. */
  predicate Extends(more: Evidence, evidence: Evidence) {
    forall path :: path in evidence && evidence[path].Present? ==> path in more && more[path] == evidence[path]
  }

  // Kinds

  predicate AllOfKind(values: seq<Value>, es: seq<Expr>) {
    |values| == |es| && forall i :: 0 <= i < |es| ==> WellFormed(values[i]) && values[i].kind == es[i].kind
  }

  predicate HasNullIf(e: Expr)
    decreases e
  {
    e.Operation? && ((e.operator == If && e.kind == NULL) || AnyNullIf(e.operands))
  }

  predicate AnyNullIf(es: seq<Expr>)
    decreases es
  {
    es != [] && (HasNullIf(es[0]) || AnyNullIf(es[1..]))
  }

  /** Of typed expressions on registered evidence: a value has the kind the parser assigned, no
      guard on an operand's kind ever fires, and a missing null raises only under a null `if`. */
  lemma {:induction false} KindsAreSound(m: Limits, e: Expr, evidence: Evidence, budget: int)
    requires Typed(e) && Registered(evidence)
    ensures var r := Evaluate(m, e, evidence, budget).0;
            && (r.Ok? ==> WellFormed(r.value) && r.value.kind == e.kind)
            && r != Raises(KindGuard)
            && (r == Raises(NullMissing) ==> HasNullIf(e))
    decreases e
  {
    hide StaticDecimal, KindFor, Operated, CanonicalNumber;
    if e.Path? {
      PathsAreNotNull(e.path);
    } else if e.Operation? && budget >= 1 {
      if e.operator == If {
        OperandsOfIf(e);
        KindsAreSound(m, e.operands[0], evidence, budget - 1);
        var (condition, left) := Evaluate(m, e.operands[0], evidence, budget - 1);
        KindsAreSound(m, e.operands[1], evidence, left);
        KindsAreSound(m, e.operands[2], evidence, left);
      } else {
        OperandKindsAreSound(m, e.operands, evidence, budget - 1);
        var values := EvaluateAll(m, e.operands, evidence, budget - 1).0;
        if values.Ok? {
          OperationIsSound(m, e, values.value);
        }
      }
    }
  }

  lemma PathsAreNotNull(path: string)
    ensures KindFor(path) != Some(NULL)
  {
  }

  lemma {:induction false} OperandsOfIf(e: Expr)
    requires Typed(e) && e.Operation? && e.operator == If
    ensures |e.operands| == 3
    ensures forall i :: 0 <= i < 3 ==> Typed(e.operands[i]) && (HasNullIf(e.operands[i]) ==> HasNullIf(e))
    ensures e.operands[0].kind == BOOLEAN && e.operands[1].kind == e.operands[2].kind == e.kind
  {
    hide StaticDecimal, KindFor;
    var tail := e.operands[1..];
    assert AllTyped(tail) && AllTyped(tail[1..]) && tail[1..][0] == e.operands[2] && tail[0] == e.operands[1];
    assert AnyNullIf(tail) ==> AnyNullIf(e.operands);
    assert AnyNullIf(tail[1..]) ==> AnyNullIf(tail);
  }

  lemma {:induction false} OperandKindsAreSound(m: Limits, es: seq<Expr>, evidence: Evidence, budget: int)
    requires AllTyped(es) && Registered(evidence)
    ensures var r := EvaluateAll(m, es, evidence, budget).0;
            && (r.Ok? ==> AllOfKind(r.value, es))
            && r != Raises(KindGuard)
            && (r == Raises(NullMissing) ==> AnyNullIf(es))
    decreases es
  {
    hide StaticDecimal, KindFor, OperatorKind;
    if es != [] {
      KindsAreSound(m, es[0], evidence, budget);
      OperandKindsAreSound(m, es[1..], evidence, Evaluate(m, es[0], evidence, budget).1);
    }
  }

  lemma {:induction false} OperationIsSound(m: Limits, e: Expr, values: seq<Value>)
    requires e.Operation? && OperatorKind(e.operator, e.operands) == Some(e.kind)
    requires e.operator != If && AllOfKind(values, e.operands)
    ensures var r := Operated(m, e.operator, e.kind, values);
            && (r.Ok? ==> WellFormed(r.value) && r.value.kind == e.kind)
            && r != Raises(KindGuard) && r != Raises(NullMissing)
  {
    hide StaticDecimal, KindFor;
    if !AnyMissing(values) {
      match e.operator {
        case And => FlagsAreSound(values);
        case Or => FlagsAreSound(values);
        case Add => NumbersAreSound(values);
        case Subtract => NumbersAreSound(values);
        case Multiply => NumbersAreSound(values);
        case Divide => NumbersAreSound(values);
        case _ =>
      }
    }
  }

  lemma {:induction false} FlagsAreSound(values: seq<Value>)
    requires forall i :: 0 <= i < |values| ==> values[i].Present? && values[i].scalar.Flag?
    ensures Conjunction(values).Ok? && Disjunction(values).Ok?
  {
    if values != [] { FlagsAreSound(values[1..]); }
  }

  lemma {:induction false} NumbersAreSound(values: seq<Value>)
    requires forall i :: 0 <= i < |values| ==> values[i].Present? && values[i].scalar.Number?
    ensures Numbers(values).Ok? && |Numbers(values).value| == |values|
    ensures forall i :: 0 <= i < |values| ==> Numbers(values).value[i] == values[i].scalar.number
  {
    if values != [] { NumbersAreSound(values[1..]); }
  }

  // Budget

  /** A budget of one step per node is enough, and no more than that is used. */
  lemma {:induction false} BudgetSuffices(m: Limits, e: Expr, evidence: Evidence, budget: int)
    requires budget >= Size(e)
    ensures var (r, left) := Evaluate(m, e, evidence, budget); r != Raises(BudgetExhausted) && left >= budget - Size(e)
    decreases e
  {
    if e.Operation? {
      if e.operator == If {
        if |e.operands| >= 3 {
          SizeOfThree(e.operands);
          BudgetSuffices(m, e.operands[0], evidence, budget - 1);
          var (condition, left) := Evaluate(m, e.operands[0], evidence, budget - 1);
          BudgetSuffices(m, e.operands[1], evidence, left);
          BudgetSuffices(m, e.operands[2], evidence, left);
        }
      } else {
        BudgetSufficesAll(m, e.operands, evidence, budget - 1);
        var values := EvaluateAll(m, e.operands, evidence, budget - 1).0;
        if values.Ok? { OperatorsNeedNoBudget(m, e.operator, e.kind, values.value); }
      }
    }
  }

  lemma {:induction false} SizeOfThree(es: seq<Expr>)
    requires |es| >= 3
    ensures Sizes(es) >= Size(es[0]) + Size(es[1]) + Size(es[2])
  {
    var tail := es[1..];
    var last := tail[1..];
    assert Sizes(es) == Size(es[0]) + Sizes(tail) && tail[0] == es[1];
    assert Sizes(tail) == Size(tail[0]) + Sizes(last) && last[0] == es[2];
  }

  lemma {:induction false} BudgetSufficesAll(m: Limits, es: seq<Expr>, evidence: Evidence, budget: int)
    requires budget >= Sizes(es)
    ensures var (r, left) := EvaluateAll(m, es, evidence, budget);
            r != Raises(BudgetExhausted) && left >= budget - Sizes(es)
    decreases es
  {
    if es != [] {
      BudgetSuffices(m, es[0], evidence, budget);
      BudgetSufficesAll(m, es[1..], evidence, Evaluate(m, es[0], evidence, budget).1);
    }
  }

  lemma {:induction false} OperatorsNeedNoBudget(m: Limits, operator: Operator, kind: Kind, values: seq<Value>)
    ensures Operated(m, operator, kind, values) != Raises(BudgetExhausted)
  {
    FailuresOfScans(values);
  }

  lemma {:induction false} FailuresOfScans(values: seq<Value>)
    ensures Conjunction(values).Raises? ==> Conjunction(values).failure == KindGuard
    ensures Disjunction(values).Raises? ==> Disjunction(values).failure == KindGuard
    ensures Numbers(values).Raises? ==> Numbers(values).failure == KindGuard
  {
    if values != [] { FailuresOfScans(values[1..]); }
  }

  // Folding

  /** Where folding tells a value, evaluation that succeeds yields that value, on any evidence. */
  lemma {:induction false} FoldingAgrees(m: Limits, e: Expr, evidence: Evidence, budget: int)
    requires Typed(e) && StaticDecimal(e).Static? && Evaluate(m, e, evidence, budget).0.Ok?
    ensures Evaluate(m, e, evidence, budget).0.value == Present(DECIMAL, Number(StaticDecimal(e).value))
    decreases e
  {
    hide KindFor, Canonical, InLimits, Computed, Operated;
    match e
    case Operation(operator, operands, kind) =>
      FoldingAgreesAll(m, operands, evidence, budget - 1);
      var values := EvaluateAll(m, operands, evidence, budget - 1).0.value;
      ResultAgrees(m, operator, kind, values, StaticDecimals(operands).value);
    case _ =>
  }

  lemma {:induction false} ResultAgrees(m: Limits, operator: Operator, kind: Kind, values: seq<Value>,
                                        numbers: seq<Num>)
    requires !AnyMissing(values) && Numbers(values) == Ok(numbers)
    requires StaticResult(operator, numbers).Static? && Operated(m, operator, kind, values).Ok?
    ensures Operated(m, operator, kind, values).value
            == Present(DECIMAL, Number(StaticResult(operator, numbers).value))
  {
    hide Canonical, InLimits;
    CanonicalTwice(Computed(operator, numbers).value);
  }

  lemma {:induction false} FoldingAgreesAll(m: Limits, es: seq<Expr>, evidence: Evidence, budget: int)
    requires AllTyped(es) && StaticDecimals(es).Static? && EvaluateAll(m, es, evidence, budget).0.Ok?
    ensures var values := EvaluateAll(m, es, evidence, budget).0.value;
            !AnyMissing(values) && Numbers(values) == Ok(StaticDecimals(es).value)
    decreases es
  {
    hide KindFor;
    if es != [] {
      FoldingAgrees(m, es[0], evidence, budget);
      var left := Evaluate(m, es[0], evidence, budget).1;
      FoldingAgreesAll(m, es[1..], evidence, left);
      var rest := EvaluateAll(m, es[1..], evidence, left).0.value;
      var values := EvaluateAll(m, es, evidence, budget).0.value;
      assert values[1..] == rest;
      forall i | 0 <= i < |values| ensures !values[i].Missing? {
        if i > 0 { assert values[i] == rest[i - 1]; }
      }
    }
  }

  // More evidence

  predicate ExistsFree(e: Expr)
    decreases e
  {
    e.Operation? ==> e.operator != Exists && AllExistsFree(e.operands)
  }

  predicate AllExistsFree(es: seq<Expr>)
    decreases es
  {
    es == [] || (ExistsFree(es[0]) && AllExistsFree(es[1..]))
  }

  /** Without `exists`, a value found on partial evidence is the value on every extension of that
      evidence on which evaluation succeeds. */
  lemma {:induction false} ValuesPersist(m: Limits, e: Expr, evidence: Evidence, more: Evidence, b: int, c: int)
    requires ExistsFree(e) && Extends(more, evidence)
    requires Evaluate(m, e, evidence, b).0.Ok? && Evaluate(m, e, evidence, b).0.value.Present?
    requires Evaluate(m, e, more, c).0.Ok?
    ensures Evaluate(m, e, more, c).0.value == Evaluate(m, e, evidence, b).0.value
    decreases e
  {
    if e.Operation? {
      if e.operator == If {
        FreeOperands(e.operands);
        ValuesPersist(m, e.operands[0], evidence, more, b - 1, c - 1);
        var (condition, left) := Evaluate(m, e.operands[0], evidence, b - 1);
        var (again, rest) := Evaluate(m, e.operands[0], more, c - 1);
        var branch := if condition.value.scalar.flag then e.operands[1] else e.operands[2];
        ValuesPersist(m, branch, evidence, more, left, rest);
      } else {
        ValuesPersistAll(m, e.operands, evidence, more, b - 1, c - 1);
      }
    }
  }

  lemma {:induction false} FreeOperands(es: seq<Expr>)
    requires AllExistsFree(es) && |es| >= 3
    ensures ExistsFree(es[0]) && ExistsFree(es[1]) && ExistsFree(es[2])
  {
    var tail := es[1..];
    var last := tail[1..];
    assert AllExistsFree(tail) && tail[0] == es[1];
    assert AllExistsFree(last) && last[0] == es[2];
  }

  lemma {:induction false} ValuesPersistAll(m: Limits, es: seq<Expr>, evidence: Evidence, more: Evidence, b: int,
                                            c: int)
    requires AllExistsFree(es) && Extends(more, evidence)
    requires EvaluateAll(m, es, evidence, b).0.Ok? && !AnyMissing(EvaluateAll(m, es, evidence, b).0.value)
    requires EvaluateAll(m, es, more, c).0.Ok?
    ensures EvaluateAll(m, es, more, c).0.value == EvaluateAll(m, es, evidence, b).0.value
    decreases es
  {
    if es != [] {
      var values := EvaluateAll(m, es, evidence, b).0.value;
      var (first, left) := Evaluate(m, es[0], evidence, b);
      var (again, rest) := Evaluate(m, es[0], more, c);
      assert values[0] == first.value && values[0].Present?;
      ValuesPersist(m, es[0], evidence, more, b, c);
      var tail := EvaluateAll(m, es[1..], evidence, left).0.value;
      assert values[1..] == tail;
      assert !AnyMissing(tail) by {
        forall i | 0 <= i < |tail| ensures tail[i].Present? { assert tail[i] == values[i + 1]; }
      }
      ValuesPersistAll(m, es[1..], evidence, more, left, rest);
    }
  }
}
