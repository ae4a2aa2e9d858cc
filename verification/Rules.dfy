/** The rule language: typed expressions, the operator rules, constant folding, the parser and the
    iterative re-validation of an expression. */
module Rules {
  import opened StateMachine
  import opened DecimalContext
  import opened RuleNumbers

  datatype Kind = BOOLEAN | DECIMAL | DATETIME | STRING | NULL

  datatype Scalar = Flag(flag: bool) | Number(number: Num) | Instant(at: int) | Text(text: string) | Nothing

  datatype Operator =
    | And | Or | Not | Eq | Ne | Lt | Lte | Gt | Gte | Add | Subtract | Multiply | Divide | In | Exists | If

  datatype Expr =
    | Literal(kind: Kind, value: Scalar)
    | Path(path: string, kind: Kind)
    | Operation(operator: Operator, operands: seq<Expr>, kind: Kind)

  const MAX_DEPTH: nat := 16
  const MAX_NODES: nat := 128
  const MAX_RULESET_NODES: nat := 512

  // Registered evidence

  function KindFor(path: string): Option<Kind> {
    if path in {"source.last_price", "source.same_time_volume_ratio", "source.session_vwap",
                "market.data_quality.confidence"} then Some(DECIMAL)
    else if path in {"source.last_price_as_of", "market.data_quality.source_timestamp"} then Some(DATETIME)
    else if path in {"market.data_quality.bars_complete", "market.data_quality.stale", "market.is_actionable"} then
      Some(BOOLEAN)
    else if path in {"market.provider", "market.snapshot_id"} then Some(STRING)
    else None
  }

  function KindOf(s: Scalar): Kind {
    match s
    case Flag(_) => BOOLEAN
    case Number(_) => DECIMAL
    case Instant(_) => DATETIME
    case Text(_) => STRING
    case Nothing => NULL
  }

  // Operators

  predicate AllOf(operands: seq<Expr>, kind: Kind) {
    forall i :: 0 <= i < |operands| ==> operands[i].kind == kind
  }

  /** The kind of an operation's result, or None where the operands do not fit the operator. */
  function OperatorKind(operator: Operator, operands: seq<Expr>): Option<Kind> {
    var n := |operands|;
    match operator
    case And => if n >= 1 && AllOf(operands, BOOLEAN) then Some(BOOLEAN) else None
    case Or => if n >= 1 && AllOf(operands, BOOLEAN) then Some(BOOLEAN) else None
    case Not => if n == 1 && AllOf(operands, BOOLEAN) then Some(BOOLEAN) else None
    case Eq => if n == 2 && operands[0].kind == operands[1].kind then Some(BOOLEAN) else None
    case Ne => if n == 2 && operands[0].kind == operands[1].kind then Some(BOOLEAN) else None
    case Lt => if Comparable(operands) then Some(BOOLEAN) else None
    case Lte => if Comparable(operands) then Some(BOOLEAN) else None
    case Gt => if Comparable(operands) then Some(BOOLEAN) else None
    case Gte => if Comparable(operands) then Some(BOOLEAN) else None
    case Add => if n >= 2 && AllOf(operands, DECIMAL) then Some(DECIMAL) else None
    case Multiply => if n >= 2 && AllOf(operands, DECIMAL) then Some(DECIMAL) else None
    case Subtract => if n == 2 && AllOf(operands, DECIMAL) then Some(DECIMAL) else None
    case Divide =>
      if n == 2 && AllOf(operands, DECIMAL) && MayDivide(StaticDecimal(operands[1])) then Some(DECIMAL) else None
    case In => if n == 2 && AllOf(operands, STRING) then Some(BOOLEAN) else None
    case Exists => if n == 1 then Some(BOOLEAN) else None
    case If =>
      if n == 3 && operands[0].kind == BOOLEAN && operands[1].kind == operands[2].kind then Some(operands[1].kind)
      else None
  }

  predicate Comparable(operands: seq<Expr>) {
    |operands| == 2 && operands[0].kind == operands[1].kind && operands[0].kind in {DECIMAL, DATETIME}
  }

  /** What folding an expression tells: nothing, as it may depend on evidence; its value; or that it
      raises, because an intermediate number is beyond the limits. */
  datatype Folded<+T> = Open | Static(value: T) | Overflows

  /** A denominator that is not known to be zero and whose folding does not raise. */
  predicate MayDivide(denominator: Folded<Num>) {
    match denominator
    case Open => true
    case Static(n) => n.coefficient != 0
    case Overflows => false
  }

  function StaticDecimal(e: Expr): Folded<Num>
    decreases e
  {
    match e
    case Literal(kind, value) => if kind == DECIMAL && value.Number? then Static(value.number) else Open
    case Path(_, _) => Open
    case Operation(operator, operands, kind) =>
      if kind != DECIMAL then Open
      else
        match StaticDecimals(operands)
        case Open => Open
        case Overflows => Overflows
        case Static(values) => StaticResult(operator, values)
  }

  /** Every operand is folded, so one that raises is never hidden by an open one. */
  function StaticDecimals(operands: seq<Expr>): (r: Folded<seq<Num>>)
    ensures r.Static? ==> |r.value| == |operands|
    decreases operands
  {
    if operands == [] then Static([])
    else
      match (StaticDecimal(operands[0]), StaticDecimals(operands[1..]))
      case (Overflows, _) => Overflows
      case (_, Overflows) => Overflows
      case (Static(first), Static(rest)) => Static([first] + rest)
      case _ => Open
  }

  /** The result of an arithmetic operator in the 28-digit context, or None where it has none. */
  function Computed(operator: Operator, values: seq<Num>): Option<Num> {
    match operator
    case Add => Some(SumOf(values))
    case Multiply => Some(ProductOf(values))
    case Subtract => if |values| < 2 then None else Some(Minus(values[0], values[1]))
    case Divide =>
      if |values| < 2 || values[1].coefficient == 0 then None else Some(Quotient(values[0], values[1]))
    case _ => None
  }

  function StaticResult(operator: Operator, values: seq<Num>): Folded<Num> {
    match Computed(operator, values)
    case None => Open
    case Some(n) => if InLimits(n) then Static(Canonical(n)) else Overflows
  }

  // Typed expressions

  /** What the parser guarantees of an expression. */
  predicate Typed(e: Expr)
    decreases e
  {
    match e
    case Literal(kind, value) => kind == KindOf(value) && (value.Number? ==> IsCanonical(value.number))
    case Path(path, kind) => KindFor(path) == Some(kind)
    case Operation(operator, operands, kind) =>
      OperatorKind(operator, operands) == Some(kind) && AllTyped(operands)
  }

  predicate AllTyped(operands: seq<Expr>)
    decreases operands
  {
    operands == [] || (Typed(operands[0]) && AllTyped(operands[1..]))
  }

  function Size(e: Expr): (n: nat)
    ensures n > 0
    decreases e
  {
    if e.Operation? then 1 + Sizes(e.operands) else 1
  }

  function Sizes(operands: seq<Expr>): nat
    decreases operands
  {
    if operands == [] then 0 else Size(operands[0]) + Sizes(operands[1..])
  }

  function Depth(e: Expr): (n: nat)
    ensures n > 0
    decreases e
  {
    if e.Operation? then 1 + Depths(e.operands) else 1
  }

  function Depths(operands: seq<Expr>): nat
    decreases operands
  {
    if operands == [] then 0
    else
      var first, rest := Depth(operands[0]), Depths(operands[1..]);
      if first > rest then first else rest
  }

  // Parsing

  datatype Raw = RawNull | RawFlag(flag: bool) | RawText(text: string) | RawNumber(number: Num)
               | RawVar(path: string) | RawOperation(operator: Operator, operands: seq<Raw>) | RawOther

  /** Parses one expression, having consumed so many nodes; the result carries the new count. */
  function Parse(raw: Raw, consumed: nat, depth: nat): (r: Option<(Expr, nat)>)
    ensures r.Some? ==>
              && Typed(r.value.0)
              && r.value.1 == consumed + Size(r.value.0) <= MAX_NODES
              && depth + Depth(r.value.0) <= MAX_DEPTH + 1
    decreases raw
  {
    if depth > MAX_DEPTH || consumed + 1 > MAX_NODES then None
    else match raw
      case RawNull => Some((Literal(NULL, Nothing), consumed + 1))
      case RawFlag(flag) => Some((Literal(BOOLEAN, Flag(flag)), consumed + 1))
      case RawText(text) => Some((Literal(STRING, Text(text)), consumed + 1))
      case RawNumber(number) =>
        var canonical := CanonicalNumber(number);
        CanonicalTwice(number);
        if canonical.None? then None else Some((Literal(DECIMAL, Number(canonical.value)), consumed + 1))
      case RawVar(path) =>
        var kind := KindFor(path);
        if kind.None? then None else Some((Path(path, kind.value), consumed + 1))
      case RawOperation(operator, operands) =>
        if !(1 <= |operands| <= 32) then None
        else
          var parsed := ParseAll(operands, consumed + 1, depth + 1);
          if parsed.None? then None
          else
            var kind := OperatorKind(operator, parsed.value.0);
            if kind.None? then None else Some((Operation(operator, parsed.value.0, kind.value), parsed.value.1))
      case RawOther => None
  }

  function ParseAll(raws: seq<Raw>, consumed: nat, depth: nat): (r: Option<(seq<Expr>, nat)>)
    requires consumed <= MAX_NODES
    ensures r.Some? ==>
              && |r.value.0| == |raws|
              && AllTyped(r.value.0)
              && r.value.1 == consumed + Sizes(r.value.0) <= MAX_NODES
              && (raws != [] ==> depth + Depths(r.value.0) <= MAX_DEPTH + 1)
    decreases raws
  {
    if raws == [] then Some(([], consumed))
    else
      var first := Parse(raws[0], consumed, depth);
      if first.None? then None
      else
        var rest := ParseAll(raws[1..], first.value.1, depth);
        if rest.None? then None
        else
          assert ([first.value.0] + rest.value.0)[1..] == rest.value.0;
          Some(([first.value.0] + rest.value.0, rest.value.1))
  }
}
