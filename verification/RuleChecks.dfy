/** The parser against a printer, and the iterative walks over an expression against recursion. */
module RuleChecks {
  import Decimals
  import opened StateMachine
  import opened RuleNumbers
  import opened Rules

  // Printing

  /** The transport form of an expression. */
  function Render(e: Expr): Raw
    decreases e
  {
    match e
    case Literal(_, Nothing) => RawNull
    case Literal(_, Flag(flag)) => RawFlag(flag)
    case Literal(_, Text(text)) => RawText(text)
    case Literal(_, Number(number)) => RawNumber(number)
    case Literal(_, Instant(_)) => RawOther
    case Path(path, _) => RawVar(path)
    case Operation(operator, operands, _) => RawOperation(operator, RenderAll(operands))
  }

  function RenderAll(operands: seq<Expr>): (r: seq<Raw>)
    ensures |r| == |operands|
    decreases operands
  {
    if operands == [] then [] else [Render(operands[0])] + RenderAll(operands[1..])
  }

  /** The input with every number in its canonical form. */
  function Normal(raw: Raw): Raw
    decreases raw
  {
    match raw
    case RawNumber(number) => RawNumber(Canonical(number))
    case RawOperation(operator, operands) => RawOperation(operator, NormalAll(operands))
    case _ => raw
  }

  function NormalAll(raws: seq<Raw>): (r: seq<Raw>)
    ensures |r| == |raws|
    decreases raws
  {
    if raws == [] then [] else [Normal(raws[0])] + NormalAll(raws[1..])
  }

  /** Every number literal of the input, written out, has at most 256 digits. */
  predicate NumbersExpand(raw: Raw)
    decreases raw
  {
    match raw
    case RawNumber(number) => Expandable(number)
    case RawOperation(_, operands) => AllNumbersExpand(operands)
    case _ => true
  }

  predicate AllNumbersExpand(raws: seq<Raw>)
    decreases raws
  {
    raws == [] || (NumbersExpand(raws[0]) && AllNumbersExpand(raws[1..]))
  }

  /** Expressions the transport can carry: no instants, only numbers within the limits, at most 32
      operands. */
  predicate Writable(e: Expr)
    decreases e
  {
    match e
    case Literal(_, value) => !value.Instant? && (value.Number? ==> InLimits(value.number))
    case Path(_, _) => true
    case Operation(_, operands, _) => |operands| <= 32 && AllWritable(operands)
  }

  predicate AllWritable(operands: seq<Expr>)
    decreases operands
  {
    operands == [] || (Writable(operands[0]) && AllWritable(operands[1..]))
  }

  /** Parsing loses nothing: whatever is parsed renders back to the input, with its numbers in
      canonical form; and it can be carried again exactly if each number, written out, fits. */
  lemma {:induction false} ParseRenders(raw: Raw, consumed: nat, depth: nat)
    requires Parse(raw, consumed, depth).Some?
    ensures var e := Parse(raw, consumed, depth).value.0;
            Render(e) == Normal(raw) && (Writable(e) <==> NumbersExpand(raw))
    decreases raw
  {
    match raw
    case RawOperation(operator, operands) => ParseAllRenders(operands, consumed + 1, depth + 1);
    case RawNumber(number) => CanonicalInLimits(number);
    case _ =>
  }

  lemma {:induction false} ParseAllRenders(raws: seq<Raw>, consumed: nat, depth: nat)
    requires consumed <= MAX_NODES && ParseAll(raws, consumed, depth).Some?
    ensures var es := ParseAll(raws, consumed, depth).value.0; 
            RenderAll(es) == NormalAll(raws) && (AllWritable(es) <==> AllNumbersExpand(raws))
    decreases raws
  {
    if raws != [] {
      ParseRenders(raws[0], consumed, depth);
      var first := Parse(raws[0], consumed, depth).value;
      ParseAllRenders(raws[1..], first.1, depth);
      var rest := ParseAll(raws[1..], first.1, depth).value;
      assert ([first.0] + rest.0)[1..] == rest.0;
    }
  }

  /** Every typed expression within the limits is what parsing its rendering yields. */
  lemma {:induction false} RenderParses(e: Expr, consumed: nat, depth: nat)
    requires Typed(e) && Writable(e) && consumed + Size(e) <= MAX_NODES && depth + Depth(e) <= MAX_DEPTH + 1
    ensures Parse(Render(e), consumed, depth) == Some((e, consumed + Size(e)))
    decreases e
  {
    if e.Operation? {
      RenderAllParses(e.operands, consumed + 1, depth + 1);
      assert e.operands != [];
    } else if e.Literal? {
      match e.value case Flag(_) => case Number(_) => case Instant(_) => case Text(_) => case Nothing =>
    }
  }

  lemma {:induction false} RenderAllParses(es: seq<Expr>, consumed: nat, depth: nat)
    requires AllTyped(es) && AllWritable(es)
    requires consumed + Sizes(es) <= MAX_NODES && depth + Depths(es) <= MAX_DEPTH + 1
    ensures ParseAll(RenderAll(es), consumed, depth) == Some((es, consumed + Sizes(es)))
    decreases es
  {
    hide OperatorKind, StaticDecimal, KindFor;
    if es != [] {
      RenderParses(es[0], consumed, depth);
      RenderAllParses(es[1..], consumed + Size(es[0]), depth);
      assert RenderAll(es)[1..] == RenderAll(es[1..]);
      assert [es[0]] + es[1..] == es;
    }
  }

  // Re-validation

  predicate NodeOk(e: Expr) {
    match e
    case Literal(kind, value) => kind == DECIMAL ==> value.Number? && InLimits(value.number)
    case Path(path, kind) => KindFor(path) == Some(kind)
    case Operation(operator, operands, kind) => OperatorKind(operator, operands) == Some(kind)
  }

  /** Every node of the expression is sound. */
  predicate Sound(e: Expr)
    decreases e
  {
    NodeOk(e) && (e.Operation? ==> forall i :: 0 <= i < |e.operands| ==> Sound(e.operands[i]))
  }

  predicate Acceptable(e: Expr) {
    Size(e) <= MAX_NODES && Depth(e) <= MAX_DEPTH && Sound(e)
  }

  /** What is left of a walk: a node and the depth at which it stands. */
  predicate Remains(entry: (Expr, nat)) {
    entry.1 + Depth(entry.0) <= MAX_DEPTH + 1 && Sound(entry.0)
  }

  predicate AllRemain(stack: seq<(Expr, nat)>) {
    forall i :: 0 <= i < |stack| ==> Remains(stack[i])
  }

  predicate OperandsRemain(operands: seq<Expr>, depth: nat) {
    forall i :: 0 <= i < |operands| ==> Remains((operands[i], depth))
  }

  predicate AllOk(operations: seq<Expr>) {
    forall i :: 0 <= i < |operations| ==> NodeOk(operations[i])
  }

  lemma PushRemains(stack: seq<(Expr, nat)>, operands: seq<Expr>, depth: nat, longer: seq<(Expr, nat)>)
    requires |longer| == |stack| + |operands|
    requires forall i :: 0 <= i < |stack| ==> longer[i] == stack[i]
    requires forall i :: |stack| <= i < |longer| ==> longer[i] == (operands[|longer| - 1 - i], depth)
    ensures AllRemain(longer) <==> AllRemain(stack) && OperandsRemain(operands, depth)
  {
    hide Remains;
    if AllRemain(longer) {
      forall i | 0 <= i < |operands| ensures Remains((operands[i], depth)) {
        assert longer[|longer| - 1 - i] == (operands[i], depth);
      }
      forall i | 0 <= i < |stack| ensures Remains(stack[i]) {
        assert longer[i] == stack[i];
      }
    }
  }

  lemma PopRemains(stack: seq<(Expr, nat)>)
    requires stack != []
    ensures AllRemain(stack) <==> AllRemain(stack[..|stack| - 1]) && Remains(stack[|stack| - 1])
  {
    hide Remains;
  }

  lemma NothingRemains()
    ensures AllRemain([])
  {
  }

  lemma AppendOk(operations: seq<Expr>, node: Expr)
    ensures AllOk(operations + [node]) <==> AllOk(operations) && NodeOk(node)
  {
    hide NodeOk;
    if AllOk(operations + [node]) {
      forall i | 0 <= i < |operations| ensures NodeOk(operations[i]) {
        assert (operations + [node])[i] == operations[i];
      }
      assert (operations + [node])[|operations|] == node;
    }
  }

  function StackSize(stack: seq<(Expr, nat)>): nat {
    if stack == [] then 0 else StackSize(stack[..|stack| - 1]) + Size(stack[|stack| - 1].0)
  }

  lemma {:induction false} DepthsBound(operands: seq<Expr>, bound: int)
    requires bound >= 0
    ensures Depths(operands) <= bound <==> forall i :: 0 <= i < |operands| ==> Depth(operands[i]) <= bound
    decreases operands
  {
    if operands != [] {
      DepthsBound(operands[1..], bound);
      assert forall i :: 0 < i < |operands| ==> operands[i] == operands[1..][i - 1];
    }
  }

  lemma RemainsUnfolds(node: Expr, depth: nat)
    requires depth >= 1
    ensures Remains((node, depth)) <==>
              && depth <= MAX_DEPTH && NodeOk(node)
              && (node.Operation? ==> OperandsRemain(node.operands, depth + 1))
  {
    if node.Operation? && depth <= MAX_DEPTH {
      DepthsBound(node.operands, MAX_DEPTH - depth);
    }
  }

  /** What the parser returns passes the re-validation exactly if each number literal of its input,
      written out, has at most 256 digits: the limits are asked of the number as it is given, and
      then again of its canonical form. */
  lemma {:induction false} ParsedIsAcceptable(raw: Raw)
    requires Parse(raw, 0, 1).Some?
    ensures Acceptable(Parse(raw, 0, 1).value.0) <==> NumbersExpand(raw)
  {
    ParsedIsSound(raw, 0, 1);
  }

  lemma {:induction false} ParsedIsSound(raw: Raw, consumed: nat, depth: nat)
    requires Parse(raw, consumed, depth).Some?
    ensures Sound(Parse(raw, consumed, depth).value.0) <==> NumbersExpand(raw)
    decreases raw
  {
    hide OperatorKind, KindFor, InLimits, Canonical, Expandable;
    match raw
    case RawOperation(operator, operands) => ParsedAreSound(operands, consumed + 1, depth + 1);
    case RawNumber(number) => CanonicalInLimits(number);
    case _ =>
  }

  lemma {:induction false} ParsedAreSound(raws: seq<Raw>, consumed: nat, depth: nat)
    requires consumed <= MAX_NODES && ParseAll(raws, consumed, depth).Some?
    ensures var es := ParseAll(raws, consumed, depth).value.0;
            (forall i :: 0 <= i < |es| ==> Sound(es[i])) <==> AllNumbersExpand(raws)
    decreases raws
  {
    hide OperatorKind, KindFor, Sound;
    if raws != [] {
      ParsedIsSound(raws[0], consumed, depth);
      var first := Parse(raws[0], consumed, depth).value;
      ParsedAreSound(raws[1..], first.1, depth);
      var es := ParseAll(raws, consumed, depth).value.0;
      var rest := ParseAll(raws[1..], first.1, depth).value.0;
      assert es == [first.0] + rest;
      assert forall i :: 0 < i < |es| ==> es[i] == rest[i - 1];
      assert forall i :: 0 <= i < |rest| ==> rest[i] == es[i + 1];
    }
  }

  /** The number 1e256 is parsed, and what it is parsed to is refused. */
  lemma {:induction false} ParsedIsRefused()
    ensures var raw := RawNumber(Decimals.Decimal(1, 256));
            Parse(raw, 0, 1).Some? && !Acceptable(Parse(raw, 0, 1).value.0)
  {
    hide Canonical;
    PowerIsNotExpandable();
  }

  /** A constant denominator that overflows is refused, although the product alone is parsed. */
  lemma {:induction false} OverflowIsRefused()
    ensures var number := RawNumber(Decimals.Decimal(1, 200));
            var product := RawOperation(Multiply, [number, number]);
            && Parse(product, 0, 1).Some?
            && Parse(RawOperation(Divide, [RawVar("source.last_price"), product]), 0, 1).None?
  {
    hide OperatorKind, Parse, Size, Canonical;
    var number := RawNumber(Decimals.Decimal(1, 200));
    var literal := Literal(DECIMAL, Number(Canonical(Decimals.Decimal(1, 200))));
    var raw, path := RawVar("source.last_price"), Path("source.last_price", DECIMAL);
    var product := Operation(Multiply, [literal, literal], DECIMAL);
    ProductIsParsed(0, 1);
    ProductIsParsed(2, 2);
    PriceIsParsed();
    PairIsParsed(raw, path, RawOperation(Multiply, [number, number]), product, 1, 2);
    ProductOverflows();
    MisfitsAreRefused(Divide, [raw, RawOperation(Multiply, [number, number])], [path, product]);
  }

  lemma PriceIsParsed()
    ensures var path := Path("source.last_price", DECIMAL);
            Parse(RawVar("source.last_price"), 1, 2) == Some((path, 2)) && Size(path) == 1
  {
  }

  lemma {:induction false} MisfitsAreRefused(operator: Operator, raws: seq<Raw>, es: seq<Expr>)
    requires 1 <= |raws| <= 32 && OperatorKind(operator, es).None?
    requires ParseAll(raws, 1, 2).Some? && ParseAll(raws, 1, 2).value.0 == es
    ensures Parse(RawOperation(operator, raws), 0, 1).None?
  {
    hide OperatorKind;
  }

  lemma {:induction false} PairIsParsed(raw: Raw, first: Expr, next: Raw, second: Expr, consumed: nat, depth: nat)
    requires consumed <= MAX_NODES && Parse(raw, consumed, depth) == Some((first, consumed + Size(first)))
    requires Parse(next, consumed + Size(first), depth)
             == Some((second, consumed + Size(first) + Size(second)))
    ensures ParseAll([raw, next], consumed, depth)
            == Some(([first, second], consumed + Size(first) + Size(second)))
  {
    hide Parse;
    var middle, end := consumed + Size(first), consumed + Size(first) + Size(second);
    var rest := [raw, next][1..];
    assert rest == [next] && rest[1..] == [];
    assert ParseAll([], end, depth) == Some(([], end));
    assert ParseAll(rest, middle, depth) == Some(([second] + [], end));
    assert [first] + ([second] + []) == [first, second];
  }

  lemma {:induction false} ProductIsParsed(consumed: nat, depth: nat)
    requires consumed + 3 <= MAX_NODES && depth + 1 <= MAX_DEPTH
    ensures var number := RawNumber(Decimals.Decimal(1, 200));
            var literal := Literal(DECIMAL, Number(Canonical(Decimals.Decimal(1, 200))));
            var product := Operation(Multiply, [literal, literal], DECIMAL);
            && Parse(RawOperation(Multiply, [number, number]), consumed, depth) == Some((product, consumed + 3))
            && Size(product) == 3
  {
    hide Canonical, InLimits;
    var number := RawNumber(Decimals.Decimal(1, 200));
    var literal := Literal(DECIMAL, Number(Canonical(Decimals.Decimal(1, 200))));
    SquareOverflows();
    PairIsParsed(number, literal, number, literal, consumed + 1, depth + 1);
  }

  lemma {:induction false} ProductOverflows()
    ensures var literal := Literal(DECIMAL, Number(Canonical(Decimals.Decimal(1, 200))));
            && StaticDecimal(Operation(Multiply, [literal, literal], DECIMAL)) == Overflows
            && OperatorKind(Divide, [Path("source.last_price", DECIMAL),
                                     Operation(Multiply, [literal, literal], DECIMAL)]).None?
  {
    hide Canonical, InLimits;
    SquareOverflows();
    var n := Canonical(Decimals.Decimal(1, 200));
    var literal := Literal(DECIMAL, Number(n));
    var rest := [literal, literal][1..];
    assert rest == [literal] && rest[1..] == [];
    assert StaticDecimals(rest) == Static([n] + []);
    assert [n] + ([n] + []) == [n, n];
  }

  /** The walk accepts exactly the expressions whose size, depth and nodes are in order. The
      operators are checked after the walk, innermost first. */
  method ValidateExpression(e: Expr) returns (ok: bool)
    ensures ok <==> Acceptable(e)
  {
    hide Sound, OperatorKind, KindFor, Depth, Size, Sizes, Depths, Remains, AllRemain, OperandsRemain;
    WholeRemains(e);
    var stack, count := [(e, 1)], 0;
    var operations: seq<Expr> := [];
    assert stack[..0] == [];
    while stack != []
      invariant count <= MAX_NODES
      invariant forall i :: 0 <= i < |stack| ==> stack[i].1 >= 1
      invariant forall i :: 0 <= i < |operations| ==> operations[i].Operation?
      invariant count + StackSize(stack) == Size(e)
      invariant Depth(e) <= MAX_DEPTH && Sound(e) <==>
                  AllOk(operations) && AllRemain(stack)
      decreases StackSize(stack)
    {
      var (node, depth) := stack[|stack| - 1];
      PopRemains(stack);
      stack := stack[..|stack| - 1];
      RemainsUnfolds(node, depth);
      SizePositive(node);
      if depth > MAX_DEPTH {
        return false;
      }
      count := count + 1;
      if count > MAX_NODES {
        return false;
      }
      if !node.Operation? {
        if !NodeOk(node) {
          return false;
        }
        LeafSize(node);
        continue;
      }
      ghost var rest := stack;
      AppendOk(operations, node);
      operations := operations + [node];
      stack := Push(stack, node.operands, depth + 1);
      PushRemains(rest, node.operands, depth + 1, stack);
      NodeSize(node);
    }
    NothingRemains();
    var i := |operations|;
    while i > 0
      invariant 0 <= i <= |operations|
      invariant forall j :: i <= j < |operations| ==> NodeOk(operations[j])
    {
      i := i - 1;
      if OperatorKind(operations[i].operator, operations[i].operands) != Some(operations[i].kind) {
        return false;
      }
    }
    ok := true;
  }

  lemma {:induction false} WholeRemains(e: Expr)
    ensures AllRemain([(e, 1)]) <==> Depth(e) <= MAX_DEPTH && Sound(e)
  {
    assert [(e, 1)][0] == (e, 1);
    assert AllRemain([(e, 1)]) <==> Remains((e, 1));
  }

  lemma {:induction false} SizePositive(e: Expr)
    ensures Size(e) > 0
  {
  }

  lemma {:induction false} LeafSize(e: Expr)
    requires !e.Operation?
    ensures Size(e) == 1
  {
  }

  lemma {:induction false} NodeSize(e: Expr)
    requires e.Operation?
    ensures Size(e) == 1 + Sizes(e.operands)
  {
  }

  method Push(stack: seq<(Expr, nat)>, operands: seq<Expr>, depth: nat) returns (longer: seq<(Expr, nat)>)
    ensures |longer| == |stack| + |operands|
    ensures forall i :: 0 <= i < |stack| ==> longer[i] == stack[i]
    ensures forall i :: |stack| <= i < |longer| ==> longer[i] == (operands[|longer| - 1 - i], depth)
    ensures StackSize(longer) == StackSize(stack) + Sizes(operands)
  {
    longer := stack;
    var i := |operands|;
    assert operands[i..] == [];
    while i > 0
      invariant 0 <= i <= |operands| && |longer| == |stack| + |operands| - i
      invariant forall j :: 0 <= j < |stack| ==> longer[j] == stack[j]
      invariant forall j :: |stack| <= j < |longer| ==> longer[j] == (operands[|stack| + |operands| - 1 - j], depth)
      invariant StackSize(longer) == StackSize(stack) + Sizes(operands[i..])
    {
      i := i - 1;
      longer := longer + [(operands[i], depth)];
      assert longer[..|longer| - 1] + [(operands[i], depth)] == longer;
      assert operands[i..][1..] == operands[i + 1..];
    }
    assert operands[0..] == operands;
  }

  /** Counts the nodes of an expression, giving up just beyond the ruleset's limit. */
  method CountNodes(e: Expr) returns (count: nat)
    ensures count == if Size(e) <= MAX_RULESET_NODES then Size(e) else MAX_RULESET_NODES + 1
  {
    hide Size, Sizes;
    var stack := [(e, 1)];
    assert stack[..0] == [];
    count := 0;
    while stack != []
      invariant count + StackSize(stack) == Size(e) && count <= MAX_RULESET_NODES
      decreases StackSize(stack)
    {
      var node := stack[|stack| - 1].0;
      stack := stack[..|stack| - 1];
      SizePositive(node);
      count := count + 1;
      if count > MAX_RULESET_NODES {
        return;
      }
      if node.Operation? {
        stack := Push(stack, node.operands, 1);
        NodeSize(node);
      } else {
        LeafSize(node);
      }
    }
  }
}
