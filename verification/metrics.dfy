/**
 Metric expressions. A metric expression is a piece of query text; a metric
 operation (`sum`, `min`, `max`, `median`, `distinct`) applies an aggregation
 to an event expression. Arithmetic on either builds a new metric expression
 whose text is `left op right`, with no parentheses added, so chained
 arithmetic renders flat, left to right.
 */
module Metrics {
  import opened Strings
  import Expression

  /** The service path every metric query is sent to. */
  const PATH: string := "metric/get"

  /** A `MetricExpression`: its text and its service path. Its response
      records are always metric points. */
  datatype MetricExpr = MetricExpr(expression: string, path: string)

  /** A `MetricOperation`: an aggregation name applied to an event expression. */
  datatype MetricOperation = MetricOperation(kind: string, event: Expression.EventExpr)

  /** Anything that can be given to the `MetricExpression` constructor or be
      the right operand of arithmetic; it enters the text through `str`. */
  datatype Operand =
    | Expr(expr: MetricExpr)
    | Operation(operation: MetricOperation)
    | Text(s: string)
    | Number(n: int)

  /** `MetricOperation.__str__`: `kind(event)`. */
  function OperationText(o: MetricOperation): string {
    o.kind + "(" + Expression.Render(o.event) + ")"
  }

  /** Python's `str` of an operand. */
  function Str(x: Operand): string {
    match x
    case Expr(m) => m.expression
    case Operation(o) => OperationText(o)
    case Text(s) => s
    case Number(n) => IntToDecimal(n)
  }

  /** The `MetricExpression` constructor: keeps the string form of its argument
      and fixes the path. */
  function New(x: Operand): (m: MetricExpr)
    ensures m.expression == Str(x)
    ensures m.path == PATH
  {
    MetricExpr(Str(x), PATH)
  }

  /** `get_expression` and `__str__`: the stored text, unchanged. */
  function GetExpression(m: MetricExpr): string {
    m.expression
  }

  /** Wrapping an expression in a new one keeps its text: `str` and
      `get_expression` give back what the constructor stored. */
  lemma WrapKeepsText(x: Operand)
    ensures GetExpression(New(x)) == Str(x)
    ensures GetExpression(New(Expr(New(x)))) == GetExpression(New(x))
    ensures New(Expr(New(x))) == New(x)
  {
  }

  /** `MetricOperation.apply`: a metric expression holding `kind(event)`. */
  function Apply(o: MetricOperation): (m: MetricExpr)
    ensures m.expression == o.kind + "(" + Expression.Render(o.event) + ")"
    ensures m.path == PATH
  {
    New(Text(o.kind + "(" + Expression.Render(o.event) + ")"))
  }

  /** The operation itself seen as a metric expression (the fields its
      constructor sets through the base class). */
  function AsExpr(o: MetricOperation): (m: MetricExpr)
    ensures m == Apply(o)
    ensures GetExpression(m) == OperationText(o)
  {
    New(Expr(Apply(o)))
  }

  datatype ArithOp = Plus | Minus | Times | Divide

  function Symbol(op: ArithOp): (s: string)
    ensures |s| == 1
  {
    match op
    case Plus => "+"
    case Minus => "-"
    case Times => "*"
    case Divide => "/"
  }

  lemma SymbolInjective(a: ArithOp, b: ArithOp)
    ensures Symbol(a) == Symbol(b) <==> a == b
  {
  }

  /** `_op`: a new metric expression whose text is the left text, the operator
      between single spaces, and the right operand's text. The left operand's
      text is a prefix and the right operand's text a suffix of the result. */
  function Combine(left: MetricExpr, op: ArithOp, right: Operand): (r: MetricExpr)
    ensures r.path == PATH
    ensures |r.expression| == |left.expression| + 3 + |Str(right)|
    ensures r.expression[..|left.expression|] == left.expression
    ensures r.expression[|left.expression|..|left.expression| + 3] == " " + Symbol(op) + " "
    ensures r.expression[|left.expression| + 3..] == Str(right)
  {
    New(Text(left.expression + " " + Symbol(op) + " " + Str(right)))
  }

  function Add(left: MetricExpr, right: Operand): (r: MetricExpr)
    ensures r.expression == left.expression + " + " + Str(right)
    ensures r.path == PATH
  {
    Combine(left, Plus, right)
  }

  function Sub(left: MetricExpr, right: Operand): (r: MetricExpr)
    ensures r.expression == left.expression + " - " + Str(right)
    ensures r.path == PATH
  {
    Combine(left, Minus, right)
  }

  function Mul(left: MetricExpr, right: Operand): (r: MetricExpr)
    ensures r.expression == left.expression + " * " + Str(right)
    ensures r.path == PATH
  {
    Combine(left, Times, right)
  }

  function Div(left: MetricExpr, right: Operand): (r: MetricExpr)
    ensures r.expression == left.expression + " / " + Str(right)
    ensures r.path == PATH
  {
    Combine(left, Divide, right)
  }

  /** `__truediv__` delegates to `__div__`. */
  function TrueDiv(left: MetricExpr, right: Operand): (r: MetricExpr)
    ensures r == Div(left, right)
  {
    Div(left, right)
  }

  /** Arithmetic on an operation: the operation is first wrapped in a metric
      expression holding its text. */
  function OperationCombine(o: MetricOperation, op: ArithOp, right: Operand): (r: MetricExpr)
    ensures r == Combine(New(Text(OperationText(o))), op, right)
  {
    Combine(New(Operation(o)), op, right)
  }

  function OperationAdd(o: MetricOperation, right: Operand): (r: MetricExpr)
    ensures r == Add(AsExpr(o), right)
  {
    OperationCombine(o, Plus, right)
  }

  function OperationSub(o: MetricOperation, right: Operand): (r: MetricExpr)
    ensures r == Sub(AsExpr(o), right)
  {
    OperationCombine(o, Minus, right)
  }

  function OperationMul(o: MetricOperation, right: Operand): (r: MetricExpr)
    ensures r == Mul(AsExpr(o), right)
  {
    OperationCombine(o, Times, right)
  }

  function OperationDiv(o: MetricOperation, right: Operand): (r: MetricExpr)
    ensures r == Div(AsExpr(o), right)
  {
    OperationCombine(o, Divide, right)
  }

  function OperationTrueDiv(o: MetricOperation, right: Operand): (r: MetricExpr)
    ensures r == OperationDiv(o, right)
  {
    OperationDiv(o, right)
  }

  /** Combining adds exactly one space, one operator and one space: no
      parenthesis is added, whatever the operands. */
  lemma {:induction false} CombineAddsNoParentheses(left: MetricExpr, op: ArithOp, right: Operand)
    ensures Count('(', Combine(left, op, right).expression) == Count('(', left.expression) + Count('(', Str(right))
    ensures Count(')', Combine(left, op, right).expression) == Count(')', left.expression) + Count(')', Str(right))
  {
    var middle := " " + Symbol(op) + " ";
    assert Combine(left, op, right).expression == left.expression + (middle + Str(right));
    CountAbsent('(', middle);
    CountAbsent(')', middle);
    CountConcat('(', left.expression, middle + Str(right));
    CountConcat('(', middle, Str(right));
    CountConcat(')', left.expression, middle + Str(right));
    CountConcat(')', middle, Str(right));
  }

  /** Two operations in a row render flat, left to right. */
  lemma ChainIsFlat(a: MetricExpr, op1: ArithOp, b: Operand, op2: ArithOp, c: Operand)
    ensures Combine(Combine(a, op1, b), op2, c).expression
         == a.expression + " " + Symbol(op1) + " " + Str(b) + " " + Symbol(op2) + " " + Str(c)
  {
  }

  function Sum(event: Expression.EventExpr): (o: MetricOperation)
    ensures o.kind == "sum" && o.event == event
  {
    MetricOperation("sum", event)
  }

  function Min(event: Expression.EventExpr): (o: MetricOperation)
    ensures o.kind == "min" && o.event == event
  {
    MetricOperation("min", event)
  }

  function Max(event: Expression.EventExpr): (o: MetricOperation)
    ensures o.kind == "max" && o.event == event
  {
    MetricOperation("max", event)
  }

  function Median(event: Expression.EventExpr): (o: MetricOperation)
    ensures o.kind == "median" && o.event == event
  {
    MetricOperation("median", event)
  }

  function Distinct(event: Expression.EventExpr): (o: MetricOperation)
    ensures o.kind == "distinct" && o.event == event
  {
    MetricOperation("distinct", event)
  }

  /** `sum(e) + min(e) + max(e)` renders flat: the three operation texts
      joined by ` + `, with no parentheses around the first sum. */
  lemma SumMinMaxIsFlat(e: Expression.EventExpr)
    ensures Add(OperationAdd(Sum(e), Operation(Min(e))), Operation(Max(e))).expression
         == OperationText(Sum(e)) + " + " + OperationText(Min(e)) + " + " + OperationText(Max(e))
  {
  }

  /** Each factory's operation renders as its aggregation name applied to the
      event expression's text. */
  lemma FactoryTexts(e: Expression.EventExpr)
    ensures OperationText(Sum(e)) == "sum(" + Expression.Render(e) + ")"
    ensures OperationText(Min(e)) == "min(" + Expression.Render(e) + ")"
    ensures OperationText(Max(e)) == "max(" + Expression.Render(e) + ")"
    ensures OperationText(Median(e)) == "median(" + Expression.Render(e) + ")"
    ensures OperationText(Distinct(e)) == "distinct(" + Expression.Render(e) + ")"
  {
  }
}
