/**
 * The five binary operations of Node.h as one operator type with a dispatch
 * from the operator character, the arithmetic each one performs, and the
 * precedence rule the expression builder consults.
 */
module Operations {
  import opened Outcomes

  /** Node_Add, Node_Substract, Node_Multiply, Node_Divide and Node_Assign. */
  datatype Operator = Add | Substract | Multiply | Divide | Assign

  /** The operator a character denotes: the dispatch table of createNodeBinaryOperation. */
  function OperatorOf(c: char): (r: Option<Operator>)
    ensures r.Some? <==> c in "+-*/="
  {
    match c
    case '+' => Some(Add)
    case '-' => Some(Substract)
    case '*' => Some(Multiply)
    case '/' => Some(Divide)
    case '=' => Some(Assign)
    case _ => None
  }

  /** The character an operator is written with. */
  function Symbol(op: Operator): (c: char)
    ensures c in "+-*/="
  {
    match op
    case Add => '+'
    case Substract => '-'
    case Multiply => '*'
    case Divide => '/'
    case Assign => '='
  }

  /** Writing an operator and dispatching on the character gives it back, and the reverse. */
  lemma SymbolRoundTrip(op: Operator, c: char)
    ensures OperatorOf(Symbol(op)) == Some(op)
    ensures OperatorOf(c) == Some(op) <==> c == Symbol(op)
  {
  }

  /** Binding strength: multiplication and division above addition and subtraction, assignment last. */
  function Level(op: Operator): (l: nat)
    ensures l <= 2
    ensures l == 0 <==> op == Assign
  {
    match op
    case Multiply | Divide => 2
    case Add | Substract => 1
    case Assign => 0
  }

  /**
   * The result an operation node writes to its output from the numbers of
   * its left and right inputs. Assignment yields the right operand, which is
   * also copied into the left one; division by zero is an error, not a number.
   */
  function Apply(op: Operator, a: real, b: real): (r: Result<real>)
    ensures r.Err? <==> op == Divide && b == 0.0
    ensures r.Err? ==> r.error == DivisionByZero
    ensures r.Ok? && op == Add ==> r.value - b == a
    ensures r.Ok? && op == Substract ==> r.value + b == a
    ensures r.Ok? && op == Assign ==> r.value == b
    ensures op == Multiply && b == 0.0 ==> r == Ok(0.0)
    ensures op == Multiply && b == 1.0 ==> r == Ok(a)
  {
    match op
    case Add => Ok(a + b)
    case Substract => Ok(a - b)
    case Multiply => Ok(a * b)
    case Divide => if b == 0.0 then Err(DivisionByZero) else Ok(a / b)
    case Assign => Ok(b)
  }

  /** A product divided by its non-zero right factor gives back the left factor. */
  lemma ProductInverts(a: real, b: real)
    requires b != 0.0
    ensures Apply(Multiply, a, b).Ok? && Apply(Multiply, a, b).value / b == a
  {
  }

  /** A quotient times its divisor gives back the dividend. */
  lemma QuotientInverts(a: real, b: real)
    requires b != 0.0
    ensures Apply(Divide, a, b).Ok? && Apply(Divide, a, b).value * b == a
  {
  }

  /**
   * `op` must be reduced before `next` when it binds strictly tighter, or
   * equally tight and it is left-associative; assignment associates to the
   * right, so it is never reduced before the operator that follows it.
   */
  predicate EvaluatedBefore(op: Operator, next: Operator) {
    Level(op) > Level(next) || (Level(op) == Level(next) && op != Assign)
  }

  /** Node_BinaryOperation::NeedsToBeEvaluatedFirst, on operator characters. */
  function NeedsToBeEvaluatedFirst(op: char, nextOp: char): (r: bool)
    ensures r ==> op in "+-*/=" && nextOp in "+-*/="
    ensures r <==> OperatorOf(op).Some? && OperatorOf(nextOp).Some? &&
                   EvaluatedBefore(OperatorOf(op).value, OperatorOf(nextOp).value)
  {
    match (OperatorOf(op), OperatorOf(nextOp))
    case (Some(o), Some(n)) => EvaluatedBefore(o, n)
    case _ => false
  }

  /**
   * The rule orders the levels: between operators of different levels
   * exactly one is reduced first; two arithmetic operators of one level
   * reduce left to right; assignment is reduced after everything else.
   */
  lemma EvaluatedBeforeOrder(a: Operator, b: Operator, c: Operator)
    ensures Level(a) != Level(b) ==> (EvaluatedBefore(a, b) <==> !EvaluatedBefore(b, a))
    ensures Level(a) == Level(b) && a != Assign ==> EvaluatedBefore(a, b) && EvaluatedBefore(b, a)
    ensures !EvaluatedBefore(Assign, a)
    ensures a != Assign ==> EvaluatedBefore(a, Assign)
    ensures EvaluatedBefore(a, b) && EvaluatedBefore(b, c) ==> EvaluatedBefore(a, c)
  {
  }

  /** The cases the precedence rule is documented with. */
  lemma NeedsToBeEvaluatedFirstExamples()
    ensures NeedsToBeEvaluatedFirst('*', '+')
    ensures !NeedsToBeEvaluatedFirst('+', '*')
    ensures NeedsToBeEvaluatedFirst('-', '+') && NeedsToBeEvaluatedFirst('/', '*')
    ensures !NeedsToBeEvaluatedFirst('=', '=') && NeedsToBeEvaluatedFirst('+', '=')
    ensures !NeedsToBeEvaluatedFirst('x', '+')
  {
  }
}
