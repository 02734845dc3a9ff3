/**
 * The part of `calculate()` that both calculator state machines share
 * (frontend/src/lib/calculator-state.ts and frontend/src/calculator/CalculatorState.ts):
 * the `switch` from the pending operator symbol to a call of the arithmetic
 * client, and the message recorded when that call is rejected.
 */
module RemoteCall {
  import opened Wrappers
  import opened ApiClient

  /** The operator symbol of each binary operation. */
  function Symbol(op: BinaryOperation): char {
    match op
    case Add => '+'
    case Subtract => '-'
    case Multiply => '*'
    case Divide => '/'
    case Power => '^'
    case Percentage => '%'
  }

  /**
   * The client call `calculate()` makes for the pending operator with left
   * operand `a` and current display `b`; `None` is the `default` branch, which
   * throws "Failed to process <operator>" instead of calling anything.
   */
  function CallFor(operator: Option<char>, a: string, b: string): (r: Option<Call>)
    ensures r.Some? <==> operator.Some? && operator.value in "+-*/^%s"
    ensures r.Some? && r.value.SqrtCall? <==> operator == Some('s')
    ensures r == Some(SqrtCall(a)) <==> operator == Some('s')
    ensures r.Some? && r.value.BinaryCall? ==>
              r.value.a == a && r.value.b == b && operator == Some(Symbol(r.value.op))
  {
    match operator
    case None => None
    case Some(c) =>
      if c == '+' then Some(BinaryCall(Add, a, b))
      else if c == '-' then Some(BinaryCall(Subtract, a, b))
      else if c == '*' then Some(BinaryCall(Multiply, a, b))
      else if c == '/' then Some(BinaryCall(Divide, a, b))
      else if c == '^' then Some(BinaryCall(Power, a, b))
      else if c == '%' then Some(BinaryCall(Percentage, a, b))
      else if c == 's' then Some(SqrtCall(a))
      else None
  }

  /** Each binary operation is reached from its own symbol, with the operands in order. */
  lemma {:induction false} CallForSymbol(op: BinaryOperation, a: string, b: string)
    ensures CallFor(Some(Symbol(op)), a, b) == Some(BinaryCall(op, a, b))
  {
    match op
    case Add =>
    case Subtract =>
    case Multiply =>
    case Divide =>
    case Power =>
    case Percentage =>
  }

  /** `${this.operator}`: the symbol, or "null" when nothing is pending. */
  function OperatorText(operator: Option<char>): string {
    match operator
    case Some(c) => [c]
    case None => "null"
  }

  /** The `error` recorded for a rejected call: the `Error`'s message, or
      "API Error" for a rejection with a value that is not an `Error`. */
  function RejectionMessage(message: Option<string>): string {
    message.GetOr("API Error")
  }
}
