/** Shared types of the calculator: the operation tags and the history record. */
module Types {

  /** JavaScript's `null` for the nullable state cells. */
  datatype Option<+T> = None | Some(value: T)

  /** The non-null operation tags: five binary operators and six unary functions. */
  datatype Op = Add | Subtract | Multiply | Divide | Power | Sqrt | Sin | Cos | Tan | Log | Ln
  {
    /** The tags that `calculate` and the keypad's operator keys use. */
    predicate IsBinary()
    {
      Add? || Subtract? || Multiply? || Divide? || Power?
    }

    /** The tag as the string it is in the source. */
    function Symbol(): (r: string)
    {
      match this
      case Add => "+"
      case Subtract => "-"
      case Multiply => "*"
      case Divide => "/"
      case Power => "^"
      case Sqrt => "sqrt"
      case Sin => "sin"
      case Cos => "cos"
      case Tan => "tan"
      case Log => "log"
      case Ln => "ln"
    }
  }

  /** How a template literal renders an operation cell: `null` becomes "null". */
  function OpText(op: Option<Op>): (r: string)
  {
    match op
    case None => "null"
    case Some(o) => o.Symbol()
  }

  /** One ledger entry; never changed after it is created. */
  datatype CalculationHistory = CalculationHistory(id: string, expression: string, result: string, timestamp: int)
}
