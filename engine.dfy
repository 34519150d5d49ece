/**
 * The calculator hook as a state machine on values: the six state cells form a
 * `State`, and every command the hook exports is a function from the state before
 * it to the state after it. The class in `UseCalculator` is proved to follow
 * these functions; the lemmas in `Properties` are stated over them.
 */
module Engine {
  import opened Types
  import opened Float

  /** The ledger keeps at most this many entries. */
  const HistoryLimit: nat := 50

  /** The hook's state cells. */
  datatype State = State(
    display: string,
    equation: string,
    prevValue: Option<Num>,
    operation: Option<Op>,
    waitingForOperand: bool,
    history: seq<CalculationHistory>)

  /** The state the hook starts in. */
  const Initial: State := State("0", "", None, None, false, [])

  function Min(a: int, b: int): (r: int)
  {
    if a < b then a else b
  }

  /** Prepend an entry to the ledger and keep its first `HistoryLimit` entries. */
  function AddToHistory(history: seq<CalculationHistory>, item: CalculationHistory): (r: seq<CalculationHistory>)
    ensures |r| == Min(|history| + 1, HistoryLimit)
    ensures r[0] == item
    ensures r[1..] == history[..|r| - 1]
  {
    ([item] + history)[..Min(|history| + 1, HistoryLimit)]
  }

  /** Reset everything but the ledger. */
  function ClearAll(s: State): (r: State)
    ensures r.history == s.history
    ensures r.display == "0" && r.equation == ""
    ensures r.prevValue.None? && r.operation.None? && !r.waitingForOperand
  {
    State("0", "", None, None, false, s.history)
  }

  /** Reset the display only. */
  function ClearEntry(s: State): (r: State)
    ensures r == s.(display := r.display) && r.display == "0"
  {
    s.(display := "0")
  }

  /** Type a digit key (or, from the pi key, any string). */
  function InputDigit(s: State, digit: string): (r: State)
    ensures r == s.(display := r.display, waitingForOperand := false)
    ensures s.waitingForOperand || s.display == "0" ==> r.display == digit
    ensures !s.waitingForOperand && s.display != "0" ==> r.display == s.display + digit
  {
    if s.waitingForOperand then
      s.(display := digit, waitingForOperand := false)
    else
      s.(display := if s.display == "0" then digit else s.display + digit)
  }

  /** Type the decimal point. */
  function InputDot(s: State): (r: State)
    ensures r == s.(display := r.display, waitingForOperand := false)
    ensures '.' in r.display
    ensures s.waitingForOperand ==> r.display == "0."
    ensures !s.waitingForOperand && '.' in s.display ==> r == s
    ensures !s.waitingForOperand && '.' !in s.display ==> r.display == s.display + "."
  {
    if s.waitingForOperand then
      s.(display := "0.", waitingForOperand := false)
    else if '.' !in s.display then
      s.(display := s.display + ".")
    else
      s
  }

  /** Negate the displayed number, reformatting it. */
  function ToggleSign(fp: Platform, s: State): (r: State)
    ensures r == s.(display := r.display)
    ensures r.display == fp.toString(fp.mul(fp.parseFloat(s.display), MinusOne))
  {
    s.(display := fp.toString(fp.mul(fp.parseFloat(s.display), MinusOne)))
  }

  /** Divide the displayed number by 100, reformatting it. */
  function InputPercent(fp: Platform, s: State): (r: State)
    ensures r == s.(display := r.display)
    ensures r.display == fp.toString(fp.div(fp.parseFloat(s.display), Hundred))
  {
    var value := fp.parseFloat(s.display);
    s.(display := fp.toString(fp.div(value, Hundred)))
  }

  /** Apply a pending operator; `null` and the unary tags pass the right operand through. */
  function Calculate(fp: Platform, a: Num, b: Num, op: Option<Op>): (r: Num)
    ensures op == Some(Divide) && IsZero(b) ==> r == NaN
    ensures op == Some(Divide) && !IsZero(b) ==> r == fp.div(a, b)
    ensures op.None? || !op.value.IsBinary() ==> r == b
    ensures op == Some(Add) ==> r == fp.add(a, b)
    ensures op == Some(Subtract) ==> r == fp.sub(a, b)
    ensures op == Some(Multiply) ==> r == fp.mul(a, b)
    ensures op == Some(Power) ==> r == fp.pow(a, b)
  {
    match op
    case Some(Add) => fp.add(a, b)
    case Some(Subtract) => fp.sub(a, b)
    case Some(Multiply) => fp.mul(a, b)
    case Some(Divide) => if IsZero(b) then NaN else fp.div(a, b)
    case Some(Power) => fp.pow(a, b)
    case _ => b
  }

  /**
   * Press an operator key: start a pending operation, or first fold the pending one
   * into the running total (left to right, no precedence).
   */
  function HandleOperation(fp: Platform, s: State, nextOp: Option<Op>): (r: State)
    ensures r.waitingForOperand && r.operation == nextOp && r.history == s.history
    ensures s.prevValue.None? ==>
      var inputValue := fp.parseFloat(s.display);
      && r.prevValue == Some(inputValue)
      && r.display == s.display
      && r.equation == fp.toString(inputValue) + " " + OpText(nextOp)
    ensures s.prevValue.Some? && s.operation.Some? ==>
      var result := Calculate(fp, s.prevValue.value, fp.parseFloat(s.display), s.operation);
      && r.prevValue == Some(result)
      && r.display == fp.toString(result)
      && r.equation == fp.toString(result) + " " + OpText(nextOp)
    ensures s.prevValue.Some? && s.operation.None? ==>
      r == s.(waitingForOperand := true, operation := nextOp)
  {
    var inputValue := fp.parseFloat(s.display);
    var resolved :=
      if s.prevValue.None? then
        s.(prevValue := Some(inputValue), equation := fp.toString(inputValue) + " " + OpText(nextOp))
      else if s.operation.Some? then
        var result := Calculate(fp, s.prevValue.value, inputValue, s.operation);
        s.(prevValue := Some(result), display := fp.toString(result),
           equation := fp.toString(result) + " " + OpText(nextOp))
      else
        s;
    resolved.(waitingForOperand := true, operation := nextOp)
  }

  /** The ledger expression of a completed binary operation: "{prev} {op} {input} =". */
  function EqualsExpression(fp: Platform, prev: Num, op: Op, input: Num): (r: string)
  {
    fp.toString(prev) + " " + op.Symbol() + " " + fp.toString(input) + " ="
  }

  /** Press "=": complete the pending operation and record it, or do nothing. */
  function PerformEquals(fp: Platform, s: State, id: string, timestamp: int): (r: State)
    ensures !(s.operation.Some? && s.prevValue.Some?) ==> r == s
    ensures s.operation.Some? && s.prevValue.Some? ==>
      var inputValue := fp.parseFloat(s.display);
      var result := Calculate(fp, s.prevValue.value, inputValue, s.operation);
      && r.display == fp.toString(result)
      && r.equation == "" && r.prevValue.None? && r.operation.None? && r.waitingForOperand
      && r.history == AddToHistory(s.history,
           CalculationHistory(id, EqualsExpression(fp, s.prevValue.value, s.operation.value, inputValue), r.display, timestamp))
  {
    var inputValue := fp.parseFloat(s.display);
    if s.operation.Some? && s.prevValue.Some? then
      var result := Calculate(fp, s.prevValue.value, inputValue, s.operation);
      var fullEquation := EqualsExpression(fp, s.prevValue.value, s.operation.value, inputValue);
      State(fp.toString(result), "", None, None, true,
            AddToHistory(s.history, CalculationHistory(id, fullEquation, fp.toString(result), timestamp)))
    else
      s
  }

  /** The value of a unary function; the trigonometric ones read their operand in degrees. */
  function Unary(fp: Platform, func: Op, val: Num): (r: Num)
    requires !func.IsBinary()
  {
    match func
    case Sqrt => fp.sqrt(val)
    case Sin => fp.sin(Radians(fp, val))
    case Cos => fp.cos(Radians(fp, val))
    case Tan => fp.tan(Radians(fp, val))
    case Log => fp.log10(val)
    case Ln => fp.ln(val)
  }

  /** The ledger expression of a unary function applied to the operand text `val`. */
  function Describe(func: Op, val: string): (r: string)
    requires !func.IsBinary()
  {
    match func
    case Sqrt => "sqrt(" + val + ")"
    case Sin => "sin(" + val + "°)"
    case Cos => "cos(" + val + "°)"
    case Tan => "tan(" + val + "°)"
    case Log => "log10(" + val + ")"
    case Ln => "ln(" + val + ")"
  }

  /** Press a scientific key: apply and record a unary function, or do nothing. */
  function PerformScientific(fp: Platform, s: State, func: Option<Op>, id: string, timestamp: int): (r: State)
    ensures func.None? || func.value.IsBinary() ==> r == s
    ensures func.Some? && !func.value.IsBinary() ==>
      var val := fp.parseFloat(s.display);
      && r == s.(display := r.display, waitingForOperand := true, history := r.history)
      && r.display == fp.toString(Unary(fp, func.value, val))
      && r.history == AddToHistory(s.history,
           CalculationHistory(id, Describe(func.value, fp.toString(val)), r.display, timestamp))
  {
    var val := fp.parseFloat(s.display);
    if func.None? || func.value.IsBinary() then
      s
    else
      var result := Unary(fp, func.value, val);
      var desc := Describe(func.value, fp.toString(val));
      s.(history := AddToHistory(s.history, CalculationHistory(id, desc, fp.toString(result), timestamp)),
         display := fp.toString(result),
         waitingForOperand := true)
  }

  /** One user action, with the id and the clock reading that recording actions need. */
  datatype Command =
    | Digit(digit: string)
    | Dot
    | AllClear
    | EntryClear
    | SignToggle
    | Percent
    | Operator(op: Option<Op>)
    | Equals(id: string, timestamp: int)
    | Scientific(func: Option<Op>, id: string, timestamp: int)

  function Step(fp: Platform, s: State, c: Command): (r: State)
  {
    match c
    case Digit(d) => InputDigit(s, d)
    case Dot => InputDot(s)
    case AllClear => ClearAll(s)
    case EntryClear => ClearEntry(s)
    case SignToggle => ToggleSign(fp, s)
    case Percent => InputPercent(fp, s)
    case Operator(op) => HandleOperation(fp, s, op)
    case Equals(id, t) => PerformEquals(fp, s, id, t)
    case Scientific(func, id, t) => PerformScientific(fp, s, func, id, t)
  }

  /** The state after processing `cs` in order, one command at a time. */
  function Run(fp: Platform, s: State, cs: seq<Command>): (r: State)
    decreases |cs|
  {
    if cs == [] then s else Run(fp, Step(fp, s, cs[0]), cs[1..])
  }
}
