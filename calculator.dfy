/**
 * The calculator hook as the source runs it: six state cells that every command
 * overwrites in place. Each command is proved to leave the cells exactly as the
 * matching transition of `Engine` prescribes, and to keep the ledger within
 * its bound.
 */
module UseCalculator {
  import opened Types
  import opened Float
  import Engine

  class Calculator {
    /** The floating-point library the hook computes with. */
    const fp: Platform

    var display: string
    var equation: string
    var prevValue: Option<Num>
    var operation: Option<Op>
    var waitingForOperand: bool
    var history: seq<CalculationHistory>

    /** The current contents of the state cells, as a value. */
    function Snapshot(): Engine.State
      reads this
    {
      Engine.State(display, equation, prevValue, operation, waitingForOperand, history)
    }

    /** The ledger never holds more than `HistoryLimit` entries. */
    ghost predicate Valid()
      reads this
    {
      |history| <= Engine.HistoryLimit
    }

    constructor (fp: Platform)
      ensures this.fp == fp && Valid()
      ensures Snapshot() == Engine.Initial
    {
      this.fp := fp;
      display := "0";
      equation := "";
      prevValue := None;
      operation := None;
      waitingForOperand := false;
      history := [];
    }

    /** `id` and `timestamp` stand for `Math.random()` and `Date.now()`. */
    method AddToHistory(expression: string, result: string, id: string, timestamp: int)
      requires Valid()
      modifies this
      ensures Valid()
      ensures history == Engine.AddToHistory(old(history), CalculationHistory(id, expression, result, timestamp))
      ensures Snapshot() == old(Snapshot()).(history := history)
    {
      var newItem := CalculationHistory(id, expression, result, timestamp);
      var prepended := [newItem] + history;
      history := prepended[..Engine.Min(|prepended|, Engine.HistoryLimit)];
    }

    method ClearAll()
      requires Valid()
      modifies this
      ensures Valid()
      ensures Snapshot() == Engine.ClearAll(old(Snapshot()))
    {
      display := "0";
      equation := "";
      prevValue := None;
      operation := None;
      waitingForOperand := false;
    }

    method ClearEntry()
      requires Valid()
      modifies this
      ensures Valid()
      ensures Snapshot() == Engine.ClearEntry(old(Snapshot()))
    {
      display := "0";
    }

    method InputDigit(digit: string)
      requires Valid()
      modifies this
      ensures Valid()
      ensures Snapshot() == Engine.InputDigit(old(Snapshot()), digit)
    {
      if waitingForOperand {
        display := digit;
        waitingForOperand := false;
      } else {
        display := if display == "0" then digit else display + digit;
      }
    }

    method InputDot()
      requires Valid()
      modifies this
      ensures Valid()
      ensures Snapshot() == Engine.InputDot(old(Snapshot()))
    {
      if waitingForOperand {
        display := "0.";
        waitingForOperand := false;
      } else if '.' !in display {
        display := display + ".";
      }
    }

    method ToggleSign()
      requires Valid()
      modifies this
      ensures Valid()
      ensures Snapshot() == Engine.ToggleSign(fp, old(Snapshot()))
    {
      display := fp.toString(fp.mul(fp.parseFloat(display), MinusOne));
    }

    method InputPercent()
      requires Valid()
      modifies this
      ensures Valid()
      ensures Snapshot() == Engine.InputPercent(fp, old(Snapshot()))
    {
      var value := fp.parseFloat(display);
      display := fp.toString(fp.div(value, Hundred));
    }

    method HandleOperation(nextOp: Option<Op>)
      requires Valid()
      modifies this
      ensures Valid()
      ensures Snapshot() == Engine.HandleOperation(fp, old(Snapshot()), nextOp)
    {
      var inputValue := fp.parseFloat(display);
      if prevValue.None? {
        prevValue := Some(inputValue);
        equation := fp.toString(inputValue) + " " + OpText(nextOp);
      } else if operation.Some? {
        var result := Engine.Calculate(fp, prevValue.value, inputValue, operation);
        prevValue := Some(result);
        display := fp.toString(result);
        equation := fp.toString(result) + " " + OpText(nextOp);
      }
      waitingForOperand := true;
      operation := nextOp;
    }

    /** `id` and `timestamp` stand for the ledger's `Math.random()` and `Date.now()`. */
    method PerformEquals(id: string, timestamp: int)
      requires Valid()
      modifies this
      ensures Valid()
      ensures Snapshot() == Engine.PerformEquals(fp, old(Snapshot()), id, timestamp)
    {
      var inputValue := fp.parseFloat(display);
      if operation.Some? && prevValue.Some? {
        var result := Engine.Calculate(fp, prevValue.value, inputValue, operation);
        var fullEquation := Engine.EqualsExpression(fp, prevValue.value, operation.value, inputValue);
        AddToHistory(fullEquation, fp.toString(result), id, timestamp);
        display := fp.toString(result);
        equation := "";
        prevValue := None;
        operation := None;
        waitingForOperand := true;
      }
    }

    /** `id` and `timestamp` stand for the ledger's `Math.random()` and `Date.now()`. */
    method PerformScientific(func: Option<Op>, id: string, timestamp: int)
      requires Valid()
      modifies this
      ensures Valid()
      ensures Snapshot() == Engine.PerformScientific(fp, old(Snapshot()), func, id, timestamp)
    {
      var val := fp.parseFloat(display);
      var result: Num;
      var desc: string;
      match func {
        case Some(Sqrt) =>
          result := fp.sqrt(val);
          desc := "sqrt(" + fp.toString(val) + ")";
        case Some(Sin) =>
          result := fp.sin(Radians(fp, val));
          desc := "sin(" + fp.toString(val) + "°)";
        case Some(Cos) =>
          result := fp.cos(Radians(fp, val));
          desc := "cos(" + fp.toString(val) + "°)";
        case Some(Tan) =>
          result := fp.tan(Radians(fp, val));
          desc := "tan(" + fp.toString(val) + "°)";
        case Some(Log) =>
          result := fp.log10(val);
          desc := "log10(" + fp.toString(val) + ")";
        case Some(Ln) =>
          result := fp.ln(val);
          desc := "ln(" + fp.toString(val) + ")";
        case _ =>
          return;
      }
      AddToHistory(desc, fp.toString(result), id, timestamp);
      display := fp.toString(result);
      waitingForOperand := true;
    }
  }
}

/** A client of the hook: the keys 5 + 3 + 2 = pressed on a fresh calculator. */
module Client {
  import opened Types
  import opened Float
  import Properties
  import opened UseCalculator

  /** Only the folded "8 + 2 =" reaches the ledger, and the display shows the total. */
  method ChainedSum(fp: Platform, id: string, timestamp: int) returns (c: Calculator)
    ensures fresh(c) && c.Valid()
    ensures
      var eight, two := fp.add(fp.parseFloat("5"), fp.parseFloat("3")), fp.parseFloat("2");
      && c.display == fp.toString(fp.add(eight, two))
      && c.history == [CalculationHistory(id, fp.toString(eight) + " + " + fp.toString(two) + " =", c.display, timestamp)]
  {
    c := new Calculator(fp);
    c.InputDigit("5");
    c.HandleOperation(Some(Add));
    c.InputDigit("3");
    c.HandleOperation(Some(Add));
    c.InputDigit("2");
    c.PerformEquals(id, timestamp);
    Properties.ChainedSum(fp, id, timestamp);
  }
}
