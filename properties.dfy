/**
 * What the calculator promises, stated over the transitions of `Engine`: the
 * bounded most-recent-first ledger, digit and decimal-point entry, the pairing of
 * the pending value with the pending operator, and left-to-right chaining.
 */
module Properties {
  import opened Types
  import opened Float
  import opened Engine

  // ---------------------------------------------------------------------------
  // The ledger
  // ---------------------------------------------------------------------------

  /** `s` back to front. */
  function Reversed<T>(s: seq<T>): (r: seq<T>)
    ensures |r| == |s|
    decreases |s|
  {
    if s == [] then [] else [s[|s| - 1]] + Reversed(s[..|s| - 1])
  }

  /** The ledger after recording `items` one after another, `items[0]` first. */
  function RecordAll(history: seq<CalculationHistory>, items: seq<CalculationHistory>): (r: seq<CalculationHistory>)
    decreases |items|
  {
    if items == [] then history
    else AddToHistory(RecordAll(history, items[..|items| - 1]), items[|items| - 1])
  }

  /**
   * However many entries are recorded, the ledger holds the most recent ones,
   * newest first, followed by the older ledger, cut at `HistoryLimit` entries.
   */
  lemma {:induction false} RecordAllKeepsMostRecent(history: seq<CalculationHistory>, items: seq<CalculationHistory>)
    requires |history| <= HistoryLimit
    ensures RecordAll(history, items) == (Reversed(items) + history)[..Min(|items| + |history|, HistoryLimit)]
  {
    if items == [] {
      assert Reversed(items) + history == history;
    } else {
      var init, last := items[..|items| - 1], items[|items| - 1];
      RecordAllKeepsMostRecent(history, init);
      var t := Reversed(init) + history;
      var m1 := Min(|init| + |history|, HistoryLimit);
      var m := Min(|items| + |history|, HistoryLimit);
      assert Reversed(items) + history == [last] + t;
      assert RecordAll(history, items) == ([last] + t[..m1])[..m];
      assert ([last] + t[..m1])[..m] == ([last] + t)[..m];
    }
  }

  /** Recording past the limit keeps exactly `HistoryLimit` entries, the newest first. */
  lemma RecordPastLimit(items: seq<CalculationHistory>)
    requires |items| >= HistoryLimit
    ensures |RecordAll([], items)| == HistoryLimit
    ensures forall k :: 0 <= k < HistoryLimit ==> RecordAll([], items)[k] == items[|items| - 1 - k]
  {
    RecordAllKeepsMostRecent([], items);
    forall k | 0 <= k < HistoryLimit
      ensures Reversed(items)[k] == items[|items| - 1 - k]
    {
      ReversedAt(items, k);
    }
  }

  lemma {:induction false} ReversedAt<T>(s: seq<T>, k: nat)
    requires k < |s|
    ensures Reversed(s)[k] == s[|s| - 1 - k]
    decreases |s|
  {
    if k > 0 {
      ReversedAt(s[..|s| - 1], k - 1);
    }
  }

  /** No command takes the ledger past its bound. */
  lemma {:induction false} HistoryBoundedRun(fp: Platform, s: State, cs: seq<Command>)
    requires |s.history| <= HistoryLimit
    ensures |Run(fp, s, cs).history| <= HistoryLimit
    decreases |cs|
  {
    if cs != [] {
      HistoryBoundedRun(fp, Step(fp, s, cs[0]), cs[1..]);
    }
  }

  /** Only "=" and the scientific keys write to the ledger. */
  lemma OnlyRecordingCommandsTouchHistory(fp: Platform, s: State, c: Command)
    requires !c.Equals? && !c.Scientific?
    ensures Step(fp, s, c).history == s.history
  {
  }

  // ---------------------------------------------------------------------------
  // Digit and decimal-point entry
  // ---------------------------------------------------------------------------

  /** One digit-key command per character of `ds`. */
  function DigitKeys(ds: string): (cs: seq<Command>)
    ensures |cs| == |ds|
  {
    if ds == [] then [] else [Digit([ds[0]])] + DigitKeys(ds[1..])
  }

  lemma RunCons(fp: Platform, s: State, c: Command, cs: seq<Command>)
    ensures Run(fp, s, [c] + cs) == Run(fp, Step(fp, s, c), cs)
  {
  }

  /** Typed digits continue a number that is neither empty nor a lone zero. */
  lemma {:induction false} DigitsAppend(fp: Platform, s: State, ds: string)
    requires !s.waitingForOperand && s.display != "" && s.display != "0"
    ensures Run(fp, s, DigitKeys(ds)) == s.(display := s.display + ds)
    decreases |ds|
  {
    if ds == [] {
      assert s.display + ds == s.display;
    } else {
      var s1 := InputDigit(s, [ds[0]]);
      RunCons(fp, s, Digit([ds[0]]), DigitKeys(ds[1..]));
      DigitsAppend(fp, s1, ds[1..]);
      assert s.display + [ds[0]] + ds[1..] == s.display + ds;
    }
  }

  /** `ds` without its leading zeros, but never shorter than one character. */
  function DropLeadingZeros(ds: string): (r: string)
    ensures |ds| > 0 ==> |r| > 0
    ensures |r| <= |ds|
  {
    if |ds| > 1 && ds[0] == '0' then DropLeadingZeros(ds[1..]) else ds
  }

  /**
   * Typing digits after an operator, or over the initial "0", shows what was typed
   * less its leading zeros.
   */
  lemma {:induction false} DigitsStartNumber(fp: Platform, s: State, ds: string)
    requires s.waitingForOperand || s.display == "0"
    requires |ds| > 0
    ensures Run(fp, s, DigitKeys(ds)) == s.(display := DropLeadingZeros(ds), waitingForOperand := false)
    decreases |ds|
  {
    var s1 := InputDigit(s, [ds[0]]);
    RunCons(fp, s, Digit([ds[0]]), DigitKeys(ds[1..]));
    if |ds| == 1 {
      assert ds == [ds[0]];
    } else if ds[0] == '0' {
      DigitsStartNumber(fp, s1, ds[1..]);
    } else {
      assert s1.display == [ds[0]] && [ds[0]] != "0";
      DigitsAppend(fp, s1, ds[1..]);
      assert [ds[0]] + ds[1..] == ds;
    }
  }

  /**
   * What JavaScript's `String(x)` and `parseFloat` do: formatting then parsing gives
   * back every number other than the zeros and the NaNs; a zero comes back as a zero
   * and a NaN as a NaN; both zeros format alike ("0"), and so do all NaNs ("NaN").
   */
  ghost predicate FormatsLikeJavaScript(fp: Platform)
  {
    && (forall x: Num :: !IsZero(x) && !IsNaN(x) ==> fp.parseFloat(fp.toString(x)) == x)
    && (forall x: Num :: IsZero(x) ==> IsZero(fp.parseFloat(fp.toString(x))))
    && (forall x: Num :: IsNaN(x) ==> IsNaN(fp.parseFloat(fp.toString(x))))
    && fp.toString(PositiveZero) == fp.toString(NegativeZero)
    && (forall x: Num :: IsNaN(x) ==> fp.toString(x) == fp.toString(NaN))
  }

  /**
   * What IEEE 754 multiplication by -1 does: it maps zeros to zeros, NaNs to NaNs and
   * every other number to another such number, which a second negation undoes.
   */
  ghost predicate NegatesLikeIeee(fp: Platform)
  {
    && (forall x: Num :: IsZero(x) ==> IsZero(fp.mul(x, MinusOne)))
    && (forall x: Num :: IsNaN(x) ==> IsNaN(fp.mul(x, MinusOne)))
    && (forall x: Num :: !IsZero(x) && !IsNaN(x) ==>
          !IsZero(fp.mul(x, MinusOne)) && !IsNaN(fp.mul(x, MinusOne)))
    && (forall x: Num :: !IsZero(x) && !IsNaN(x) ==> fp.mul(fp.mul(x, MinusOne), MinusOne) == x)
  }

  /**
   * Toggling the sign twice does not restore the typed text: the display ends as the
   * formatted value of what it showed ("007" becomes "7", "1." becomes "1"), and
   * nothing else changes.
   */
  lemma ToggleSignTwice(fp: Platform, s: State)
    requires FormatsLikeJavaScript(fp) && NegatesLikeIeee(fp)
    ensures ToggleSign(fp, ToggleSign(fp, s)) == s.(display := fp.toString(fp.parseFloat(s.display)))
  {
    var value := fp.parseFloat(s.display);
    var negated := fp.mul(value, MinusOne);
    var reparsed := fp.parseFloat(fp.toString(negated));
    var back := fp.mul(reparsed, MinusOne);
    if IsZero(value) {
      assert IsZero(negated) && IsZero(reparsed) && IsZero(back);
      assert fp.toString(back) == fp.toString(value);
    } else if IsNaN(value) {
      assert IsNaN(negated) && IsNaN(reparsed) && IsNaN(back);
      assert fp.toString(back) == fp.toString(NaN) == fp.toString(value);
    } else {
      assert reparsed == negated;
      assert back == value;
    }
  }

  /** Pressing the decimal point twice is pressing it once. */
  lemma InputDotTwiceIsOnce(s: State)
    ensures InputDot(InputDot(s)) == InputDot(s)
  {
  }

  /** The decimal point key never makes a second point, and always leaves one. */
  lemma InputDotKeepsOnePoint(s: State)
    requires multiset(s.display)['.'] <= 1
    ensures multiset(InputDot(s).display)['.'] == 1
  {
  }

  /** `AllClear` forgets everything but the ledger, so pressing it again changes nothing. */
  lemma ClearAllIdempotent(s: State)
    ensures ClearAll(ClearAll(s)) == ClearAll(s)
  {
  }

  /** A display that stands for one number: non-empty, with at most one point. */
  predicate WellFormedDisplay(d: string)
  {
    |d| > 0 && multiset(d)['.'] <= 1
  }

  /** The platform's `String(x)` is never empty and never holds two points. */
  ghost predicate FormatsWell(fp: Platform)
  {
    forall x: Num :: WellFormedDisplay(fp.toString(x))
  }

  lemma FormatsWellAt(fp: Platform, x: Num)
    requires FormatsWell(fp)
    ensures WellFormedDisplay(fp.toString(x))
  {
  }

  /** A single key '0' to '9'. */
  predicate SingleDigit(d: string)
  {
    |d| == 1 && '0' <= d[0] <= '9'
  }

  /** The keypad's digit keys pass one digit; every other command is unrestricted. */
  predicate KeypadCommand(c: Command)
  {
    c.Digit? ==> SingleDigit(c.digit)
  }

  lemma DisplayStep(fp: Platform, s: State, c: Command)
    requires FormatsWell(fp) && WellFormedDisplay(s.display) && KeypadCommand(c)
    ensures WellFormedDisplay(Step(fp, s, c).display)
  {
    match c
    case Digit(d) =>
      if !s.waitingForOperand && s.display != "0" {
        assert multiset(s.display + d) == multiset(s.display) + multiset(d);
        assert d == [d[0]];
      } else {
        assert d == [d[0]];
      }
    case Dot =>
      InputDotKeepsOnePoint(s);
    case AllClear =>
      assert "0" == ['0'];
    case EntryClear =>
      assert "0" == ['0'];
    case SignToggle =>
      FormatsWellAt(fp, fp.mul(fp.parseFloat(s.display), MinusOne));
    case Percent =>
      FormatsWellAt(fp, fp.div(fp.parseFloat(s.display), Hundred));
    case Operator(op) =>
      if s.prevValue.Some? && s.operation.Some? {
        assert WellFormedDisplay(fp.toString(Calculate(fp, s.prevValue.value, fp.parseFloat(s.display), s.operation)));
      }
    case Equals(id, t) =>
      if s.prevValue.Some? && s.operation.Some? {
        assert WellFormedDisplay(fp.toString(Calculate(fp, s.prevValue.value, fp.parseFloat(s.display), s.operation)));
      }
    case Scientific(func, id, t) =>
      if func.Some? && !func.value.IsBinary() {
        assert WellFormedDisplay(fp.toString(Unary(fp, func.value, fp.parseFloat(s.display))));
      }
  }

  /**
   * With single-digit keys and a formatter that never writes two points, the
   * display always holds one number: non-empty and with at most one point.
   */
  lemma {:induction false} DisplayRun(fp: Platform, s: State, cs: seq<Command>)
    requires FormatsWell(fp) && WellFormedDisplay(s.display)
    requires forall i :: 0 <= i < |cs| ==> KeypadCommand(cs[i])
    ensures WellFormedDisplay(Run(fp, s, cs).display)
    decreases |cs|
  {
    if cs != [] {
      DisplayStep(fp, s, cs[0]);
      DisplayRun(fp, Step(fp, s, cs[0]), cs[1..]);
    }
  }

  /** From start-up, the display always holds one number, under the same conditions. */
  lemma DisplayFromStart(fp: Platform, cs: seq<Command>)
    requires FormatsWell(fp)
    requires forall i :: 0 <= i < |cs| ==> KeypadCommand(cs[i])
    ensures WellFormedDisplay(Run(fp, Initial, cs).display)
  {
    assert "0" == ['0'];
    DisplayRun(fp, Initial, cs);
  }

  /** The text the pi key types: `Math.PI.toFixed(8)`. */
  const PiKey: string := "3.14159265"

  /** The pi key is not a single digit: after a number with a point it makes a second one. */
  lemma PiKeyBreaksDisplay(s: State)
    requires !s.waitingForOperand && '.' in s.display
    ensures !WellFormedDisplay(InputDigit(s, PiKey).display)
  {
  }

  // ---------------------------------------------------------------------------
  // The pending operation
  // ---------------------------------------------------------------------------

  /** A pending value exists exactly when a pending operator does. */
  predicate Paired(s: State)
  {
    s.prevValue.None? <==> s.operation.None?
  }

  /** The operator keys pass a non-null operation (the keypad sends + - * / ^). */
  predicate NamesOperator(c: Command)
  {
    c.Operator? ==> c.op.Some?
  }

  lemma PairedStep(fp: Platform, s: State, c: Command)
    requires Paired(s) && NamesOperator(c)
    ensures Paired(Step(fp, s, c))
  {
  }

  lemma {:induction false} PairedRun(fp: Platform, s: State, cs: seq<Command>)
    requires Paired(s)
    requires forall i :: 0 <= i < |cs| ==> NamesOperator(cs[i])
    ensures Paired(Run(fp, s, cs))
    decreases |cs|
  {
    if cs != [] {
      PairedStep(fp, s, cs[0]);
      PairedRun(fp, Step(fp, s, cs[0]), cs[1..]);
    }
  }

  /**
   * From start-up, as long as the operator keys pass an operation, the pending
   * value is null exactly when the pending operator is.
   */
  lemma PairedFromStart(fp: Platform, cs: seq<Command>)
    requires forall i :: 0 <= i < |cs| ==> NamesOperator(cs[i])
    ensures Paired(Run(fp, Initial, cs))
  {
    PairedRun(fp, Initial, cs);
  }

  /** Passing `null` as the operator breaks the pairing. */
  lemma NullOperatorUnpairs(fp: Platform)
    ensures !Paired(HandleOperation(fp, Initial, None))
  {
  }

  // ---------------------------------------------------------------------------
  // Chaining, scenario by scenario
  // ---------------------------------------------------------------------------

  /**
   * 5 + 3 + 2 = : the second "+" folds 5 + 3 into the running total, and only the
   * final "8 + 2 =" is recorded.
   */
  lemma ChainedSum(fp: Platform, id: string, timestamp: int)
    ensures
      var five, three, two := fp.parseFloat("5"), fp.parseFloat("3"), fp.parseFloat("2");
      var eight := fp.add(five, three);
      var s := PerformEquals(fp, InputDigit(HandleOperation(fp, InputDigit(HandleOperation(fp,
                 InputDigit(Initial, "5"), Some(Add)), "3"), Some(Add)), "2"), id, timestamp);
      && s.display == fp.toString(fp.add(eight, two))
      && s.history == [CalculationHistory(id, fp.toString(eight) + " + " + fp.toString(two) + " =", s.display, timestamp)]
      && s.prevValue.None? && s.operation.None? && s.equation == "" && s.waitingForOperand
  {
    var eight, two := fp.add(fp.parseFloat("5"), fp.parseFloat("3")), fp.parseFloat("2");
    var s4 := HandleOperation(fp, InputDigit(HandleOperation(fp, InputDigit(Initial, "5"), Some(Add)), "3"), Some(Add));
    assert s4.prevValue == Some(eight);
    var s := PerformEquals(fp, InputDigit(s4, "2"), id, timestamp);
    assert EqualsExpression(fp, eight, Add, two) == fp.toString(eight) + " + " + fp.toString(two) + " =";
    assert |s.history| == 1;
  }

  /** 2 + 3 * 4 = is (2 + 3) * 4: operators have no precedence. */
  lemma NoPrecedence(fp: Platform, id: string, timestamp: int)
    ensures
      var s := PerformEquals(fp, InputDigit(HandleOperation(fp, InputDigit(HandleOperation(fp,
                 InputDigit(Initial, "2"), Some(Add)), "3"), Some(Multiply)), "4"), id, timestamp);
      s.display == fp.toString(fp.mul(fp.add(fp.parseFloat("2"), fp.parseFloat("3")), fp.parseFloat("4")))
  {
  }

  /** 5 / 0 = shows and records the NaN, provided "0" parses to a zero. */
  lemma DivisionByZero(fp: Platform, id: string, timestamp: int)
    requires IsZero(fp.parseFloat("0"))
    ensures
      var s := PerformEquals(fp, InputDigit(HandleOperation(fp, InputDigit(Initial, "5"), Some(Divide)), "0"), id, timestamp);
      && s.display == fp.toString(NaN)
      && s.history == [CalculationHistory(id, fp.toString(fp.parseFloat("5")) + " / " + fp.toString(fp.parseFloat("0")) + " =", fp.toString(NaN), timestamp)]
  {
    var s := PerformEquals(fp, InputDigit(HandleOperation(fp, InputDigit(Initial, "5"), Some(Divide)), "0"), id, timestamp);
    var five, zero := fp.parseFloat("5"), fp.parseFloat("0");
    assert EqualsExpression(fp, five, Divide, zero) == fp.toString(five) + " / " + fp.toString(zero) + " =";
    assert |s.history| == 1;
  }

  /**
   * An operator pressed straight after another one applies the pending operation to
   * the displayed value again: 5 + then - leaves 5 + 5 pending under "-".
   */
  lemma RepeatedOperatorReapplies(fp: Platform)
    ensures
      var five := fp.parseFloat("5");
      var s := HandleOperation(fp, HandleOperation(fp, InputDigit(Initial, "5"), Some(Add)), Some(Subtract));
      && s.prevValue == Some(fp.add(five, five))
      && s.display == fp.toString(fp.add(five, five))
      && s.operation == Some(Subtract)
  {
  }

  /** sin on "30" reads the operand in degrees and records "sin(30°)". */
  lemma SineInDegrees(fp: Platform, id: string, timestamp: int)
    ensures
      var thirty := fp.parseFloat("30");
      var s := PerformScientific(fp, InputDigit(InputDigit(Initial, "3"), "0"), Some(Sin), id, timestamp);
      && s.display == fp.toString(fp.sin(fp.div(fp.mul(thirty, Pi), HalfTurn)))
      && s.history == [CalculationHistory(id, "sin(" + fp.toString(thirty) + "°)", s.display, timestamp)]
  {
    var s2 := InputDigit(InputDigit(Initial, "3"), "0");
    assert s2.display == "30";
    var s := PerformScientific(fp, s2, Some(Sin), id, timestamp);
    assert |s.history| == 1;
  }
}
