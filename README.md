# Calculator engine and history ledger, in Dafny

This project models the calculator hook `useCalculator` (hooks/useCalculator.ts) of a
small calculator application. The hook owns six state cells: the `display` string,
the `equation` trace, the pending left operand `prevValue`, the pending `operation`,
the `waitingForOperand` flag, and the `history` ledger. Each exported command is one
synchronous transition of those cells:

- digit and decimal-point entry on the display string;
- clear-all and clear-entry;
- sign toggle and percent;
- operator keys, chained left to right with no precedence;
- "=";
- the six scientific functions.

"=" and the scientific keys prepend an entry to the ledger. The ledger keeps the 50
most recent entries, newest first.

The project has five modules:

- `Types` (types.dfy): the operation tags of `Operation` (types.ts:2) as `Op`, with
  `Option` standing for `null`, and the `CalculationHistory` record (types.ts:4-9).
- `Float` (float.dfy): the numbers. A JavaScript number is kept as its IEEE 754
  binary64 bit pattern (`bv64`). The model fixes the constants the hook uses (NaN,
  -1, 100, 180, `Math.PI`) and the test `b === 0`, which holds of both zeros.
  `parseFloat`, `String(x)`, the four operators, `Math.pow` and the six functions behind
  the scientific keys are fields of a `Platform` value, so nothing is assumed about them.
- `Engine` (engine.dfy): the hook as a state machine on values. The six cells form a
  `State`. There is one transition function per command, plus `Step` and `Run` over
  sequences of commands.
- `UseCalculator` (calculator.dfy): the hook as the source runs it. The class
  `Calculator` holds the six cells as mutable fields, and each method overwrites them
  as the source's setters do. Each method is proved to leave the cells exactly as the
  matching `Engine` transition says, and to keep the ledger within its bound.
  `Client.ChainedSum` drives a fresh calculator through 5 + 3 + 2 =.
- `Properties` (properties.dfy): lemmas over the `Engine` transitions. They cover the
  ledger, digit and decimal-point entry, and the pairing of the pending value with
  the pending operator. Concrete key sequences show left-to-right chaining, division
  by zero and degree-based trigonometry.

The "=" and scientific commands need an entry id (`Math.random()` in the source) and a
timestamp (`Date.now()`). Both are parameters of those commands here.

Notes on the hook's behaviour:

- `toggleSign` and `inputPercent` do not preserve the display's formatting. They
  replace the display with `String(...)` of the new number. So toggling twice gives
  `String(parseFloat(display))`, not the original text (`ToggleSignTwice`). The lemma
  assumes only what JavaScript does: formatting then parsing returns every number
  except the zeros and the NaNs, a zero comes back as a zero and a NaN as a NaN, both
  zeros print as "0" and every NaN as "NaN"; multiplying by -1 keeps zeros, NaNs and
  other numbers apart, and twice undoes itself on the other numbers.
- `handleOperation` folds a pending operation only when a pending value exists. A
  second operator pressed straight after the first also applies the pending operation
  again, to the displayed value (`RepeatedOperatorReapplies`).
- `clearEntry` is exported by the hook, but App.tsx never calls it (App.tsx:34-46).
- The pi key (App.tsx:119) calls `inputDigit` with the eight-decimal text of pi. So
  "the display holds at most one point" holds only when digit keys pass a single
  digit. `DisplayRun` is stated under that condition, and `PiKeyBreaksDisplay` shows
  the condition is needed.
- The keypad passes only binary operators to `handleOperation`. `PairedFromStart`
  needs less: only that the operator is not null.

## Model

| member | source | states |
|---|---|---|
| `Engine.AddToHistory` | hooks/useCalculator.ts:13-21 | the new entry is first, followed by the old ledger in order, cut to min(old length + 1, 50) entries |
| `Engine.ClearAll` | hooks/useCalculator.ts:23-29 | display "0", equation empty, no pending value or operator, flag false; the ledger is kept |
| `Engine.ClearEntry` | hooks/useCalculator.ts:31-33 | only the display changes, to "0" |
| `Engine.InputDigit` | hooks/useCalculator.ts:35-42 | only display and flag change, and the flag ends false; when waiting or on a lone "0" the display becomes the key text, otherwise the key text is appended |
| `Engine.InputDot` | hooks/useCalculator.ts:44-51 | only display and flag change, and the flag ends false; the display always holds a point afterwards; "0." when waiting; a display that has a point is left alone; otherwise one point is appended |
| `Engine.ToggleSign` | hooks/useCalculator.ts:53-55 | only the display changes, to the formatted product of the parsed display and -1 |
| `Engine.InputPercent` | hooks/useCalculator.ts:57-60 | only the display changes, to the formatted quotient of the parsed display and 100 |
| `Engine.Calculate` | hooks/useCalculator.ts:62-71 | division by a zero (of either sign) gives NaN; null and the unary tags return the right operand; each binary tag applies its own operator |
| `Engine.HandleOperation` | hooks/useCalculator.ts:73-88 | afterwards the flag is set, the operator is `nextOp` and the ledger is unchanged; with no pending value the parsed display becomes pending and the display stays; with a pending value and operator their result becomes both the pending value and the display (also when already waiting); with a pending value but no operator nothing else changes |
| `Engine.PerformEquals` | hooks/useCalculator.ts:90-104 | a complete no-op unless a value and an operator are pending; otherwise exactly one entry "{prev} {op} {input} =" with the result is prepended, the display shows the result, equation, value and operator are cleared, the flag is set |
| `Engine.PerformScientific` | hooks/useCalculator.ts:106-124 | null or a binary tag changes nothing; a unary tag prepends exactly one entry described as in the source, shows the result (trigonometry in degrees), sets the flag, and leaves equation, pending value and operator unchanged |
| `UseCalculator.Calculator.constructor` | hooks/useCalculator.ts:6-11 | the cells start as display "0", equation "", no pending value or operator, flag false, empty ledger |
| `UseCalculator.Calculator.AddToHistory` | hooks/useCalculator.ts:13-21 | the ledger cell is replaced by the prepend-then-cut of `Engine.AddToHistory`; no other cell changes; the bound of 50 is kept |
| `UseCalculator.Calculator.ClearAll` | hooks/useCalculator.ts:23-29 | the cells end as `Engine.ClearAll` prescribes |
| `UseCalculator.Calculator.ClearEntry` | hooks/useCalculator.ts:31-33 | the cells end as `Engine.ClearEntry` prescribes |
| `UseCalculator.Calculator.InputDigit` | hooks/useCalculator.ts:35-42 | the cells end as `Engine.InputDigit` prescribes |
| `UseCalculator.Calculator.InputDot` | hooks/useCalculator.ts:44-51 | the cells end as `Engine.InputDot` prescribes |
| `UseCalculator.Calculator.ToggleSign` | hooks/useCalculator.ts:53-55 | the cells end as `Engine.ToggleSign` prescribes |
| `UseCalculator.Calculator.InputPercent` | hooks/useCalculator.ts:57-60 | the cells end as `Engine.InputPercent` prescribes |
| `UseCalculator.Calculator.HandleOperation` | hooks/useCalculator.ts:73-88 | the cells end as `Engine.HandleOperation` prescribes |
| `UseCalculator.Calculator.PerformEquals` | hooks/useCalculator.ts:90-104 | the cells end as `Engine.PerformEquals` prescribes, and the ledger stays within 50 entries |
| `UseCalculator.Calculator.PerformScientific` | hooks/useCalculator.ts:106-124 | the cells end as `Engine.PerformScientific` prescribes, and the ledger stays within 50 entries |
| `Client.ChainedSum` | hooks/useCalculator.ts:73-104 | on a fresh calculator, 5 + 3 + 2 = shows (5 + 3) + 2 and leaves exactly one ledger entry, "8 + 2 =" |
| `Properties.RecordAllKeepsMostRecent` | hooks/useCalculator.ts:13-21 | after any number of recordings the ledger is the recorded entries newest first, then the older ledger, cut at 50 |
| `Properties.RecordPastLimit` | hooks/useCalculator.ts:20 | after 50 or more recordings the ledger holds exactly 50 entries, the most recent ones, newest first |
| `Properties.HistoryBoundedRun` | hooks/useCalculator.ts:20 | no sequence of commands takes the ledger past 50 entries |
| `Properties.OnlyRecordingCommandsTouchHistory` | hooks/useCalculator.ts:23-88 | every command other than "=" and the scientific keys leaves the ledger unchanged |
| `Properties.DigitsAppend` | hooks/useCalculator.ts:35-42 | digits typed on a display that is neither empty nor "0", and not waiting, are appended in order, and nothing else changes |
| `Properties.DigitsStartNumber` | hooks/useCalculator.ts:35-42 | digits typed after an operator or over "0" show the typed text less its leading zeros, and clear the flag |
| `Properties.ToggleSignTwice` | hooks/useCalculator.ts:53-55 | on a platform that formats, parses and negates as JavaScript does (zeros and NaNs included), toggling twice leaves every cell as it was except the display, which becomes the formatted value of the parsed display |
| `Properties.InputDotTwiceIsOnce` | hooks/useCalculator.ts:44-51 | pressing the point twice is the same as pressing it once |
| `Properties.InputDotKeepsOnePoint` | hooks/useCalculator.ts:44-51 | from a display with at most one point, the point key leaves exactly one |
| `Properties.ClearAllIdempotent` | hooks/useCalculator.ts:23-29 | clearing all twice is clearing all once |
| `Properties.DisplayStep` | hooks/useCalculator.ts:23-124 | with single-digit keys and a formatter that never writes an empty string or two points, every command keeps the display non-empty with at most one point |
| `Properties.DisplayRun` | hooks/useCalculator.ts:23-124 | the same holds after any sequence of such commands |
| `Properties.DisplayFromStart` | hooks/useCalculator.ts:6-11 | from start-up, the display is always non-empty with at most one point, under the same conditions |
| `Properties.PiKeyBreaksDisplay` | App.tsx:119 | the pi key's text typed after a number with a point gives a display with two points |
| `Properties.PairedStep` | hooks/useCalculator.ts:73-104 | if a pending value exists exactly when a pending operator does, every command that passes no null operator keeps it so |
| `Properties.PairedRun` | hooks/useCalculator.ts:73-104 | the same holds after any sequence of such commands |
| `Properties.PairedFromStart` | hooks/useCalculator.ts:6-11 | from start-up, with non-null operators only, the pending value is null exactly when the pending operator is |
| `Properties.NullOperatorUnpairs` | hooks/useCalculator.ts:76-78 | passing null as the operator at start-up leaves a pending value with no operator |
| `Properties.ChainedSum` | hooks/useCalculator.ts:73-104 | 5 + 3 + 2 = shows (5 + 3) + 2, records only "8 + 2 =" with that result, and clears the pending operation |
| `Properties.NoPrecedence` | hooks/useCalculator.ts:73-88 | 2 + 3 * 4 = shows (2 + 3) * 4 |
| `Properties.DivisionByZero` | hooks/useCalculator.ts:67 | 5 / 0 = shows and records NaN, when "0" parses to a zero |
| `Properties.RepeatedOperatorReapplies` | hooks/useCalculator.ts:79-84 | 5 + followed by - makes 5 + 5 the pending value and display, with "-" pending |
| `Properties.SineInDegrees` | hooks/useCalculator.ts:113 | sin on "30" shows the sine of 30 * pi / 180 and records "sin(30°)" with 30 as the platform formats it |

## Left out

- Floating-point semantics: `parseFloat`, `String(x)`, `+ - * /`, `Math.pow`,
  `Math.sqrt`, `Math.sin`, `Math.cos`, `Math.tan`, `Math.log10` and `Math.log` are
  arbitrary functions of the `Platform` value. Properties that depend on their
  results are not stated. Examples: that toggling the sign twice restores the number,
  that sin(30°) is 0.5, that NaN propagates through later operations.
- Entry ids from `Math.random().toString(36)` and timestamps from `Date.now()` are
  parameters. Their uniqueness and monotonicity are not modelled.
- React mechanics (`useState`, `useCallback`, batched setters, closures that see the
  values of the last render) are not modelled. Each command is one atomic transition
  that sees the state left by the previous one.
- App.tsx (rendering, tabs, the scientific toggle) is not part of this model, except
  for the pi key's call, which `PiKeyBreaksDisplay` covers.
- services/geminiService.ts (the remote AI solver: a network call and `JSON.parse`)
  is not part of this model.
