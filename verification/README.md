# Basic calculator: the state machine of script.js

This project models the four-function calculator in `script.js`. The
calculator is four variables and five key handlers that reassign them:

- `currentInput`: the number on the display, as a string.
- `previousInput`: the left operand stored when an operator was chosen.
- `currentOperator`: the pending operation: `null`, or the `data-action` of
  the operator button pressed. The model admits `add`, `subtract`,
  `multiply` and `divide`.
- `shouldResetDisplay`: the next digit starts a new number.

There are three modules:

- `Wrappers` (wrappers.dfy): the `Option` datatype.
- `Transitions` (transitions.dfy): the state as a value (`State`) and one
  function per key: `DigitStep`, `DecimalStep`, `OperatorStep`, `Calculate`
  and `Cleared`. `Press` and `Run` apply keys one at a time, in the way the
  page dispatches button clicks. The module also holds the lemmas: the frame
  of each key, idempotence of the decimal key, the chaining rule, the two
  error resets, the successful calculation, and the state invariant kept by
  every key and every run. It also proves what typing digits from the
  cleared state shows, and the `3 + 4 + 5 =` chain.
- `Engine` (engine.dfy): `Calculator`, a class with the four variables as
  fields and one method per handler (`InputNumber`, `InputDecimal`,
  `HandleOperator`, `PerformCalculation`, `ClearCalculator`). Each method
  changes the fields in place and states the new fields directly, or for a
  successful calculation directly in terms of the abstract arithmetic. Each
  one also states that the new state equals its `Transitions` function applied to
  the old state. So every lemma in `Transitions` holds of the object.

Floating-point arithmetic is abstract. `Arith<N>` is a record of four
operations over an unspecified number type `N`:

- `parse` is `parseFloat`, with `None` for NaN.
- `isZero` is `=== 0`.
- `compute` is `+`, `-`, `*` or `/`.
- `format` is `Math.round(x * 1e8) / 1e8` followed by `toString`.

`WellFormed` states the only facts about these operations that the model
relies on:

- `parseFloat('')` is NaN.
- A number's string form is never empty.
- A number's string form has at most one `.`.

The two `alert` calls become a returned `Option<Error>`: `InvalidOperands`
or `DivisionByZero`. `currentOperator` is `Option<Op>`.

The state invariant (`ValidState`) has three parts:

- the display is non-empty;
- the display has at most one decimal point;
- an operator is pending exactly when `previousInput` is non-empty.

Every key preserves it. Under it, the `default: return` branch of
`performCalculation` is never reached.

Equals with no operator pending is not a no-op. `previousInput` is `''`
then, `parseFloat('')` is NaN, so the calculator alerts "Invalid
calculation!" and clears (`EqualsWithNothingPendingResets`).

## Model

| member | source | states |
|---|---|---|
| Transitions.CountDots | script.js:26 | the count of decimal points is zero exactly when the string does not include '.', the test `inputDecimal` makes |
| Engine.Calculator.constructor | script.js:3-6 | the initial values are "0", "", no operator, false, which is the cleared state, and they satisfy the invariant |
| Engine.Calculator.InputNumber | script.js:12-20 | a digit replaces a display of "0" or one about to be reset, and is appended otherwise; the reset flag ends false; the operand and operator are unchanged; equals `DigitStep`; keeps the invariant |
| Engine.Calculator.InputDecimal | script.js:22-30 | with the reset flag the display becomes "0." and the flag clears; otherwise '.' is appended only if absent; operand and operator unchanged; equals `DecimalStep`; keeps the invariant |
| Engine.Calculator.HandleOperator | script.js:32-42 | afterwards the operator is the key's, the left operand equals the display as it stood after any chained calculation, and the reset flag is set; with no pending operator or a just-reset display nothing is computed and no alert is raised; a chained calculation without an alert leaves format(compute(op, left, right)) as display and left operand; after a chained alert both are "0"; equals `OperatorStep`; keeps the invariant |
| Engine.Calculator.PerformCalculation | script.js:44-84 | reports InvalidOperands exactly when an operand fails to parse; any alert leaves the cleared state; with no alert and an operator pending, the display is format(compute(op, left, right)), the operator and left operand are dropped and the reset flag is set; equals `Calculate`; keeps the invariant |
| Engine.Calculator.ClearCalculator | script.js:86-92 | every field gets its initial value, from any state |
| Transitions.DigitFrame | script.js:12-18 | a digit key keeps the left operand and the operator, clears the reset flag, ends the display with that digit, and adds no decimal point |
| Transitions.DecimalIdempotent | script.js:22-28 | pressing '.' twice gives the same state as pressing it once |
| Transitions.DecimalOneDot | script.js:22-28 | a display with at most one '.' has exactly one after the decimal key; the other fields are kept, and the reset flag ends false |
| Transitions.UnparseableOperandsReset | script.js:45-52 | if either operand fails to parse, equals yields the cleared state and InvalidOperands, and no result is stored |
| Transitions.EqualsWithNothingPendingResets | script.js:45-52 | under the invariant, equals with no pending operator clears the calculator and reports InvalidOperands; it does not leave the state as it was |
| Transitions.DivisionByZeroResets | script.js:66-71 | dividing by an operand that parses to zero yields the cleared state and DivisionByZero |
| Transitions.SuccessfulCalculation | script.js:78-82 | a calculation that passes both checks stores format(compute(op, left, right)) and drops the operator and the left operand. It sets the reset flag and raises no alert. |
| Transitions.DefaultBranchUnreachable | script.js:74-75 | under the invariant, equals never returns the state unchanged without an alert, and with no alert an operator was pending and the result cleared it; the `default: return` branch is never taken for the four operators |
| Transitions.OperatorStores | script.js:39-41 | after an operator key, that operator is pending, the left operand equals the display, and the reset flag is set |
| Transitions.ChainingCondition | script.js:35-37 | a calculation runs first exactly when an operator is pending and the reset flag is false; otherwise the display is kept and no alert is raised |
| Transitions.OperatorTwice | script.js:35-41 | a second operator key in a row computes nothing and only replaces the pending operator |
| Transitions.ChainedDivisionByZero | script.js:35-41 | a zero divisor met while chaining clears the calculator, after which the operator key stores "0" as the left operand with the new operator, and DivisionByZero is reported |
| Transitions.PressPreservesValid | script.js:12-92 | every key (digit, '.', operator, equals, clear) keeps the state invariant |
| Transitions.CalculatePreservesValid | script.js:44-84 | equals keeps the state invariant, whichever branch is taken |
| Transitions.RunPreservesValid | script.js:98-111 | every state reached by a sequence of key presses from a valid state is valid, including every state reachable from the initial one |
| Transitions.ClearResets | script.js:86-90 | clear yields ("0", "", no operator, false) from any state, the same as the initial state, with no alert |
| Transitions.DigitsAppend | script.js:12-18 | once the display is a number other than "0" and not about to be reset, typed digits are appended in order |
| Transitions.DigitsFromZero | script.js:12-18 | typing digits on a display of "0" shows them with leading zeros dropped, or "0" if only zeros were typed |
| Transitions.TypingFromCleared | script.js:3-18 | from the cleared state, typing digits shows the digits typed with every leading zero dropped ("007" shows "7"), or "0" if only zeros were typed; the other fields stay cleared |
| Transitions.ChainedAddition | script.js:32-84 | the keys 3 + 4 + 5 = compute 3 + 4 when the second + is pressed, then add 5 to that formatted result on equals |

## Left out

- The page: the `display` element, `updateDisplay` and the `DOMContentLoaded`
  click wiring (script.js:1, 8-10, 94-116). `updateDisplay` only copies
  `currentInput` to the page, so the display is `currentInput` itself.
  `Press` and `Run` stand for the dispatch of clicks to handlers.
- `alert`: it is a blocking dialog. The model returns the error tag instead.
- Floating-point arithmetic, `parseFloat`, rounding to 8 decimal places and
  `Number.prototype.toString` are abstract operations (`Arith`). So the model
  does not show that `0.1 + 0.2` displays as `0.3`. It also says nothing about
  which strings parse, beyond the empty string.
- The unused `const inputValue = parseFloat(currentInput)` in `handleOperator`
  has no effect on state.
- Engine.Calculator.InputNumber: the handler receives the `data-number`
  attribute of a button, which is always one digit. The model takes one digit
  character, not an arbitrary string.
- Operator names other than the four: `handleOperator` stores whatever
  `data-action` the button carries. `Op` has only the four names the switch
  handles. With any other value, equals would take the `default: return`
  branch, leave the state unchanged and keep that operator pending. The
  model does not capture this.
- Backspace: script.js has no such handler, so the model has none either.
- A bound on the number of digits: the code has none, and neither does the
  model.
