/** The calculator of script.js as a pure state machine: the four state
    variables as one value, one function per key, a key-by-key run, and the
    properties the transitions promise. Floating-point numbers are abstract:
    every number operation goes through an `Arith<N>` record. */
module Transitions {
  import opened Wrappers

  /** The four operators a button can name (data-action "add", "subtract",
      "multiply", "divide"). */
  datatype Op = Add | Subtract | Multiply | Divide

  /** The two failures that script.js reports with `alert`. */
  datatype Error =
    | InvalidOperands   // 'Invalid calculation!'
    | DivisionByZero    // 'Cannot divide by zero!'

  /** currentInput, previousInput, currentOperator, shouldResetDisplay. */
  datatype State = State(
    currentInput: string,
    previousInput: string,
    currentOperator: Option<Op>,
    shouldResetDisplay: bool)

  /** A new state together with the alert raised on the way, if any. */
  datatype Outcome = Outcome(state: State, alert: Option<Error>)

  /** The floating-point side of the calculator, left abstract:
      `parse` is parseFloat (None standing for NaN), `isZero` is `=== 0`,
      `compute` is the JavaScript `+`, `-`, `*` or `/`, and `format` is
      rounding to 8 decimal places followed by Number.prototype.toString. */
  datatype Arith<!N> = Arith(
    parse: string -> Option<N>,
    isZero: N -> bool,
    compute: (Op, N, N) -> N,
    format: N -> string)

  /** What script.js relies on of its numbers: parseFloat('') is NaN, and a
      number's string form is never empty and has at most one '.'. */
  ghost predicate WellFormed<N(!new)>(a: Arith<N>) {
    a.parse("").None? &&
    forall n :: |a.format(n)| > 0 && CountDots(a.format(n)) <= 1
  }

  predicate IsDigit(c: char) {
    '0' <= c <= '9'
  }

  /** Number of decimal points in `s`; zero exactly when `s.includes('.')`
      is false. */
  function CountDots(s: string): (n: nat)
    ensures n == 0 <==> '.' !in s
    ensures n <= |s|
  {
    if s == [] then 0
    else (if s[0] == '.' then 1 else 0) + CountDots(s[1..])
  }

  lemma {:induction false} CountDotsAppend(s: string, t: string)
    ensures CountDots(s + t) == CountDots(s) + CountDots(t)
  {
    if s == [] {
      assert s + t == t;
    } else {
      assert (s + t)[1..] == s[1..] + t;
      CountDotsAppend(s[1..], t);
    }
  }

  /** The state at load time and after clearCalculator. */
  function Cleared(): State {
    State("0", "", None, false)
  }

  /** The invariant every transition keeps: the display is a non-empty
      string with at most one decimal point, and an operator is pending
      exactly when a left operand is stored. */
  ghost predicate ValidState(s: State) {
    |s.currentInput| > 0 &&
    CountDots(s.currentInput) <= 1 &&
    (s.currentOperator.None? <==> s.previousInput == "")
  }

  /** inputNumber: start a new number or extend the current one. */
  function DigitStep(s: State, d: char): State
    requires IsDigit(d)
  {
    if s.currentInput == "0" || s.shouldResetDisplay then
      s.(currentInput := [d], shouldResetDisplay := false)
    else
      s.(currentInput := s.currentInput + [d])
  }

  /** inputDecimal: start "0." or add a point if there is none yet. */
  function DecimalStep(s: State): State {
    if s.shouldResetDisplay then
      s.(currentInput := "0.", shouldResetDisplay := false)
    else if '.' !in s.currentInput then
      s.(currentInput := s.currentInput + ".")
    else
      s
  }

  /** performCalculation: parse both operands, refuse a zero divisor, store
      the rounded result or reset. */
  function Calculate<N>(a: Arith<N>, s: State): Outcome {
    var prevValue := a.parse(s.previousInput);
    var currentValue := a.parse(s.currentInput);
    if prevValue.None? || currentValue.None? then
      Outcome(Cleared(), Some(InvalidOperands))
    else
      match s.currentOperator
      case None =>
        // the `default: return` branch
        Outcome(s, None)
      case Some(op) =>
        if op == Divide && a.isZero(currentValue.value) then
          Outcome(Cleared(), Some(DivisionByZero))
        else
          var result := a.compute(op, prevValue.value, currentValue.value);
          Outcome(State(a.format(result), "", None, true), None)
  }

  /** handleOperator: resolve a pending calculation first unless the display
      was just reset, then store the left operand and the new operator. */
  function OperatorStep<N>(a: Arith<N>, s: State, op: Op): Outcome {
    var chained :=
      if s.currentOperator.Some? && !s.shouldResetDisplay then Calculate(a, s)
      else Outcome(s, None);
    var t := chained.state;
    Outcome(State(t.currentInput, t.currentInput, Some(op), true), chained.alert)
  }

  /** The keys the page dispatches to the calculator. */
  datatype Key = Digit(d: char) | Decimal | Operator(op: Op) | Equals | Clear

  predicate WellFormedKey(k: Key) {
    k.Digit? ==> IsDigit(k.d)
  }

  /** One key press. */
  function Press<N>(a: Arith<N>, s: State, k: Key): Outcome
    requires WellFormedKey(k)
  {
    match k
    case Digit(d) => Outcome(DigitStep(s, d), None)
    case Decimal => Outcome(DecimalStep(s), None)
    case Operator(op) => OperatorStep(a, s, op)
    case Equals => Calculate(a, s)
    case Clear => Outcome(Cleared(), None)
  }

  /** The state after pressing the keys of `ks` in order, starting in `s`. */
  function Run<N>(a: Arith<N>, s: State, ks: seq<Key>): State
    requires forall i :: 0 <= i < |ks| ==> WellFormedKey(ks[i])
    decreases |ks|
  {
    if ks == [] then s else Run(a, Press(a, s, ks[0]).state, ks[1..])
  }

  // ---------------------------------------------------------------------
  // Digit and decimal entry

  /** inputNumber leaves the operand and the operator alone, clears the
      reset flag and adds no decimal point. */
  lemma DigitFrame(s: State, d: char)
    requires IsDigit(d)
    ensures DigitStep(s, d).previousInput == s.previousInput
    ensures DigitStep(s, d).currentOperator == s.currentOperator
    ensures !DigitStep(s, d).shouldResetDisplay
    ensures DigitStep(s, d).currentInput[|DigitStep(s, d).currentInput| - 1] == d
    ensures CountDots(DigitStep(s, d).currentInput) <= CountDots(s.currentInput)
  {
    if !s.shouldResetDisplay && s.currentInput != "0" {
      CountDotsAppend(s.currentInput, [d]);
    }
  }

  /** Pressing '.' twice gives the state of pressing it once. */
  lemma DecimalIdempotent(s: State)
    ensures DecimalStep(DecimalStep(s)) == DecimalStep(s)
  {
  }

  /** A display with at most one decimal point keeps at most one, and after
      '.' it has exactly one. */
  lemma {:induction false} DecimalOneDot(s: State)
    ensures CountDots(s.currentInput) <= 1 ==> CountDots(DecimalStep(s).currentInput) == 1
    ensures DecimalStep(s).previousInput == s.previousInput
    ensures DecimalStep(s).currentOperator == s.currentOperator
    ensures !DecimalStep(s).shouldResetDisplay
  {
    assert CountDots("0.") == 1 by {
      assert "0."[1..] == ".";
      assert "."[1..] == "";
    }
    if !s.shouldResetDisplay && '.' !in s.currentInput {
      CountDotsAppend(s.currentInput, ".");
      assert "."[1..] == "";
    }
  }

  // ---------------------------------------------------------------------
  // performCalculation

  /** If either operand fails to parse, the calculator is cleared and
      InvalidOperands is reported, whatever else holds. */
  lemma UnparseableOperandsReset<N>(a: Arith<N>, s: State)
    requires a.parse(s.previousInput).None? || a.parse(s.currentInput).None?
    ensures Calculate(a, s) == Outcome(Cleared(), Some(InvalidOperands))
  {
  }

  /** Equals with no stored left operand (nothing pending) is not a no-op:
      it clears the calculator and reports InvalidOperands. */
  lemma EqualsWithNothingPendingResets<N(!new)>(a: Arith<N>, s: State)
    requires WellFormed(a) && ValidState(s)
    requires s.currentOperator.None?
    ensures Calculate(a, s) == Outcome(Cleared(), Some(InvalidOperands))
  {
  }

  /** A zero divisor clears the calculator and reports DivisionByZero. */
  lemma DivisionByZeroResets<N>(a: Arith<N>, s: State)
    requires s.currentOperator == Some(Divide)
    requires a.parse(s.previousInput).Some? && a.parse(s.currentInput).Some?
    requires a.isZero(a.parse(s.currentInput).value)
    ensures Calculate(a, s) == Outcome(Cleared(), Some(DivisionByZero))
  {
  }

  /** A calculation that passes both checks stores the formatted result,
      drops the operator and the left operand, and sets the reset flag. */
  lemma SuccessfulCalculation<N>(a: Arith<N>, s: State, op: Op, x: N, y: N)
    requires s.currentOperator == Some(op)
    requires a.parse(s.previousInput) == Some(x) && a.parse(s.currentInput) == Some(y)
    requires !(op == Divide && a.isZero(y))
    ensures Calculate(a, s).alert.None?
    ensures Calculate(a, s).state == State(a.format(a.compute(op, x, y)), "", None, true)
  {
  }

  /** Under the invariant the `default: return` branch is never taken:
      every calculation either reports an alert and clears, or stores a
      result. */
  lemma DefaultBranchUnreachable<N(!new)>(a: Arith<N>, s: State)
    requires WellFormed(a) && ValidState(s)
    ensures Calculate(a, s) != Outcome(s, None)
    ensures Calculate(a, s).alert.None? ==>
      s.currentOperator.Some? && Calculate(a, s).state.shouldResetDisplay &&
      Calculate(a, s).state.currentOperator.None?
  {
  }

  // ---------------------------------------------------------------------
  // handleOperator

  /** After an operator key the new operator is pending, the left operand is
      the display as it stood after any chained calculation, and the reset
      flag is set. */
  lemma OperatorStores<N>(a: Arith<N>, s: State, op: Op)
    ensures OperatorStep(a, s, op).state.currentOperator == Some(op)
    ensures OperatorStep(a, s, op).state.shouldResetDisplay
    ensures OperatorStep(a, s, op).state.previousInput == OperatorStep(a, s, op).state.currentInput
  {
  }

  /** A calculation runs first exactly when an operator is pending and the
      display was not just reset; otherwise nothing is computed and the
      display is kept. */
  lemma ChainingCondition<N>(a: Arith<N>, s: State, op: Op)
    ensures s.currentOperator.Some? && !s.shouldResetDisplay ==>
      OperatorStep(a, s, op).state.currentInput == Calculate(a, s).state.currentInput &&
      OperatorStep(a, s, op).alert == Calculate(a, s).alert
    ensures s.currentOperator.None? || s.shouldResetDisplay ==>
      OperatorStep(a, s, op) == Outcome(State(s.currentInput, s.currentInput, Some(op), true), None)
  {
  }

  /** Two operator keys in a row: the second computes nothing and only
      replaces the pending operator. */
  lemma OperatorTwice<N>(a: Arith<N>, s: State, op1: Op, op2: Op)
    ensures OperatorStep(a, OperatorStep(a, s, op1).state, op2) ==
      Outcome(OperatorStep(a, s, op1).state.(currentOperator := Some(op2)), None)
    ensures OperatorStep(a, OperatorStep(a, s, op1).state, op2).state == OperatorStep(a, s, op2).state
  {
  }

  /** A zero divisor met while chaining clears the calculator, and the
      operator key then stores "0" as the left operand with its operator. */
  lemma ChainedDivisionByZero<N>(a: Arith<N>, s: State, op: Op)
    requires s.currentOperator == Some(Divide) && !s.shouldResetDisplay
    requires a.parse(s.previousInput).Some? && a.parse(s.currentInput).Some?
    requires a.isZero(a.parse(s.currentInput).value)
    ensures OperatorStep(a, s, op) == Outcome(State("0", "0", Some(op), true), Some(DivisionByZero))
  {
  }

  // ---------------------------------------------------------------------
  // The invariant over every key and every run

  /** Every key keeps the invariant. */
  lemma {:induction false} PressPreservesValid<N(!new)>(a: Arith<N>, s: State, k: Key)
    requires WellFormed(a) && ValidState(s) && WellFormedKey(k)
    ensures ValidState(Press(a, s, k).state)
  {
    match k
    case Digit(d) => DigitFrame(s, d);
    case Decimal => DecimalOneDot(s);
    case Operator(op) =>
      if s.currentOperator.Some? && !s.shouldResetDisplay {
        CalculatePreservesValid(a, s);
      }
    case Equals => CalculatePreservesValid(a, s);
    case Clear =>
      assert "0"[1..] == "";
  }

  lemma CalculatePreservesValid<N(!new)>(a: Arith<N>, s: State)
    requires WellFormed(a) && ValidState(s)
    ensures ValidState(Calculate(a, s).state)
  {
  }

  /** Every state reachable from `s` by key presses keeps the invariant. */
  lemma {:induction false} RunPreservesValid<N(!new)>(a: Arith<N>, s: State, ks: seq<Key>)
    requires WellFormed(a) && ValidState(s)
    requires forall i :: 0 <= i < |ks| ==> WellFormedKey(ks[i])
    ensures ValidState(Run(a, s, ks))
    decreases |ks|
  {
    if ks != [] {
      PressPreservesValid(a, s, ks[0]);
      RunPreservesValid(a, Press(a, s, ks[0]).state, ks[1..]);
    }
  }

  /** Clear yields the initial state from any state. */
  lemma ClearResets<N>(a: Arith<N>, s: State)
    ensures Press(a, s, Clear).state == Cleared() == State("0", "", None, false)
    ensures Press(a, s, Clear).alert.None?
  {
  }

  // ---------------------------------------------------------------------
  // Typing numbers

  /** The keys for typing the digits of `ds`. */
  function DigitKeys(ds: string): (ks: seq<Key>)
    requires forall i :: 0 <= i < |ds| ==> IsDigit(ds[i])
    ensures |ks| == |ds|
    ensures forall i :: 0 <= i < |ks| ==> ks[i] == Digit(ds[i]) && WellFormedKey(ks[i])
  {
    if ds == [] then [] else [Digit(ds[0])] + DigitKeys(ds[1..])
  }

  function StripLeadingZeros(ds: string): string {
    if ds != [] && ds[0] == '0' then StripLeadingZeros(ds[1..]) else ds
  }

  /** What the display shows after typing `ds` from the cleared state:
      the digits with leading zeros dropped, or "0" if nothing is left. */
  function Typed(ds: string): string {
    if StripLeadingZeros(ds) == "" then "0" else StripLeadingZeros(ds)
  }

  /** Once the display holds a number other than "0" and is not about to be
      reset, digits are appended one by one. */
  lemma {:induction false} DigitsAppend<N>(a: Arith<N>, s: State, ds: string)
    requires forall i :: 0 <= i < |ds| ==> IsDigit(ds[i])
    requires s.currentInput != "0" && s.currentInput != "" && !s.shouldResetDisplay
    ensures Run(a, s, DigitKeys(ds)) == s.(currentInput := s.currentInput + ds)
    decreases |ds|
  {
    if ds == [] {
      assert s.currentInput + ds == s.currentInput;
    } else {
      var t := s.(currentInput := s.currentInput + [ds[0]]);
      assert Press(a, s, Digit(ds[0])).state == t;
      assert DigitKeys(ds)[1..] == DigitKeys(ds[1..]);
      DigitsAppend(a, t, ds[1..]);
      assert t.currentInput + ds[1..] == s.currentInput + ds;
    }
  }

  /** Typing digits from a display of "0" (not about to be reset) replaces
      the solitary "0" by the first non-zero digit and appends the rest. */
  lemma {:induction false} DigitsFromZero<N>(a: Arith<N>, s: State, ds: string)
    requires forall i :: 0 <= i < |ds| ==> IsDigit(ds[i])
    requires s.currentInput == "0" && !s.shouldResetDisplay
    ensures Run(a, s, DigitKeys(ds)) == s.(currentInput := Typed(ds))
    decreases |ds|
  {
    if ds != [] {
      var t := DigitStep(s, ds[0]);
      assert DigitKeys(ds)[1..] == DigitKeys(ds[1..]);
      if ds[0] == '0' {
        assert t == s;
        DigitsFromZero(a, s, ds[1..]);
      } else {
        DigitsAppend(a, t, ds[1..]);
        assert [ds[0]] + ds[1..] == ds;
      }
    }
  }

  /** From the cleared state, typing digits shows them with every leading
      zero dropped ("007" shows "7"), or "0" if only zeros were typed. */
  lemma TypingFromCleared<N>(a: Arith<N>, ds: string)
    requires forall i :: 0 <= i < |ds| ==> IsDigit(ds[i])
    ensures Run(a, Cleared(), DigitKeys(ds)) == State(Typed(ds), "", None, false)
  {
    DigitsFromZero(a, Cleared(), ds);
  }

  // ---------------------------------------------------------------------
  // Operator chaining, on an example

  /** 3 + 4 + 5 = : the second + resolves 3 + 4, and equals adds 5 to that
      result. */
  lemma ChainedAddition<N>(a: Arith<N>, x3: N, x4: N, x5: N, x7: N)
    requires a.parse("3") == Some(x3) && a.parse("4") == Some(x4) && a.parse("5") == Some(x5)
    requires a.parse(a.format(a.compute(Add, x3, x4))) == Some(x7)
    ensures Run(a, Cleared(), [Digit('3'), Operator(Add), Digit('4'), Operator(Add), Digit('5'), Equals])
      == State(a.format(a.compute(Add, x7, x5)), "", None, true)
  {
  }
}
