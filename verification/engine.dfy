/** The calculator of script.js as it is written there: four variables that
    each key handler reassigns in place. Each method is tied to the
    transition function of the same key in `Transitions`, so every lemma
    proved there holds of the object. */
module Engine {
  import opened Wrappers
  import opened Transitions

  class Calculator<N(!new)> {
    /** The number operations (parseFloat, `=== 0`, the four operators,
        rounding and toString). */
    const arith: Arith<N>

    var currentInput: string
    var previousInput: string
    var currentOperator: Option<Op>
    var shouldResetDisplay: bool

    /** The four variables as one value. */
    ghost function State(): State
      reads this
    {
      Transitions.State(currentInput, previousInput, currentOperator, shouldResetDisplay)
    }

    ghost predicate Valid()
      reads this
    {
      WellFormed(arith) && ValidState(State())
    }

    /** The variables as declared at the top of the script. */
    constructor (a: Arith<N>)
      requires WellFormed(a)
      ensures arith == a
      ensures currentInput == "0" && previousInput == ""
      ensures currentOperator == None && !shouldResetDisplay
      ensures State() == Cleared()
      ensures Valid()
    {
      arith := a;
      currentInput := "0";
      previousInput := "";
      currentOperator := None;
      shouldResetDisplay := false;
    }

    /** inputNumber: a digit replaces a display of "0" or one about to be
        reset, and is appended otherwise. */
    method InputNumber(number: char)
      requires IsDigit(number)
      modifies this
      ensures old(currentInput) == "0" || old(shouldResetDisplay) ==>
        currentInput == [number]
      ensures !(old(currentInput) == "0" || old(shouldResetDisplay)) ==>
        currentInput == old(currentInput) + [number]
      ensures !shouldResetDisplay
      ensures previousInput == old(previousInput) && currentOperator == old(currentOperator)
      ensures State() == DigitStep(old(State()), number)
      ensures old(Valid()) ==> Valid()
    {
      if currentInput == "0" || shouldResetDisplay {
        currentInput := [number];
        shouldResetDisplay := false;
      } else {
        currentInput := currentInput + [number];
      }
      if old(Valid()) {
        PressPreservesValid(arith, old(State()), Digit(number));
      }
    }

    /** inputDecimal: "0." on a display about to be reset, otherwise a point
        is added only if there is none. */
    method InputDecimal()
      modifies this
      ensures old(shouldResetDisplay) ==> currentInput == "0."
      ensures !old(shouldResetDisplay) && '.' !in old(currentInput) ==>
        currentInput == old(currentInput) + "."
      ensures !old(shouldResetDisplay) && '.' in old(currentInput) ==>
        currentInput == old(currentInput)
      ensures !shouldResetDisplay
      ensures previousInput == old(previousInput) && currentOperator == old(currentOperator)
      ensures State() == DecimalStep(old(State()))
      ensures old(Valid()) ==> Valid()
    {
      if shouldResetDisplay {
        currentInput := "0.";
        shouldResetDisplay := false;
      } else if '.' !in currentInput {
        currentInput := currentInput + ".";
      }
      if old(Valid()) {
        PressPreservesValid(arith, old(State()), Decimal);
      }
    }

    /** handleOperator: chain a pending calculation unless the display was
        just reset, then store the left operand and the operator. The alert
        raised by the chained calculation, if any, is returned. */
    method HandleOperator(operator: Op) returns (alert: Option<Error>)
      modifies this
      ensures currentOperator == Some(operator)
      ensures previousInput == currentInput
      ensures shouldResetDisplay
      ensures old(currentOperator).None? || old(shouldResetDisplay) ==>
        currentInput == old(currentInput) && alert == None
      ensures Outcome(State(), alert) == OperatorStep(arith, old(State()), operator)
      ensures old(currentOperator).Some? && !old(shouldResetDisplay) && alert.None? ==>
        currentInput == arith.format(arith.compute(old(currentOperator).value,
          arith.parse(old(previousInput)).value, arith.parse(old(currentInput)).value))
      ensures alert.Some? ==> currentInput == "0" && previousInput == "0"
      ensures old(Valid()) ==> Valid()
    {
      alert := None;
      if currentOperator.Some? && !shouldResetDisplay {
        alert := PerformCalculation();
      }
      previousInput := currentInput;
      currentOperator := Some(operator);
      shouldResetDisplay := true;
      if old(Valid()) {
        PressPreservesValid(arith, old(State()), Operator(operator));
      }
    }

    /** performCalculation: the equals key, also run by handleOperator. */
    method PerformCalculation() returns (alert: Option<Error>)
      modifies this
      ensures alert == Some(InvalidOperands) <==>
        arith.parse(old(previousInput)).None? || arith.parse(old(currentInput)).None?
      ensures alert.Some? ==> State() == Cleared()
      ensures alert.None? && old(currentOperator).Some? ==>
        currentOperator == None && previousInput == "" && shouldResetDisplay &&
        currentInput == arith.format(arith.compute(old(currentOperator).value,
          arith.parse(old(previousInput)).value, arith.parse(old(currentInput)).value))
      ensures Outcome(State(), alert) == Calculate(arith, old(State()))
      ensures old(Valid()) ==> Valid()
    {
      var prevValue := arith.parse(previousInput);
      var currentValue := arith.parse(currentInput);

      if prevValue.None? || currentValue.None? {
        alert := Some(InvalidOperands);
        ClearCalculator();
        return;
      }

      var result: N;
      match currentOperator {
        case None =>
          alert := None;
          return;
        case Some(op) =>
          if op == Divide && arith.isZero(currentValue.value) {
            alert := Some(DivisionByZero);
            ClearCalculator();
            return;
          }
          result := arith.compute(op, prevValue.value, currentValue.value);
      }

      currentInput := arith.format(result);
      currentOperator := None;
      previousInput := "";
      shouldResetDisplay := true;
      alert := None;
      if old(Valid()) {
        CalculatePreservesValid(arith, old(State()));
      }
    }

    /** clearCalculator: back to the state the script starts in. */
    method ClearCalculator()
      modifies this
      ensures currentInput == "0" && previousInput == ""
      ensures currentOperator == None && !shouldResetDisplay
      ensures State() == Cleared()
      ensures WellFormed(arith) ==> Valid()
    {
      currentInput := "0";
      previousInput := "";
      currentOperator := None;
      shouldResetDisplay := false;
    }
  }
}
