/** The calculator's keypad state machine. Each key handler is one atomic
    transition: it reads the state as it was before the key was pressed and
    writes the state after it. */
module Calculator {
  import opened Values
  import opened Arithmetic

  predicate IsDigit(c: char) {
    '0' <= c <= '9'
  }

  /** A number as it is being typed on the keypad: it starts with a digit, holds
      only digits and at most one '.', and a leading '0' is either the whole
      number or followed by the '.'. */
  predicate IsTypedNumeral(s: string) {
    && |s| > 0
    && IsDigit(s[0])
    && (forall i :: 0 <= i < |s| ==> IsDigit(s[i]) || s[i] == '.')
    && multiset(s)['.'] <= 1
    && (s[0] == '0' && |s| > 1 ==> s[1] == '.')
  }

  /** Typing a digit after a typed number other than a lone "0" gives a typed number. */
  lemma AppendDigitKeepsNumeral(s: string, d: char)
    requires IsTypedNumeral(s) && s != "0" && IsDigit(d)
    ensures IsTypedNumeral(s + [d])
    ensures multiset(s + [d])['.'] == multiset(s)['.']
  {
  }

  /** Typing '.' after a typed number without one gives a typed number holding
      exactly one '.'. */
  lemma AppendPointKeepsNumeral(s: string)
    requires IsTypedNumeral(s) && '.' !in s
    ensures IsTypedNumeral(s + ['.'])
    ensures multiset(s + ['.'])['.'] == 1
  {
  }

  /** The operation is pending when it is set to a non-empty symbol (a JavaScript
      string is truthy exactly when it is not empty). */
  predicate IsPending(operation: Option<string>) {
    operation.Some? && operation.value != ""
  }

  /** The names `handleSpecialFunction` recognises. */
  const SPECIAL_FUNCTIONS: set<string> := {"sqrt", "sin", "cos", "tan", "log", "ln"}

  /** The unary function named `func` applied to `x`, or None for a name that
      is not recognised. */
  function ApplySpecialFunction(lib: Numerics, func: string, x: Num): (r: Option<Num>)
    ensures r.Some? <==> func in SPECIAL_FUNCTIONS
    ensures func == "sqrt" ==> r == Some(lib.sqrt(x))
    ensures func == "sin" ==> r == Some(lib.sinDegrees(x))
    ensures func == "cos" ==> r == Some(lib.cosDegrees(x))
    ensures func == "tan" ==> r == Some(lib.tanDegrees(x))
    ensures func == "log" ==> r == Some(lib.log10(x))
    ensures func == "ln" ==> r == Some(lib.ln(x))
  {
    match func
    case "sqrt" => Some(lib.sqrt(x))
    case "sin" => Some(lib.sinDegrees(x))
    case "cos" => Some(lib.cosDegrees(x))
    case "tan" => Some(lib.tanDegrees(x))
    case "log" => Some(lib.log10(x))
    case "ln" => Some(lib.ln(x))
    case _ => None
  }

  /** All the state of the calculator at one moment. */
  datatype Snapshot = Snapshot(
    display: string,
    memory: Num,
    previousValue: Option<Num>,
    operation: Option<string>,
    isNewNumber: bool,
    expression: string,
    isGraphMode: bool)

  class Calculator {
    const lib: Numerics
    var display: string
    /** Held but never read or written by any handler. */
    var memory: Num
    var previousValue: Option<Num>
    var operation: Option<string>
    var isNewNumber: bool
    var expression: string
    var isGraphMode: bool

    /** While a number is being typed the display shows a typed number, and an
        operand is stored exactly when an operation is. */
    predicate Valid()
      reads this
    {
      && (!isNewNumber ==> IsTypedNumeral(display))
      && (previousValue.Some? <==> operation.Some?)
    }

    function State(): Snapshot
      reads this
    {
      Snapshot(display, memory, previousValue, operation, isNewNumber, expression, isGraphMode)
    }

    constructor (lib: Numerics)
      ensures Valid() && this.lib == lib
      ensures State() == Snapshot("0", Val(0.0), None, None, true, "", false)
    {
      this.lib := lib;
      display := "0";
      memory := Val(0.0);
      previousValue := None;
      operation := None;
      isNewNumber := true;
      expression := "";
      isGraphMode := false;
    }

    /** The clear key: back to "0" with nothing stored; the plotted function is
        erased, the mode and the memory stay. */
    method ClearDisplay()
      requires Valid()
      modifies this
      ensures Valid()
      ensures display == "0" && previousValue == None && operation == None
      ensures isNewNumber && expression == ""
      ensures memory == old(memory) && isGraphMode == old(isGraphMode)
    {
      display := "0";
      previousValue := None;
      operation := None;
      isNewNumber := true;
      expression := "";
    }

    /** A digit key: it starts a new number, replaces a lone "0", or is appended. */
    method HandleNumber(d: char)
      requires Valid() && IsDigit(d)
      modifies this
      ensures Valid() && !isNewNumber && IsTypedNumeral(display)
      ensures old(isNewNumber) ==> display == [d]
      ensures !old(isNewNumber) && old(display) == "0" ==> display == [d]
      ensures !old(isNewNumber) && old(display) != "0" ==> display == old(display) + [d]
      ensures multiset(display)['.'] == if old(isNewNumber) then 0 else multiset(old(display))['.']
      ensures memory == old(memory) && previousValue == old(previousValue)
      ensures operation == old(operation) && expression == old(expression)
      ensures isGraphMode == old(isGraphMode)
    {
      if isNewNumber {
        display := [d];
        isNewNumber := false;
      } else if display == "0" {
        display := [d];
      } else {
        AppendDigitKeepsNumeral(display, d);
        display := display + [d];
      }
    }

    /** The '.' key: it starts a new number as "0.", does nothing when the
        number already has a '.', and appends one otherwise. */
    method HandleDecimal()
      requires Valid()
      modifies this
      ensures Valid() && !isNewNumber && IsTypedNumeral(display)
      ensures multiset(display)['.'] == 1
      ensures old(isNewNumber) ==> display == "0."
      ensures !old(isNewNumber) && '.' in old(display) ==> display == old(display)
      ensures !old(isNewNumber) && '.' !in old(display) ==> display == old(display) + ['.']
      ensures memory == old(memory) && previousValue == old(previousValue)
      ensures operation == old(operation) && expression == old(expression)
      ensures isGraphMode == old(isGraphMode)
    {
      if isNewNumber {
        display := "0.";
        isNewNumber := false;
        assert multiset(display)['.'] == 1 by {
          assert display == ['0'] + ['.'];
        }
      } else if '.' !in display {
        AppendPointKeepsNumeral(display);
        display := display + ['.'];
      } else {
        assert multiset(display)['.'] >= 1;
      }
    }

    /** A binary operator key. The first operand is stored from the display; with
        an operation already pending, that operation is folded into the stored
        operand and shown. Either way the new operator is pending afterwards and
        the next digit starts a new number. */
    method HandleOperator(op: string)
      requires Valid()
      modifies this
      ensures Valid()
      ensures operation == Some(op) && isNewNumber && previousValue.Some?
      ensures old(previousValue) == None ==>
                previousValue == Some(lib.parseFloat(old(display))) && display == old(display)
      ensures old(previousValue).Some? && IsPending(old(operation)) ==>
                var result := Calculate(lib, old(previousValue).value,
                                        lib.parseFloat(old(display)), old(operation).value);
                previousValue == Some(result) && display == lib.toText(result)
      ensures old(previousValue).Some? && !IsPending(old(operation)) ==>
                previousValue == old(previousValue) && display == old(display)
      ensures memory == old(memory) && expression == old(expression)
      ensures isGraphMode == old(isGraphMode)
    {
      var current := lib.parseFloat(display);
      if previousValue == None {
        previousValue := Some(current);
      } else if IsPending(operation) {
        var result := Calculate(lib, previousValue.value, current, operation.value);
        previousValue := Some(result);
        display := lib.toText(result);
      }
      operation := Some(op);
      isNewNumber := true;
    }

    /** The equals key: with an operand stored and an operation pending it shows
        the result and clears both; otherwise it changes nothing. */
    method HandleEquals()
      requires Valid()
      modifies this
      ensures Valid()
      ensures !IsPending(operation) && (previousValue == None || State() == old(State()))
      ensures old(previousValue).Some? && IsPending(old(operation)) ==>
                && display == lib.toText(Calculate(lib, old(previousValue).value,
                                                   lib.parseFloat(old(display)),
                                                   old(operation).value))
                && previousValue == None && operation == None && isNewNumber
                && memory == old(memory) && expression == old(expression)
                && isGraphMode == old(isGraphMode)
      ensures !(old(previousValue).Some? && IsPending(old(operation))) ==> State() == old(State())
    {
      if previousValue.Some? && IsPending(operation) {
        var current := lib.parseFloat(display);
        var result := Calculate(lib, previousValue.value, current, operation.value);
        display := lib.toText(result);
        previousValue := None;
        operation := None;
        isNewNumber := true;
      }
    }

    /** A unary function key: a recognised name shows the function of the
        displayed number and starts a new number; any other name changes nothing. */
    method HandleSpecialFunction(func: string)
      requires Valid()
      modifies this
      ensures Valid()
      ensures func in SPECIAL_FUNCTIONS ==>
                && display == lib.toText(ApplySpecialFunction(lib, func, lib.parseFloat(old(display))).value)
                && isNewNumber
                && memory == old(memory) && previousValue == old(previousValue)
                && operation == old(operation) && expression == old(expression)
                && isGraphMode == old(isGraphMode)
      ensures func !in SPECIAL_FUNCTIONS ==> State() == old(State())
    {
      var current := lib.parseFloat(display);
      var result := ApplySpecialFunction(lib, func, current);
      if result.None? {
        return;
      }
      display := lib.toText(result.value);
      isNewNumber := true;
    }

    /** The mode key: it flips between calculator and graph mode, and entering
        graph mode sets the plotted function to "x". */
    method HandleGraphMode()
      requires Valid()
      modifies this
      ensures Valid()
      ensures isGraphMode == !old(isGraphMode)
      ensures expression == if old(isGraphMode) then old(expression) else "x"
      ensures display == old(display) && memory == old(memory)
      ensures previousValue == old(previousValue) && operation == old(operation)
      ensures isNewNumber == old(isNewNumber)
    {
      var wasGraphMode := isGraphMode;
      isGraphMode := !wasGraphMode;
      if !wasGraphMode {
        expression := "x";
      }
    }
  }

  /** Pressing equals a second time in a row leaves the state exactly as the
      first press left it. */
  method PressEqualsTwice(c: Calculator) returns (afterFirst: Snapshot)
    requires c.Valid()
    modifies c
    ensures c.Valid() && c.State() == afterFirst
  {
    c.HandleEquals();
    afterFirst := c.State();
    c.HandleEquals();
  }

  /** Toggling the mode twice returns to the original mode, with the plotted
      function set to "x" on the way and nothing else changed. */
  method ToggleGraphModeTwice(c: Calculator)
    requires c.Valid()
    modifies c
    ensures c.Valid() && c.isGraphMode == old(c.isGraphMode)
    ensures c.State() == old(c.State()).(expression := "x")
  {
    c.HandleGraphMode();
    c.HandleGraphMode();
  }
}
